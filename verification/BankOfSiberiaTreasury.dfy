/** Double entry for the pooled treasury of pallet-bank-of-siberia, over every run, and what
    follows from it: each obligation is settled at most once. */
module BankOfSiberiaTreasury {
  import opened Prelude
  import opened Currency
  import opened Sums
  import opened Arithmetic
  import opened BankOfSiberia
  import opened BankOfSiberiaRecords

  // ================================================================ what the treasury holds for others

  function LockedIn(id: nat, e: Escrow): int { if e.status == EscrowStatus.Locked then e.amount else 0 }

  function OpenIn(id: nat, d: Deposit): int { if d.status == DepositStatus.Open then d.amount else 0 }

  function CardOf(a: Account, amount: nat): int { amount }

  /** Locked escrows, unclaimed deposit principals and card collateral. */
  ghost function Held(c: Custody): int {
    Sum(c.escrows, LockedIn) + Sum(c.deposits, OpenIn) + Sum(c.collaterals, CardOf)
  }

  /** The treasury holds its opening balance, the net of every reported flow, and what it keeps
      for others. */
  ghost predicate DoubleEntry(cfg: Config, s: Storage, opening: int) {
    s.ledger.Free(cfg.treasury) == opening + Total(TreasuryFlow(cfg.treasury), s.events) + Held(s.custody)
  }

  ghost predicate CustodyAvoids(treasury: Account, c: Custody) {
    && (forall id :: id in c.escrows ==>
          id < c.nextEscrow && c.escrows[id].depositor != treasury && c.escrows[id].counterparty != treasury)
    && (forall id :: id in c.deposits ==> id < c.nextDeposit && c.deposits[id].depositor != treasury)
  }

  ghost predicate LendingAvoids(treasury: Account, book: Lending) {
    forall id :: id in book.loans ==> book.loans[id].borrower != treasury
  }

  ghost predicate AccountsAvoid(treasury: Account, a: Accounts) {
    forall x :: x in a.subMeta ==> x != treasury
  }

  ghost predicate Strangers(cfg: Config, s: Storage) {
    && CustodyAvoids(cfg.treasury, s.custody)
    && LendingAvoids(cfg.treasury, s.lending)
    && AccountsAvoid(cfg.treasury, s.accounts)
  }

  /** The treasury has no key, so it signs nothing; nobody names it in an escrow, and no
      sub-account is derived to its address. */
  predicate Keyless(cfg: Config, call: Call) {
    match call
    case OpenSub(who, kind) => cfg.derive(who, kind) != cfg.treasury
    case Request(who, _, _) => who != cfg.treasury
    case Escrowed(who, counterparty, _, _) => who != cfg.treasury && counterparty != cfg.treasury
    case OpenDeposit(who, _, _, _) => who != cfg.treasury
    case Withdraw(who, _, _) => who != cfg.treasury
    case Pay(who, _, _) => who != cfg.treasury
    case Fund(who, _) => who != cfg.treasury
    case Lock(who, _) => who != cfg.treasury
    case Unlock(who, _, _, _) => who != cfg.treasury
    case Advance(who, _, _, _) => who != cfg.treasury
    case RepayAdvance(who, _) => who != cfg.treasury
    case Foreign(from, _, _) => from != cfg.treasury
    case _ => true
  }

  /** Nothing was reported, or one event, which the call is one to report. */
  ghost predicate Reports(s: Storage, t: Storage, call: Call) {
    t.events == s.events
    || (&& |t.events| == |s.events| + 1
        && t.events == s.events + [t.events[|s.events|]]
        && var e := t.events[|s.events|];
           && (e.EscrowReleased? ==> call.Release? && call.id == e.id)
           && (e.EscrowRefunded? ==> call.Refund? && call.id == e.id)
           && (e.DepositClaimed? ==> call.Claim? && call.id == e.id)
           && (e.LoanApproved? ==> call == Approve(e.id))
           && (e.RepaymentApplied? ==> call.Pay?)
           && (e.AdvanceClaimed? ==> call.Advance? && call.nonce == e.nonce)
           && (e.CollateralUnlocked? ==> call.Unlock? && call.nonce == e.nonce)
           && (e.WholesaleBorrowed? ==> call.Borrow?)
           && (e.WholesaleRepaid? ==> call.RepayCentral?))
  }

  lemma CustodyReports(cfg: Config, s: Storage, now: nat, call: Call)
    requires TouchesCustody(call)
    ensures Reports(s, Step(cfg, s, now, call), call)
  {
    hide InterestOn, Storage.Move;
  }

  lemma OtherCallReports(cfg: Config, s: Storage, now: nat, call: Call)
    requires !TouchesCustody(call)
    ensures Reports(s, Step(cfg, s, now, call), call)
  {
    hide Storage.Move, Storage.Burn, Ledger.DepositCreating, Ledger.Lands, AfterPayment, DropSubAccount;
  }

  /** Every dispatch reports at most one event, and only its own kind. */
  lemma EventFrame(cfg: Config, s: Storage, now: nat, call: Call)
    ensures Reports(s, Step(cfg, s, now, call), call)
  {
    hide Step, Reports;
    if TouchesCustody(call) {
      CustodyReports(cfg, s, now, call);
    } else {
      OtherCallReports(cfg, s, now, call);
    }
  }

  lemma TotalStep(m: Measure, s: Storage, t: Storage)
    requires t.events != s.events ==> |t.events| == |s.events| + 1 && t.events == s.events + [t.events[|s.events|]]
    ensures Total(m, t.events) == Total(m, s.events)
                                  + (if t.events == s.events then 0 else Reading(m, t.events[|s.events|]))
  {
    if t.events != s.events {
      TotalAppend(m, s.events, t.events[|s.events|]);
    }
  }

  // ================================================================ double entry

  lemma StepKeepsCustodyAvoids(cfg: Config, s: Storage, now: nat, call: Call)
    requires CustodyAvoids(cfg.treasury, s.custody) && Keyless(cfg, call)
    ensures CustodyAvoids(cfg.treasury, Step(cfg, s, now, call).custody)
  {
    hide InterestOn, Storage.Move;
    CustodyFrame(cfg, s, now, call);
    if !EscrowCall(call) && !call.OpenDeposit? && !call.Claim? {
      hide Dispatch;
    }
  }

  lemma StepKeepsLendingAvoids(cfg: Config, s: Storage, now: nat, call: Call)
    requires LendingAvoids(cfg.treasury, s.lending) && Keyless(cfg, call)
    ensures LendingAvoids(cfg.treasury, Step(cfg, s, now, call).lending)
  {
    hide Storage.Move;
    if !TouchesLending(call) {
      Frame(cfg, s, now, call);
      hide Dispatch;
    }
  }

  lemma StepKeepsAccountsAvoid(cfg: Config, s: Storage, now: nat, call: Call)
    requires AccountsAvoid(cfg.treasury, s.accounts) && Keyless(cfg, call)
    ensures AccountsAvoid(cfg.treasury, Step(cfg, s, now, call).accounts)
  {
    hide Storage.Move;
    if !TouchesAccounts(call) {
      Frame(cfg, s, now, call);
      hide Dispatch;
    }
  }

  predicate EscrowCall(call: Call) { call.Escrowed? || call.Release? || call.Refund? }

  lemma EscrowCallKeepsDoubleEntry(cfg: Config, s: Storage, opening: int, now: nat, call: Call)
    requires CustodyAvoids(cfg.treasury, s.custody) && Keyless(cfg, call) && EscrowCall(call)
    requires DoubleEntry(cfg, s, opening)
    ensures DoubleEntry(cfg, Step(cfg, s, now, call), opening)
  {
    hide Storage.Move, Sum, Total;
    var c, treasury := s.custody, cfg.treasury;
    var flow, t := TreasuryFlow(cfg.treasury), Step(cfg, s, now, call);
    if Dispatch(cfg, s, now, call).Ok? {
      match call
      case Escrowed(who, counterparty, amount, itemHash) =>
        MoveConserves(s, who, treasury, amount, AllowDeath);
        SumUpdate(c.escrows, LockedIn, c.nextEscrow, t.custody.escrows[c.nextEscrow]);
      case Release(who, id) =>
        MoveConserves(s, treasury, c.escrows[id].counterparty, c.escrows[id].amount, AllowDeath);
        SumUpdate(c.escrows, LockedIn, id, t.custody.escrows[id]);
        TotalAppend(flow, s.events, EscrowReleased(id));
      case Refund(who, id) =>
        MoveConserves(s, treasury, c.escrows[id].depositor, c.escrows[id].amount, AllowDeath);
        SumUpdate(c.escrows, LockedIn, id, t.custody.escrows[id]);
        TotalAppend(flow, s.events, EscrowRefunded(id));
    }
  }

  /** Paying an escrow out keeps the books exactly when the payee is not the treasury itself:
      a transfer to oneself moves nothing. */
  lemma ReleaseKeepsBooksUnlessToTreasury(cfg: Config, s: Storage, opening: int, caller: Account, id: nat)
    requires DoubleEntry(cfg, s, opening) && ReleaseEscrow(cfg, s, caller, id).Ok?
    requires s.custody.escrows[id].amount > 0
    ensures DoubleEntry(cfg, ReleaseEscrow(cfg, s, caller, id).value, opening)
            <==> s.custody.escrows[id].counterparty != cfg.treasury
  {
    var c, t := s.custody, ReleaseEscrow(cfg, s, caller, id).value;
    MoveConserves(s, cfg.treasury, c.escrows[id].counterparty, c.escrows[id].amount, AllowDeath);
    SumUpdate(c.escrows, LockedIn, id, t.custody.escrows[id]);
    TotalAppend(TreasuryFlow(cfg.treasury), s.events, EscrowReleased(id));
    hide Sum, Total;
  }

  lemma DepositCallKeepsDoubleEntry(cfg: Config, s: Storage, opening: int, now: nat, call: Call)
    requires CustodyAvoids(cfg.treasury, s.custody) && Keyless(cfg, call) && (call.OpenDeposit? || call.Claim?)
    requires DoubleEntry(cfg, s, opening)
    ensures DoubleEntry(cfg, Step(cfg, s, now, call), opening)
  {
    hide InterestOn, Storage.Move, Sum, Total;
    var c, t := s.custody, Step(cfg, s, now, call);
    if Dispatch(cfg, s, now, call).Ok? {
      match call
      case OpenDeposit(who, amount, duration, documentHash) =>
        MoveConserves(s, who, cfg.treasury, amount, AllowDeath);
        SumUpdate(c.deposits, OpenIn, c.nextDeposit, t.custody.deposits[c.nextDeposit]);
      case Claim(who, id) =>
        var d := c.deposits[id];
        var interest := InterestOn(d.amount, d.rateBps, d.openedAt, d.maturity);
        MoveConserves(s, cfg.treasury, who, d.amount + interest, AllowDeath);
        SumUpdate(c.deposits, OpenIn, id, t.custody.deposits[id]);
        TotalAppend(TreasuryFlow(cfg.treasury), s.events, DepositClaimed(id, interest));
    }
  }

  predicate CardCall(call: Call) { call.Lock? || call.Unlock? || call.Advance? }

  lemma CardCallKeepsDoubleEntry(cfg: Config, s: Storage, opening: int, now: nat, call: Call)
    requires Keyless(cfg, call) && CardCall(call) && DoubleEntry(cfg, s, opening)
    ensures DoubleEntry(cfg, Step(cfg, s, now, call), opening)
  {
    hide Storage.Move, Sum, Total;
    var c, flow := s.custody, TreasuryFlow(cfg.treasury);
    if Dispatch(cfg, s, now, call).Ok? {
      match call
      case Lock(who, amount) =>
        MoveConserves(s, who, cfg.treasury, amount, KeepAlive);
        SumUpdate<Account, nat>(c.collaterals, CardOf, who, c.CollateralOf(who) + amount);
      case Unlock(who, amount, nonce, signature) =>
        MoveConserves(s, cfg.treasury, who, amount, KeepAlive);
        SumUpdate<Account, nat>(c.collaterals, CardOf, who, c.CollateralOf(who) - amount);
        TotalAppend(flow, s.events, CollateralUnlocked(amount, nonce));
      case Advance(who, amount, nonce, signature) =>
        MoveConserves(s, cfg.treasury, who, amount, KeepAlive);
        TotalAppend(flow, s.events, AdvanceClaimed(amount, nonce));
    }
  }

  lemma AccountsCallKeepsDoubleEntry(cfg: Config, s: Storage, opening: int, now: nat, call: Call)
    requires AccountsAvoid(cfg.treasury, s.accounts) && Keyless(cfg, call) && DoubleEntry(cfg, s, opening)
    requires TouchesAccounts(call)
    ensures DoubleEntry(cfg, Step(cfg, s, now, call), opening)
  {
    hide Storage.Move, Sum, Total, Held;
    if Dispatch(cfg, s, now, call).Ok? && call.Withdraw? {
      MoveConserves(s, call.sub, call.who, call.amount, AllowDeath);
    }
  }

  lemma LendingCallKeepsDoubleEntry(cfg: Config, s: Storage, opening: int, now: nat, call: Call)
    requires LendingAvoids(cfg.treasury, s.lending) && Keyless(cfg, call) && DoubleEntry(cfg, s, opening)
    requires TouchesLending(call)
    ensures DoubleEntry(cfg, Step(cfg, s, now, call), opening)
  {
    hide Storage.Move, Sum, Total, Held, AfterPayment;
    var flow := TreasuryFlow(cfg.treasury);
    if Dispatch(cfg, s, now, call).Ok? {
      match call
      case Pay(who, sub, amount) =>
        MoveConserves(s, who, cfg.treasury, amount, KeepAlive);
        TotalAppend(flow, s.events, RepaymentApplied(s.lending.activeLoan[who], amount));
      case Approve(id) =>
        var loan := s.lending.loans[id];
        MoveConserves(s, cfg.treasury, loan.borrower, loan.amount, KeepAlive);
        TotalAppend(flow, s.events, LoanApproved(id, loan.amount));
      case _ =>
    }
  }

  lemma TreasuryCallKeepsDoubleEntry(cfg: Config, s: Storage, opening: int, now: nat, call: Call)
    requires Keyless(cfg, call) && s.ledger.Balanced() && DoubleEntry(cfg, s, opening)
    requires !TouchesCustody(call) && !TouchesAccounts(call) && !TouchesLending(call)
    ensures DoubleEntry(cfg, Step(cfg, s, now, call), opening)
  {
    Frame(cfg, s, now, call);
    hide Storage.Move, Ledger.Burn, Ledger.DepositCreating, Ledger.Balanced, Sum, Total, Held;
    var l, treasury := s.ledger, cfg.treasury;
    var flow := TreasuryFlow(cfg.treasury);
    if Dispatch(cfg, s, now, call).Ok? {
      match call
      case Fund(who, amount) =>
        MoveConserves(s, who, treasury, amount, KeepAlive);
        TotalAppend(flow, s.events, TreasuryFunded(amount));
      case RepayAdvance(who, amount) =>
        MoveConserves(s, who, treasury, amount, KeepAlive);
        TotalAppend(flow, s.events, AdvanceRepaid(amount));
      case Borrow(amount, granted) =>
        DepositConserves(l, treasury, amount);
        TotalAppend(flow, s.events, WholesaleBorrowed(amount));
      case RepayCentral(amount, accepted) =>
        BurnConserves(l, treasury, amount);
        TotalAppend(flow, s.events, WholesaleRepaid(amount));
      case Foreign(from, to, amount) =>
        MoveConserves(s, from, to, amount, AllowDeath);
        TotalAppend(flow, s.events, ForeignTransfer(from, to, amount));
      case _ =>
    }
  }

  // ================================================================ issuance

  /** This pallet never issues: issuance moves only with wholesale credit. */
  ghost predicate NeverIssues(s: Storage, base: nat) {
    s.ledger.Balanced() && s.ledger.issuance == base + Total(Wholesale, s.events)
  }

  lemma WholesaleTotal(cfg: Config, s: Storage, now: nat, call: Call)
    ensures Total(Wholesale, Step(cfg, s, now, call).events)
            == Total(Wholesale, s.events) + Minted(Dispatch(cfg, s, now, call).Ok?, call)
  {
    if Dispatch(cfg, s, now, call).Ok? && call.Borrow? {
      hide Ledger.DepositCreating, Ledger.Lands;
      TotalAppend(Wholesale, s.events, WholesaleBorrowed(call.amount));
    } else if Dispatch(cfg, s, now, call).Ok? && call.RepayCentral? {
      hide Ledger.Burn;
      TotalAppend(Wholesale, s.events, WholesaleRepaid(call.amount));
    } else {
      EventFrame(cfg, s, now, call);
      assert Dispatch(cfg, s, now, call).Err? ==> Step(cfg, s, now, call) == s;
      TotalStep(Wholesale, s, Step(cfg, s, now, call));
      hide Total, Dispatch, Step;
    }
  }

  function Minted(ok: bool, call: Call): int {
    if !ok then 0 else if call.Borrow? then call.amount else if call.RepayCentral? then 0 - call.amount else 0
  }

  lemma StepNeverIssues(cfg: Config, s: Storage, base: nat, now: nat, call: Call)
    requires NeverIssues(s, base)
    ensures NeverIssues(Step(cfg, s, now, call), base)
  {
    LedgerFrame(cfg, s, now, call);
    WholesaleTotal(cfg, s, now, call);
    hide Step, Dispatch, Minted;
  }

  /** From one balanced ledger to another, with so much more issued. */
  ghost predicate Issues(s: Storage, t: Storage, minted: int) {
    s.ledger.Balanced() ==> t.ledger.Balanced() && t.ledger.issuance == s.ledger.issuance + minted
  }

  lemma LedgerFrame(cfg: Config, s: Storage, now: nat, call: Call)
    ensures Issues(s, Step(cfg, s, now, call), Minted(Dispatch(cfg, s, now, call).Ok?, call))
  {
    hide Step, Dispatch, Issues;
    if EscrowCall(call) {
      EscrowLedger(cfg, s, now, call);
    } else if TouchesCustody(call) {
      CustodyLedger(cfg, s, now, call);
    } else if TouchesAccounts(call) || TouchesLending(call) {
      RecordsLedger(cfg, s, now, call);
    } else {
      TreasuryLedger(cfg, s, now, call);
    }
  }

  lemma EscrowLedger(cfg: Config, s: Storage, now: nat, call: Call)
    requires EscrowCall(call)
    ensures Issues(s, Step(cfg, s, now, call), Minted(Dispatch(cfg, s, now, call).Ok?, call))
  {
    hide Storage.Move, Ledger.Balanced;
    if Dispatch(cfg, s, now, call).Ok? {
      match call
      case Escrowed(who, _, amount, _) => MoveConserves(s, who, cfg.treasury, amount, AllowDeath);
      case Release(_, id) =>
        MoveConserves(s, cfg.treasury, s.custody.escrows[id].counterparty, s.custody.escrows[id].amount, AllowDeath);
      case Refund(_, id) =>
        MoveConserves(s, cfg.treasury, s.custody.escrows[id].depositor, s.custody.escrows[id].amount, AllowDeath);
    }
  }

  lemma CustodyLedger(cfg: Config, s: Storage, now: nat, call: Call)
    requires TouchesCustody(call) && !EscrowCall(call)
    ensures Issues(s, Step(cfg, s, now, call), Minted(Dispatch(cfg, s, now, call).Ok?, call))
  {
    hide InterestOn, Storage.Move, Ledger.Balanced;
    if Dispatch(cfg, s, now, call).Ok? {
      match call
      case OpenDeposit(who, amount, _, _) => MoveConserves(s, who, cfg.treasury, amount, AllowDeath);
      case Claim(who, id) =>
        var d := s.custody.deposits[id];
        MoveConserves(s, cfg.treasury, who, d.amount + InterestOn(d.amount, d.rateBps, d.openedAt, d.maturity), AllowDeath);
      case Lock(who, amount) => MoveConserves(s, who, cfg.treasury, amount, KeepAlive);
      case Unlock(who, amount, _, _) => MoveConserves(s, cfg.treasury, who, amount, KeepAlive);
      case Advance(who, amount, _, _) => MoveConserves(s, cfg.treasury, who, amount, KeepAlive);
    }
  }

  lemma RecordsLedger(cfg: Config, s: Storage, now: nat, call: Call)
    requires TouchesAccounts(call) || TouchesLending(call)
    ensures Issues(s, Step(cfg, s, now, call), Minted(Dispatch(cfg, s, now, call).Ok?, call))
  {
    hide Storage.Move, Ledger.Balanced, AfterPayment, DropSubAccount;
    if Dispatch(cfg, s, now, call).Ok? {
      match call
      case Withdraw(who, sub, amount) => MoveConserves(s, sub, who, amount, AllowDeath);
      case Pay(who, _, amount) => MoveConserves(s, who, cfg.treasury, amount, KeepAlive);
      case Approve(id) =>
        MoveConserves(s, cfg.treasury, s.lending.loans[id].borrower, s.lending.loans[id].amount, KeepAlive);
      case _ =>
    }
  }

  lemma TreasuryLedger(cfg: Config, s: Storage, now: nat, call: Call)
    requires !TouchesCustody(call) && !TouchesAccounts(call) && !TouchesLending(call)
    ensures Issues(s, Step(cfg, s, now, call), Minted(Dispatch(cfg, s, now, call).Ok?, call))
  {
    hide Storage.Move, Ledger.Burn, Ledger.DepositCreating, Ledger.Lands, Ledger.Balanced;
    if s.ledger.Balanced() && Dispatch(cfg, s, now, call).Ok? {
      match call
      case Fund(who, amount) => MoveConserves(s, who, cfg.treasury, amount, KeepAlive);
      case RepayAdvance(who, amount) => MoveConserves(s, who, cfg.treasury, amount, KeepAlive);
      case Borrow(amount, _) => DepositConserves(s.ledger, cfg.treasury, amount);
      case RepayCentral(amount, _) => BurnConserves(s.ledger, cfg.treasury, amount);
      case Foreign(from, to, amount) => MoveConserves(s, from, to, amount, AllowDeath);
      case _ =>
    }
  }

  // ================================================================ the whole run

  ghost predicate TreasurySound(cfg: Config, s: Storage, base: nat, opening: int) {
    && LoansSound(s.lending) && Strangers(cfg, s)
    && NeverIssues(s, base) && DoubleEntry(cfg, s, opening)
  }

  lemma StepKeepsTreasurySound(cfg: Config, s: Storage, base: nat, opening: int, now: nat, call: Call)
    requires TreasurySound(cfg, s, base, opening) && Keyless(cfg, call)
    ensures TreasurySound(cfg, Step(cfg, s, now, call), base, opening)
  {
    StepKeepsLoansSound(cfg, s, now, call);
    StepKeepsCustodyAvoids(cfg, s, now, call);
    StepKeepsLendingAvoids(cfg, s, now, call);
    StepKeepsAccountsAvoid(cfg, s, now, call);
    StepNeverIssues(cfg, s, base, now, call);
    if EscrowCall(call) {
      EscrowCallKeepsDoubleEntry(cfg, s, opening, now, call);
    } else if CardCall(call) {
      CardCallKeepsDoubleEntry(cfg, s, opening, now, call);
    } else if TouchesCustody(call) {
      DepositCallKeepsDoubleEntry(cfg, s, opening, now, call);
    } else if TouchesAccounts(call) {
      AccountsCallKeepsDoubleEntry(cfg, s, opening, now, call);
    } else if TouchesLending(call) {
      LendingCallKeepsDoubleEntry(cfg, s, opening, now, call);
    } else {
      TreasuryCallKeepsDoubleEntry(cfg, s, opening, now, call);
    }
    hide Step, LoansSound, NeverIssues, DoubleEntry;
  }

  lemma {:induction false} TreasuryKeepsDoubleEntry(cfg: Config, s: Storage, base: nat, opening: int, calls: seq<Timed>)
    requires TreasurySound(cfg, s, base, opening)
    requires forall i :: 0 <= i < |calls| ==> Keyless(cfg, calls[i].call)
    ensures TreasurySound(cfg, Run(cfg, s, calls), base, opening)
    decreases |calls|
  {
    if calls != [] {
      StepKeepsTreasurySound(cfg, s, base, opening, calls[0].now, calls[0].call);
      hide TreasurySound, Step, Keyless;
      TreasuryKeepsDoubleEntry(cfg, Step(cfg, s, calls[0].now, calls[0].call), base, opening, calls[1..]);
    }
  }

  lemma FreshTreasury(cfg: Config, ledger: Ledger)
    requires ledger.Balanced()
    ensures TreasurySound(cfg, Fresh(ledger), ledger.issuance, ledger.Free(cfg.treasury))
    ensures Once(Fresh(ledger).custody, []) && LoanTrail(Fresh(ledger).lending, [])
  {}

  // ================================================================ settled at most once

  /** The settlements reported for an escrow are exactly what its stored status says; likewise
      claims of deposits and signed payouts of nonces. */
  ghost predicate EscrowsOnce(c: Custody, events: seq<Event>) {
    forall id :: Total(Settlements(id), events) == Settled(c, id)
  }

  function Settled(c: Custody, id: nat): int {
    if id in c.escrows && c.escrows[id].status != EscrowStatus.Locked then 1 else 0
  }

  ghost predicate DepositsOnce(c: Custody, events: seq<Event>) {
    forall id :: Total(Claims(id), events) == PaidOut(c, id)
  }

  function PaidOut(c: Custody, id: nat): int { if id in c.deposits && c.deposits[id].status == Claimed then 1 else 0 }

  ghost predicate NoncesOnce(c: Custody, events: seq<Event>) {
    forall n :: Total(Payouts(n), events) == Used(c, n)
  }

  function Used(c: Custody, n: nat): int { if n in c.usedNonces then 1 else 0 }

  ghost predicate NumberedBelow(c: Custody) {
    && (forall id :: id in c.escrows ==> id < c.nextEscrow)
    && (forall id :: id in c.deposits ==> id < c.nextDeposit)
  }

  ghost predicate Once(c: Custody, events: seq<Event>) {
    EscrowsOnce(c, events) && DepositsOnce(c, events) && NoncesOnce(c, events) && NumberedBelow(c)
  }

  lemma StepKeepsEscrowsOnce(cfg: Config, s: Storage, now: nat, call: Call)
    requires EscrowsOnce(s.custody, s.events) && NumberedBelow(s.custody)
    ensures EscrowsOnce(Step(cfg, s, now, call).custody, Step(cfg, s, now, call).events)
  {
    var t := Step(cfg, s, now, call);
    forall id ensures Total(Settlements(id), t.events) == Settled(t.custody, id) {
      SettlementStep(cfg, s, now, call, id);
    }
    hide Step, Total, NumberedBelow;
  }

  /** An escrow leaves `Locked` in the call that reports its settlement, and only then. */
  lemma SettlementStep(cfg: Config, s: Storage, now: nat, call: Call, id: nat)
    requires NumberedBelow(s.custody)
    ensures var t := Step(cfg, s, now, call);
            Total(Settlements(id), t.events) - Total(Settlements(id), s.events) == Settled(t.custody, id) - Settled(s.custody, id)
  {
    hide Total, Step, Dispatch;
    var t := Step(cfg, s, now, call);
    EventFrame(cfg, s, now, call);
    TotalStep(Settlements(id), s, t);
    if EscrowCall(call) {
      EscrowCallSettles(cfg, s, now, call, id);
    } else {
      CustodyFrame(cfg, s, now, call);
    }
  }

  lemma EscrowCallSettles(cfg: Config, s: Storage, now: nat, call: Call, id: nat)
    requires NumberedBelow(s.custody) && EscrowCall(call)
    ensures var t := Step(cfg, s, now, call);
            Settled(t.custody, id) - Settled(s.custody, id)
            == if |t.events| > |s.events| then Reading(Settlements(id), t.events[|s.events|]) else 0
  {
    hide Storage.Move;
  }

  lemma StepKeepsDepositsOnce(cfg: Config, s: Storage, now: nat, call: Call)
    requires DepositsOnce(s.custody, s.events) && NumberedBelow(s.custody)
    ensures DepositsOnce(Step(cfg, s, now, call).custody, Step(cfg, s, now, call).events)
  {
    var t := Step(cfg, s, now, call);
    forall id ensures Total(Claims(id), t.events) == PaidOut(t.custody, id) {
      ClaimStep(cfg, s, now, call, id);
    }
    hide Step, Total, NumberedBelow;
  }

  /** A deposit becomes `Claimed` in the call that reports its claim, and only then. */
  lemma ClaimStep(cfg: Config, s: Storage, now: nat, call: Call, id: nat)
    requires NumberedBelow(s.custody)
    ensures var t := Step(cfg, s, now, call);
            Total(Claims(id), t.events) - Total(Claims(id), s.events) == PaidOut(t.custody, id) - PaidOut(s.custody, id)
  {
    var t := Step(cfg, s, now, call);
    EventFrame(cfg, s, now, call);
    TotalStep(Claims(id), s, t);
    hide Total;
    if call.OpenDeposit? || call.Claim? {
      hide Storage.Move, InterestOn;
    } else {
      CustodyFrame(cfg, s, now, call);
      hide Dispatch, Step;
    }
  }

  lemma StepKeepsNoncesOnce(cfg: Config, s: Storage, now: nat, call: Call)
    requires NoncesOnce(s.custody, s.events)
    ensures NoncesOnce(Step(cfg, s, now, call).custody, Step(cfg, s, now, call).events)
  {
    var t := Step(cfg, s, now, call);
    forall n ensures Total(Payouts(n), t.events) == Used(t.custody, n) {
      PayoutStep(cfg, s, now, call, n);
    }
    hide Step, Total;
  }

  /** A nonce is used up in the call that reports its payout, and only then. */
  lemma PayoutStep(cfg: Config, s: Storage, now: nat, call: Call, n: nat)
    ensures var t := Step(cfg, s, now, call);
            Total(Payouts(n), t.events) - Total(Payouts(n), s.events) == Used(t.custody, n) - Used(s.custody, n)
  {
    var t := Step(cfg, s, now, call);
    EventFrame(cfg, s, now, call);
    TotalStep(Payouts(n), s, t);
    hide Total;
    if call.Unlock? || call.Advance? {
      hide Storage.Move;
    } else {
      CustodyFrame(cfg, s, now, call);
      hide Dispatch, Step;
    }
  }

  lemma CustodyFrame(cfg: Config, s: Storage, now: nat, call: Call)
    ensures var c, d := s.custody, Step(cfg, s, now, call).custody;
            && (!EscrowCall(call) ==> d.escrows == c.escrows && d.nextEscrow == c.nextEscrow)
            && (!call.OpenDeposit? && !call.Claim? ==> d.deposits == c.deposits && d.nextDeposit == c.nextDeposit)
            && (!call.Unlock? && !call.Advance? ==> d.usedNonces == c.usedNonces)
            && (NumberedBelow(c) ==> NumberedBelow(d))
  {
    hide InterestOn, Storage.Move;
    if !TouchesCustody(call) {
      Frame(cfg, s, now, call);
      hide Dispatch;
    }
  }

  /** Over any run every escrow is settled at most once, every deposit claimed at most once, and
      every nonce authorises at most one payout across both signed calls. */
  lemma {:induction false} NothingIsPaidTwice(cfg: Config, s: Storage, calls: seq<Timed>)
    requires Once(s.custody, s.events)
    ensures var t := Run(cfg, s, calls);
            && Once(t.custody, t.events)
            && forall id :: Total(Settlements(id), t.events) <= 1 && Total(Claims(id), t.events) <= 1
                            && Total(Payouts(id), t.events) <= 1
    decreases |calls|
  {
    if calls != [] {
      var At(now, call) := calls[0];
      StepKeepsEscrowsOnce(cfg, s, now, call);
      StepKeepsDepositsOnce(cfg, s, now, call);
      StepKeepsNoncesOnce(cfg, s, now, call);
      CustodyFrame(cfg, s, now, call);
      hide Step, EscrowsOnce, DepositsOnce, NoncesOnce, NumberedBelow;
      NothingIsPaidTwice(cfg, Step(cfg, s, now, call), calls[1..]);
    }
  }

  // ================================================================ who is paid

  /** A settled escrow pays its amount to one party, at the word of the other. */
  lemma EscrowPaysOneParty(cfg: Config, s: Storage, caller: Account, id: nat)
    requires CustodyAvoids(cfg.treasury, s.custody)
    ensures ReleaseEscrow(cfg, s, caller, id).Ok? ==>
              var t, e := ReleaseEscrow(cfg, s, caller, id).value, s.custody.escrows[id];
              && caller == e.depositor && t.custody.escrows[id].status == Released
              && t.ledger.Free(e.counterparty) == s.ledger.Free(e.counterparty) + e.amount
              && t.ledger.Free(cfg.treasury) == s.ledger.Free(cfg.treasury) - e.amount
    ensures RefundEscrow(cfg, s, caller, id).Ok? ==>
              var t, e := RefundEscrow(cfg, s, caller, id).value, s.custody.escrows[id];
              && caller == e.counterparty && t.custody.escrows[id].status == Refunded
              && t.ledger.Free(e.depositor) == s.ledger.Free(e.depositor) + e.amount
              && t.ledger.Free(cfg.treasury) == s.ledger.Free(cfg.treasury) - e.amount
  {
    hide Storage.Move;
    if id in s.custody.escrows {
      var e := s.custody.escrows[id];
      if ReleaseEscrow(cfg, s, caller, id).Ok? {
        MoveConserves(s, cfg.treasury, e.counterparty, e.amount, AllowDeath);
      }
      if RefundEscrow(cfg, s, caller, id).Ok? {
        MoveConserves(s, cfg.treasury, e.depositor, e.amount, AllowDeath);
      }
    }
  }

  /** Interest never exceeds the principal, and a full year at the bank's rate earns five per cent
      to the nearest planck. */
  lemma DepositInterest(amount: nat, rateBps: nat, openedAt: nat, maturity: nat)
    ensures InterestOn(amount, rateBps, openedAt, maturity) <= amount
    ensures rateBps == ANNUAL_RATE_BPS && maturity == openedAt + BLOCKS_PER_YEAR ==>
              var i := InterestOn(amount, rateBps, openedAt, maturity); 20 * i <= amount + 9 < 20 * i + 20
  {
    var parts := PartsPerBillion(rateBps * SatSub(maturity, openedAt), 10_000 * BLOCKS_PER_YEAR);
    PartsAtMostOne(rateBps * SatSub(maturity, openedAt), 10_000 * BLOCKS_PER_YEAR);
    MulMonotone(parts, 1_000_000_000, amount, amount);
  }

  lemma PartsAtMostOne(n: nat, d: nat)
    requires d > 0
    ensures PartsPerBillion(n, d) <= 1_000_000_000
  {
    if n < d {
      DivMonotone(n * 1_000_000_000, 1_000_000_000 * d, d);
      DivisionUnique(1_000_000_000 * d, d, 1_000_000_000, 0);
    }
  }

  /** A claim pays a matured deposit's owner principal and interest, in full. */
  lemma ClaimExact(cfg: Config, s: Storage, now: nat, caller: Account, id: nat)
    requires CustodyAvoids(cfg.treasury, s.custody) && ClaimTimeDeposit(cfg, s, now, caller, id).Ok?
    ensures var t, d := ClaimTimeDeposit(cfg, s, now, caller, id).value, s.custody.deposits[id];
            && caller == d.depositor && now >= d.maturity && t.custody.deposits[id].status == Claimed
            && t.ledger.Free(caller) == s.ledger.Free(caller) + d.amount + InterestOn(d.amount, d.rateBps, d.openedAt, d.maturity)
  {
    var d := s.custody.deposits[id];
    hide InterestOn, Storage.Move;
    MoveConserves(s, cfg.treasury, caller, d.amount + InterestOn(d.amount, d.rateBps, d.openedAt, d.maturity), AllowDeath);
  }

  // ================================================================ what each loan paid out and took in

  /** A Pending loan has moved no money; an Active one was disbursed once and lacks exactly its
      outstanding balance; a closed one was either never disbursed or fully paid back. */
  ghost predicate LoanTrailOf(l: Loan, disbursed: int, collected: int) {
    match l.status
    case Pending => disbursed == 0 && collected == 0
    case Active => disbursed == l.amount && collected == l.amount - l.outstanding
    case Repaid => (disbursed == 0 && collected == 0) || (disbursed == l.amount && collected >= l.amount)
    case Defaulted => true
  }

  ghost predicate TrailAt(book: Lending, events: seq<Event>, id: nat) {
    if id in book.loans then LoanTrailOf(book.loans[id], Total(Disbursed(id), events), Total(Collected(id), events))
    else Total(Disbursed(id), events) == 0 && Total(Collected(id), events) == 0
  }

  ghost predicate LoanTrail(book: Lending, events: seq<Event>) { forall id :: TrailAt(book, events, id) }

  /** One loan moves on with the event that names it. */
  lemma LoanTrailUpdate(book: Lending, after: Lending, events: seq<Event>, e: Event, id: nat, l: Loan)
    requires LoanTrail(book, events) && id in book.loans && after.loans == book.loans[id := l]
    requires (e.LoanApproved? || e.RepaymentApplied?) && e.id == id
    requires LoanTrailOf(l, Total(Disbursed(id), events) + Reading(Disbursed(id), e),
                            Total(Collected(id), events) + Reading(Collected(id), e))
    ensures LoanTrail(after, events + [e])
  {
    forall i ensures TrailAt(after, events + [e], i) {
      assert TrailAt(book, events, i);
      TotalAppend(Disbursed(i), events, e);
      TotalAppend(Collected(i), events, e);
      hide Total, LoanTrailOf;
    }
    hide TrailAt;
  }

  lemma ApproveKeepsLoanTrail(cfg: Config, s: Storage, id: nat)
    requires LoanTrail(s.lending, s.events) && ApproveLoan(cfg, s, id).Ok?
    requires DebtSound(s.lending.loans[id])
    ensures LoanTrail(ApproveLoan(cfg, s, id).value.lending, ApproveLoan(cfg, s, id).value.events)
  {
    hide Storage.Move, Total;
    var loan := s.lending.loans[id];
    assert TrailAt(s.lending, s.events, id);
    LoanTrailUpdate(s.lending, ApproveLoan(cfg, s, id).value.lending, s.events, LoanApproved(id, loan.amount),
                    id, loan.(status := Active));
  }

  lemma PayKeepsLoanTrail(cfg: Config, s: Storage, master: Account, sub: Account, amount: nat)
    requires LoanTrail(s.lending, s.events) && PayCredit(cfg, s, master, sub, amount).Ok?
    requires DebtSound(s.lending.loans[s.lending.activeLoan[master]])
    ensures var t := PayCredit(cfg, s, master, sub, amount).value; LoanTrail(t.lending, t.events)
  {
    hide Storage.Move, Total;
    var id := s.lending.activeLoan[master];
    var loan := s.lending.loans[id];
    var left := SatSub(loan.outstanding, amount);
    assert TrailAt(s.lending, s.events, id);
    LoanTrailUpdate(s.lending, AfterPayment(s.lending, master, id, left), s.events, RepaymentApplied(id, amount),
                    id, loan.(outstanding := left, status := if left == 0 then Repaid else Active));
  }

  lemma OtherCallKeepsLoanTrail(cfg: Config, s: Storage, now: nat, call: Call)
    requires LoanTrail(s.lending, s.events) && !TouchesLending(call)
    ensures LoanTrail(Step(cfg, s, now, call).lending, Step(cfg, s, now, call).events)
  {
    var t := Step(cfg, s, now, call);
    EventFrame(cfg, s, now, call);
    Frame(cfg, s, now, call);
    hide Step, Total;
    forall id ensures TrailAt(t.lending, t.events, id) {
      assert TrailAt(s.lending, s.events, id);
      TotalStep(Disbursed(id), s, t);
      TotalStep(Collected(id), s, t);
    }
  }

  /** A request adds a loan that moved no money; a cancelled one never moved any. */
  lemma SilentCallKeepsLoanTrail(cfg: Config, s: Storage, now: nat, call: Call)
    requires LoansSound(s.lending) && LoanTrail(s.lending, s.events) && (call.Request? || call.Cancel?)
    ensures LoanTrail(Step(cfg, s, now, call).lending, Step(cfg, s, now, call).events)
  {
    hide Total, Secured, Indexed;
    var t := Step(cfg, s, now, call);
    forall id ensures TrailAt(t.lending, t.events, id) {
      assert TrailAt(s.lending, s.events, id);
    }
  }

  lemma StepKeepsLoanTrail(cfg: Config, s: Storage, now: nat, call: Call)
    requires LoansSound(s.lending) && LoanTrail(s.lending, s.events)
    ensures LoanTrail(Step(cfg, s, now, call).lending, Step(cfg, s, now, call).events)
  {
    hide Storage.Move, Total, Secured, Indexed;
    if !TouchesLending(call) {
      OtherCallKeepsLoanTrail(cfg, s, now, call);
      hide Step;
    } else if Dispatch(cfg, s, now, call).Ok? {
      match call
      case Approve(id) =>
        ApproveKeepsLoanTrail(cfg, s, id);
        hide LoanTrail, LoansSound;
      case Pay(who, sub, amount) =>
        PayKeepsLoanTrail(cfg, s, who, sub, amount);
        hide LoanTrail, LoansSound;
      case _ => SilentCallKeepsLoanTrail(cfg, s, now, call);
    }
  }

  lemma {:induction false} LoansKeepTheirTrail(cfg: Config, s: Storage, calls: seq<Timed>)
    requires LoansSound(s.lending) && LoanTrail(s.lending, s.events)
    ensures var t := Run(cfg, s, calls); LoansSound(t.lending) && LoanTrail(t.lending, t.events)
    decreases |calls|
  {
    if calls != [] {
      StepKeepsLoansSound(cfg, s, calls[0].now, calls[0].call);
      StepKeepsLoanTrail(cfg, s, calls[0].now, calls[0].call);
      hide Step, LoansSound, LoanTrail;
      LoansKeepTheirTrail(cfg, Step(cfg, s, calls[0].now, calls[0].call), calls[1..]);
    }
  }

  // ================================================================ every run at once

  /** From an empty bank, over every run in which address derivation has no collisions and the treasury
      signs nothing. */
  lemma {:induction false} EveryRunFromEmpty(cfg: Config, ledger: Ledger, calls: seq<Timed>)
    requires ledger.Balanced() && Injective(cfg)
    requires forall i :: 0 <= i < |calls| ==> Keyless(cfg, calls[i].call)
    ensures var t := Run(cfg, Fresh(ledger), calls);
            && Paired(cfg, t.accounts)
            && LoansSound(t.lending)
            && t.ledger.issuance == ledger.issuance + Total(Wholesale, t.events)
            && t.ledger.Free(cfg.treasury) == ledger.Free(cfg.treasury)
                                              + Total(TreasuryFlow(cfg.treasury), t.events) + Held(t.custody)
            && Once(t.custody, t.events)
            && LoanTrail(t.lending, t.events)
  {
    FreshRecords(cfg, ledger);
    FreshTreasury(cfg, ledger);
    SubAccountViewsStayPaired(cfg, Fresh(ledger), calls);
    TreasuryKeepsDoubleEntry(cfg, Fresh(ledger), ledger.issuance, ledger.Free(cfg.treasury), calls);
    NothingIsPaidTwice(cfg, Fresh(ledger), calls);
    LoansKeepTheirTrail(cfg, Fresh(ledger), calls);
    hide Run, Held, Total, Once, LoanTrail, LoansSound, Paired, Keyless;
  }
}
