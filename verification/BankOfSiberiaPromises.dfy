/** What pallet-bank-of-siberia promises its callers: who pays whom in every call, which calls are
    accepted, and that what was asked for is what later calls act on. */
module BankOfSiberiaPromises {
  import opened Prelude
  import opened Currency
  import opened Sums
  import opened Arithmetic
  import opened BankOfSiberia
  import opened BankOfSiberiaRecords
  import opened BankOfSiberiaTreasury

  // ================================================================ who pays whom

  /** The money a call moves: from one account to another, out of nothing, or into nothing. */
  datatype Flow = Still | Paid(from: Account, to: Account, amount: nat) | Minted(to: Account, amount: nat) | Burned(from: Account, amount: nat)
  {
    function Into(a: Account): nat { if (Paid? || Minted?) && to == a then amount else 0 }

    function OutOf(a: Account): nat { if (Paid? || Burned?) && from == a then amount else 0 }
  }

  /** Principal and interest of a deposit. */
  function PayoutOf(d: Deposit): nat { d.amount + InterestOn(d.amount, d.rateBps, d.openedAt, d.maturity) }

  function FlowOf(cfg: Config, s: Storage, call: Call): Flow {
    match call
    case Withdraw(who, sub, amount) => Paid(sub, who, amount)
    case Pay(who, _, amount) => Paid(who, cfg.treasury, amount)
    case Approve(id) =>
      if id in s.lending.loans then Paid(cfg.treasury, s.lending.loans[id].borrower, s.lending.loans[id].amount) else Still
    case Fund(who, amount) => Paid(who, cfg.treasury, amount)
    case Escrowed(who, _, amount, _) => Paid(who, cfg.treasury, amount)
    case Release(_, id) =>
      if id in s.custody.escrows then Paid(cfg.treasury, s.custody.escrows[id].counterparty, s.custody.escrows[id].amount) else Still
    case Refund(_, id) =>
      if id in s.custody.escrows then Paid(cfg.treasury, s.custody.escrows[id].depositor, s.custody.escrows[id].amount) else Still
    case OpenDeposit(who, amount, _, _) => Paid(who, cfg.treasury, amount)
    case Claim(who, id) => if id in s.custody.deposits then Paid(cfg.treasury, who, PayoutOf(s.custody.deposits[id])) else Still
    case Lock(who, amount) => Paid(who, cfg.treasury, amount)
    case Unlock(who, amount, _, _) => Paid(cfg.treasury, who, amount)
    case Advance(who, amount, _, _) => Paid(cfg.treasury, who, amount)
    case RepayAdvance(who, amount) => Paid(who, cfg.treasury, amount)
    case Borrow(amount, _) => Minted(cfg.treasury, amount)
    case RepayCentral(amount, _) => Burned(cfg.treasury, amount)
    case Foreign(from, to, amount) => Paid(from, to, amount)
    case _ => Still
  }

  /** Every balance moves by what the flow brings it and takes from it, and by nothing else. */
  ghost predicate Follows(l: Ledger, r: Ledger, f: Flow) {
    forall a :: r.Free(a) == l.Free(a) + f.Into(a) - f.OutOf(a)
  }

  lemma MoveFollows(s: Storage, from: Account, to: Account, amount: nat, e: Existence)
    requires s.Move(from, to, amount, e).Some?
    ensures Follows(s.ledger, s.Move(from, to, amount, e).value, Paid(from, to, amount))
  {
    MoveConserves(s, from, to, amount, e);
    hide Storage.Move, Ledger.Free, Ledger.Balanced;
  }

  lemma RecordsCallFollows(cfg: Config, s: Storage, now: nat, call: Call)
    requires (TouchesAccounts(call) || TouchesLending(call)) && Dispatch(cfg, s, now, call).Ok?
    ensures Follows(s.ledger, Step(cfg, s, now, call).ledger, FlowOf(cfg, s, call))
  {
    if call.Withdraw? { MoveFollows(s, call.sub, call.who, call.amount, AllowDeath); }
    if call.Pay? { MoveIfAccepted(s, call.who, cfg.treasury, call.amount, KeepAlive); }
    if call.Approve? {
      var loan := s.lending.loans[call.id];
      MoveIfAccepted(s, cfg.treasury, loan.borrower, loan.amount, KeepAlive);
    }
    hide Storage.Move, AfterPayment, DropSubAccount;
    if !call.Withdraw? && !call.Pay? && !call.Approve? { StillFollows(s.ledger); }
    hide Follows;
  }

  lemma MoveIfAccepted(s: Storage, from: Account, to: Account, amount: nat, e: Existence)
    ensures s.Move(from, to, amount, e).Some? ==> Follows(s.ledger, s.Move(from, to, amount, e).value, Paid(from, to, amount))
  {
    if s.Move(from, to, amount, e).Some? { MoveFollows(s, from, to, amount, e); }
  }

  lemma StillFollows(l: Ledger)
    ensures Follows(l, l, Still)
  {}

  lemma EscrowCallFollows(cfg: Config, s: Storage, now: nat, call: Call)
    requires EscrowCall(call) && Dispatch(cfg, s, now, call).Ok?
    ensures Follows(s.ledger, Step(cfg, s, now, call).ledger, FlowOf(cfg, s, call))
  {
    hide Storage.Move, Follows;
    match call
    case Escrowed(who, _, amount, _) => MoveIfAccepted(s, who, cfg.treasury, amount, AllowDeath);
    case Release(_, id) => MoveIfAccepted(s, cfg.treasury, s.custody.escrows[id].counterparty, s.custody.escrows[id].amount, AllowDeath);
    case Refund(_, id) => MoveIfAccepted(s, cfg.treasury, s.custody.escrows[id].depositor, s.custody.escrows[id].amount, AllowDeath);
  }

  lemma CustodyCallFollows(cfg: Config, s: Storage, now: nat, call: Call)
    requires TouchesCustody(call) && !EscrowCall(call) && Dispatch(cfg, s, now, call).Ok?
    ensures Follows(s.ledger, Step(cfg, s, now, call).ledger, FlowOf(cfg, s, call))
  {
    hide InterestOn, Storage.Move, Follows;
    match call
    case OpenDeposit(who, amount, _, _) => MoveIfAccepted(s, who, cfg.treasury, amount, AllowDeath);
    case Claim(who, id) => MoveIfAccepted(s, cfg.treasury, who, PayoutOf(s.custody.deposits[id]), AllowDeath);
    case Lock(who, amount) => MoveIfAccepted(s, who, cfg.treasury, amount, KeepAlive);
    case Unlock(who, amount, _, _) => MoveIfAccepted(s, cfg.treasury, who, amount, KeepAlive);
    case Advance(who, amount, _, _) => MoveIfAccepted(s, cfg.treasury, who, amount, KeepAlive);
  }

  lemma TreasuryCallFollows(cfg: Config, s: Storage, now: nat, call: Call)
    requires !TouchesAccounts(call) && !TouchesLending(call) && !TouchesCustody(call)
    requires s.ledger.Balanced() && Dispatch(cfg, s, now, call).Ok?
    ensures Follows(s.ledger, Step(cfg, s, now, call).ledger, FlowOf(cfg, s, call))
  {
    hide Storage.Move, Ledger.Burn, Ledger.DepositCreating, Ledger.Balanced, Ledger.Free;
    match call
    case Fund(who, amount) => MoveIfAccepted(s, who, cfg.treasury, amount, KeepAlive);
    case RepayAdvance(who, amount) => MoveIfAccepted(s, who, cfg.treasury, amount, KeepAlive);
    case Borrow(amount, _) => DepositConserves(s.ledger, cfg.treasury, amount);
    case RepayCentral(amount, _) => BurnConserves(s.ledger, cfg.treasury, amount);
    case Foreign(from, to, amount) => MoveIfAccepted(s, from, to, amount, AllowDeath);
    case _ =>
  }

  /** Every accepted call moves exactly the money its flow names, between exactly the accounts it names;
      a refused one moves none. */
  lemma MoneyFollowsTheCall(cfg: Config, s: Storage, now: nat, call: Call)
    requires s.ledger.Balanced()
    ensures Follows(s.ledger, Step(cfg, s, now, call).ledger, if Dispatch(cfg, s, now, call).Ok? then FlowOf(cfg, s, call) else Still)
  {
    if Dispatch(cfg, s, now, call).Err? {
      StillFollows(s.ledger);
      hide Follows;
    } else if TouchesAccounts(call) || TouchesLending(call) {
      RecordsCallFollows(cfg, s, now, call);
    } else if EscrowCall(call) {
      EscrowCallFollows(cfg, s, now, call);
    } else if TouchesCustody(call) {
      CustodyCallFollows(cfg, s, now, call);
    } else {
      TreasuryCallFollows(cfg, s, now, call);
    }
    hide Dispatch, FlowOf, Follows, Ledger.Balanced;
  }

  // ================================================================ which calls are accepted

  /** A sub-account of the caller, of the type the call needs. */
  predicate Owns(s: Storage, who: Account, sub: Account, kind: AccountType) {
    (who, sub) in s.accounts.subAccounts && s.accounts.subAccounts[(who, sub)] == kind
  }

  predicate Signed(cfg: Config, s: Storage, who: Account, amount: nat, nonce: nat, signature: Signature) {
    nonce !in s.custody.usedNonces && s.serverKey.Some? && cfg.verify(s.serverKey.value, who, amount, nonce, signature)
  }

  /** What each call asks of the records, its transfer apart. */
  predicate Entitled(cfg: Config, s: Storage, now: nat, call: Call) {
    match call
    case OpenMaster(who, approved) => approved && who !in s.accounts.masters
    case OpenSub(who, kind) => who in s.accounts.masters && (who, cfg.derive(who, kind)) !in s.accounts.subAccounts
    case Withdraw(who, sub, amount) => Owns(s, who, sub, Savings) && amount > 0
    case Pay(who, sub, amount) => Owns(s, who, sub, CreditLine) && amount > 0 && who in s.lending.activeLoan
    case CloseSub(who, sub) => (who, sub) in s.accounts.subAccounts && s.ledger.Free(sub) == 0
    case Request(who, amount, _) => who in s.accounts.masters && amount > 0
    case Approve(id) =>
      && id in s.lending.loans && s.lending.loans[id].status == Pending && s.lending.loans[id].borrower !in s.lending.activeLoan
      && s.ledger.Free(cfg.treasury) >= s.lending.loans[id].amount
    case Cancel(who, id) => id in s.lending.loans && s.lending.loans[id].borrower == who && s.lending.loans[id].status == Pending
    case Fund(_, amount) => amount > 0
    case Escrowed(who, counterparty, amount, _) => who in s.accounts.masters && amount > 0 && who != counterparty
    case Release(who, id) =>
      id in s.custody.escrows && s.custody.escrows[id].depositor == who && s.custody.escrows[id].status == EscrowStatus.Locked
    case Refund(who, id) =>
      id in s.custody.escrows && s.custody.escrows[id].counterparty == who && s.custody.escrows[id].status == EscrowStatus.Locked
    case OpenDeposit(who, amount, duration, _) => who in s.accounts.masters && amount > 0 && duration > 0
    case Claim(who, id) =>
      && id in s.custody.deposits && s.custody.deposits[id].depositor == who
      && s.custody.deposits[id].status == DepositStatus.Open && s.custody.deposits[id].maturity <= now
      && s.ledger.Free(cfg.treasury) >= PayoutOf(s.custody.deposits[id])
    case SetServerKey(_) => true
    case Lock(_, amount) => amount > 0
    case Unlock(who, amount, nonce, signature) =>
      amount > 0 && Signed(cfg, s, who, amount, nonce, signature) && s.custody.CollateralOf(who) >= amount
    case Advance(who, amount, nonce, signature) => Signed(cfg, s, who, amount, nonce, signature)
    case RepayAdvance(_, amount) => amount > 0
    case Borrow(amount, granted) => granted
    case RepayCentral(_, accepted) => accepted
    case Foreign(_, _, _) => true
  }

  /** Deposits, refunds and withdrawals may empty an account; the other transfers keep it alive. */
  function ExistenceOf(call: Call): Existence {
    if call.Withdraw? || EscrowCall(call) || call.OpenDeposit? || call.Claim? || call.Foreign? then AllowDeath else KeepAlive
  }

  /** Whether the currency lets the money flow. */
  predicate Flows(s: Storage, f: Flow, e: Existence) {
    match f
    case Still => true
    case Paid(from, to, amount) => s.Move(from, to, amount, e).Some?
    case Minted(to, amount) => s.ledger.Lands(to, amount)
    case Burned(from, amount) => s.Burn(from, amount).Some?
  }

  lemma RecordsCallAccepted(cfg: Config, s: Storage, now: nat, call: Call)
    requires Paired(cfg, s.accounts) && LoansSound(s.lending) && (TouchesAccounts(call) || TouchesLending(call))
    ensures Dispatch(cfg, s, now, call).Ok? <==> Entitled(cfg, s, now, call) && Flows(s, FlowOf(cfg, s, call), ExistenceOf(call))
  {
    if call.Withdraw? || call.Pay? || call.CloseSub? { OwnedExactly(cfg, s, call.who, call.sub); }
    hide Paired, Storage.Move, AfterPayment, DropSubAccount, OwnedSubAccount, Secured;
  }

  lemma CustodyCallAccepted(cfg: Config, s: Storage, now: nat, call: Call)
    requires TouchesCustody(call)
    ensures Dispatch(cfg, s, now, call).Ok? <==> Entitled(cfg, s, now, call) && Flows(s, FlowOf(cfg, s, call), ExistenceOf(call))
  {
    hide InterestOn, Storage.Move;
  }

  lemma TreasuryCallAccepted(cfg: Config, s: Storage, now: nat, call: Call)
    requires !TouchesAccounts(call) && !TouchesLending(call) && !TouchesCustody(call)
    ensures Dispatch(cfg, s, now, call).Ok? <==> Entitled(cfg, s, now, call) && Flows(s, FlowOf(cfg, s, call), ExistenceOf(call))
  {
    hide Storage.Move, Storage.Burn, Ledger.DepositCreating, Ledger.Lands;
  }

  /** On sound records a call is accepted exactly when its caller is entitled to it and the currency
      lets its money flow. */
  lemma AcceptedExactly(cfg: Config, s: Storage, now: nat, call: Call)
    requires Paired(cfg, s.accounts) && LoansSound(s.lending)
    ensures Dispatch(cfg, s, now, call).Ok? <==> Entitled(cfg, s, now, call) && Flows(s, FlowOf(cfg, s, call), ExistenceOf(call))
  {
    hide Dispatch, Entitled, Flows, FlowOf, Paired, LoansSound;
    if TouchesAccounts(call) || TouchesLending(call) {
      RecordsCallAccepted(cfg, s, now, call);
    } else if TouchesCustody(call) {
      CustodyCallAccepted(cfg, s, now, call);
    } else {
      TreasuryCallAccepted(cfg, s, now, call);
    }
  }

  // ================================================================ accounts

  /** Opening a sub-account gives its master one of the type asked for, at its derived address, and
      changes no other. */
  lemma OpenSubRecords(cfg: Config, s: Storage, now: nat, who: Account, kind: AccountType)
    requires Paired(cfg, s.accounts) && Dispatch(cfg, s, now, OpenSub(who, kind)).Ok?
    ensures var t, x := Step(cfg, s, now, OpenSub(who, kind)), cfg.derive(who, kind);
            && Owns(t, who, x, kind) && OwnedSubAccount(t, who, x) == Ok(SubRecord(who, kind, now))
            && (forall m: Account, y: Account, k :: (m, y) != (who, x) ==> (Owns(t, m, y, k) <==> Owns(s, m, y, k)))
            && t.accounts.masters == s.accounts.masters
  {
    hide Paired;
  }

  /** Closing one, and drawing all of a savings account, takes that one away and no other. */
  lemma DroppedExactly(cfg: Config, s: Storage, now: nat, call: Call, m: Account, y: Account, k: AccountType)
    requires (call.Withdraw? || call.CloseSub?) && Dispatch(cfg, s, now, call).Ok?
    ensures Owns(Step(cfg, s, now, call), m, y, k)
            <==> Owns(s, m, y, k) && !((m, y) == (call.who, call.sub) && (call.Withdraw? ==> call.amount >= s.ledger.Free(y)))
  {
    hide Storage.Move;
  }

  /** An account has a master account in the end exactly when it had one, or opened one and was approved. */
  lemma {:induction false} MastersAreApproved(cfg: Config, s: Storage, calls: seq<Timed>, a: Account)
    ensures a in Run(cfg, s, calls).accounts.masters
            <==> a in s.accounts.masters || exists i :: 0 <= i < |calls| && calls[i].call == OpenMaster(a, true)
    decreases |calls|
  {
    if calls != [] {
      var now, call, rest := calls[0].now, calls[0].call, calls[1..];
      var t := Step(cfg, s, now, call);
      MasterStep(cfg, s, now, call, a);
      hide Step;
      MastersAreApproved(cfg, t, rest, a);
      assert (exists i :: 0 <= i < |calls| && calls[i].call == OpenMaster(a, true))
             <==> call == OpenMaster(a, true) || exists i :: 0 <= i < |rest| && rest[i].call == OpenMaster(a, true) by {
        if i :| 0 <= i < |calls| && calls[i].call == OpenMaster(a, true) {
          assert i > 0 ==> rest[i - 1].call == OpenMaster(a, true);
        }
        if i :| 0 <= i < |rest| && rest[i].call == OpenMaster(a, true) {
          assert calls[i + 1].call == OpenMaster(a, true);
        }
      }
    }
  }

  lemma MasterStep(cfg: Config, s: Storage, now: nat, call: Call, a: Account)
    ensures a in Step(cfg, s, now, call).accounts.masters <==> a in s.accounts.masters || call == OpenMaster(a, true)
  {
    if TouchesAccounts(call) {
      hide Storage.Move;
    } else {
      Frame(cfg, s, now, call);
      hide Dispatch, Step;
    }
  }
}
