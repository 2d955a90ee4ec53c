/** The dispatchables of pallet-bank-operator as they run: storage items are updated one by one,
    and a failing call leaves none of its writes behind. Each is proved equal to its
    specification in `BankOperator`. */
module BankOperatorPallet {
  import opened Prelude
  import opened Currency
  import opened Sums
  import opened Arithmetic
  import opened BankOperatorRuns
  import opened M = BankOperator

  class Pallet {
    const cfg: Config
    var collaterals: map<nat, Collateral>
    var nextCollateral: nat
    var credits: map<nat, Credit>
    var nextCredit: nat
    var bank: Option<Account>
    var totalOutstanding: nat
    var scores: map<Account, ScoreRecord>
    var ledger: Ledger
    ghost var events: seq<Event>

    ghost function Contents(): Storage
      reads this
    {
      Storage(collaterals, nextCollateral, credits, nextCredit, bank, totalOutstanding, scores, ledger, events)
    }

    constructor (cfg: Config, ledger: Ledger)
      ensures this.cfg == cfg && Contents() == Fresh(ledger, None)
    {
      this.cfg := cfg;
      this.ledger := ledger;
      collaterals, nextCollateral, credits, nextCredit := map[], 0, map[], 0;
      bank, totalOutstanding, scores, events := None, 0, map[], [];
    }

    method SetBankAccount(account: Account)
      modifies this
      ensures Contents() == old(Contents()).(bank := Some(account))
    {
      bank := Some(account);
    }

    method LockCollateral(now: nat, citizen: Account, amount: nat, asset: AssetType) returns (r: Outcome<(), Error>)
      modifies this
      ensures Atomic(M.LockCollateral(old(Contents()), now, citizen, amount, asset), old(Contents()), Contents(), r)
    {
      if amount == 0 { return Err(ZeroCollateral); }
      if bank.None? { return Err(BankAccountNotConfigured); }
      var moved := ledger.Transfer(citizen, bank.value, amount, KeepAlive);
      if moved.None? { return Err(InsufficientBalance); }
      ledger := moved.value;
      var bankFee := amount / 10;
      var collateralNet := amount - bankFee;
      var contractId := nextCollateral;
      collaterals := collaterals[contractId :=
        Collateral(citizen, asset, amount, bankFee, collateralNet, now, Locked, false)];
      nextCollateral := contractId + 1;
      r := Ok(());
    }

    method RequestCredit(citizen: Account, id: nat) returns (r: Outcome<(), Error>)
      modifies this
      ensures Atomic(M.RequestCredit(old(Contents()), citizen, id), old(Contents()), Contents(), r)
    {
      if id !in collaterals { return Err(CollateralNotFound); }
      var col := collaterals[id];
      if col.citizen != citizen { return Err(NotCollateralOwner); }
      if col.status != Locked { return Err(InvalidCollateralStatus); }
      if col.requested { return Err(CreditAlreadyRequested); }
      col := col.(requested := true);
      collaterals := collaterals[id := col];
      r := Ok(());
    }

    method IssueCredit(now: nat, id: nat) returns (r: Outcome<(), Error>)
      modifies this
      ensures Atomic(M.IssueCredit(cfg, old(Contents()), now, id), old(Contents()), Contents(), r)
    {
      if cfg.multiplier != 9 { return Err(InvalidReserveMultiplier); }
      if id !in collaterals { return Err(CollateralNotFound); }
      var col := collaterals[id];
      if col.status != Locked { return Err(InvalidCollateralStatus); }
      if !col.requested { return Err(CreditNotRequested); }
      var creditAmount := SatMul(col.net, cfg.multiplier);
      var record := if col.citizen in scores then scores[col.citizen] else NEW_RECORD;
      var tier := TierOf(record.score);
      if col.citizen !in scores {
        scores := scores[col.citizen := NEW_RECORD];
      } else {
        assert scores == scores[col.citizen := record];
      }
      ledger := ledger.DepositCreating(col.citizen, creditAmount);
      col := col.(status := Backing);
      collaterals := collaterals[id := col];
      var creditId := nextCredit;
      credits := credits[creditId := Credit(col.citizen, id, creditAmount, creditAmount, 0, now, now, tier, Active)];
      nextCredit := creditId + 1;
      totalOutstanding := SatAdd(totalOutstanding, creditAmount);
      events := events + [CreditIssued(creditId, creditAmount)];
      r := Ok(());
    }

    method CalculateAccruedInterest(credit: Credit, now: nat) returns (interest: nat)
      ensures interest == AccruedSince(credit, now, cfg.period)
    {
      var dailyRateBps := credit.tier.DailyRateBps();
      if dailyRateBps == 0 {
        return 0;
      }
      var elapsed := SatSub(now, credit.lastInterestBlock);
      if cfg.period == 0 || elapsed < cfg.period {
        if cfg.period > 0 { DivisionUnique(elapsed, cfg.period, 0, elapsed); }
        return 0;
      }
      var periods := elapsed / cfg.period;
      interest := SatMul(SatMul(credit.outstanding, dailyRateBps), periods) / 10_000;
    }

    method AccrueInterest(now: nat, id: nat) returns (r: Outcome<(), Error>)
      modifies this
      ensures Atomic(M.AccrueInterest(cfg, old(Contents()), now, id), old(Contents()), Contents(), r)
    {
      if id !in credits { return Err(CreditNotFound); }
      var credit := credits[id];
      if credit.status != Active { return Err(CreditNotActive); }
      var accrued := CalculateAccruedInterest(credit, now);
      if accrued > 0 {
        credit := credit.(accrued := SatAdd(credit.accrued, accrued));
        credit := credit.(lastInterestBlock := now);
        credits := credits[id := credit];
      }
      r := Ok(());
    }

    method RepayCredit(now: nat, citizen: Account, id: nat, amount: nat) returns (r: Outcome<(), Error>)
      modifies this
      ensures Atomic(M.RepayCredit(cfg, old(Contents()), now, citizen, id, amount), old(Contents()), Contents(), r)
    {
      if amount == 0 { return Err(ZeroRepayment); }
      if id !in credits { return Err(CreditNotFound); }
      var credit := credits[id];
      if credit.citizen != citizen { return Err(NotCreditOwner); }
      if credit.status != Active { return Err(CreditNotActive); }
      if bank.None? { return Err(BankAccountNotConfigured); }
      var ledgerBefore, totalBefore, scoresBefore, creditsBefore := ledger, totalOutstanding, scores, credits;

      // lazy accrual
      var newlyAccrued := CalculateAccruedInterest(credit, now);
      credit := credit.(accrued := SatAdd(credit.accrued, newlyAccrued), lastInterestBlock := now);
      hide AccruedSince, Rescore;

      var taken := TakePayment(bank.value, citizen, credit, amount);
      if taken.Err? { return Err(taken.error); }
      var (left, interestPaid, principalBurned) := taken.value;

      var fullyRepaid := left.outstanding == 0 && left.accrued == 0;
      UpdateScore(citizen, fullyRepaid, principalBurned);

      if fullyRepaid {
        left := left.(status := Repaid);
        credits := credits[id := left];
        if left.collateralId !in collaterals {
          ledger, totalOutstanding, scores, credits := ledgerBefore, totalBefore, scoresBefore, creditsBefore;
          return Err(CollateralNotFound);
        }
        var col := collaterals[left.collateralId];
        var returned := ledger.Transfer(bank.value, citizen, col.net, KeepAlive);
        if returned.None? {
          ledger, totalOutstanding, scores, credits := ledgerBefore, totalBefore, scoresBefore, creditsBefore;
          return Err(InsufficientBalance);
        }
        ledger := returned.value;
        collaterals := collaterals[left.collateralId := col.(status := Released)];
      } else {
        credits := credits[id := left];
      }
      events := events + [CreditRepaid(id, principalBurned, interestPaid)];
      r := Ok(());
    }

    /** Interest first, transferred to the bank; then principal, burned. */
    method TakePayment(bankAccount: Account, citizen: Account, due: Credit, amount: nat)
      returns (r: Outcome<(Credit, nat, nat), Error>)
      modifies this`ledger, this`totalOutstanding
      ensures var interest, principal := InterestPart(due, amount), PrincipalPart(due, amount);
              match old(ledger).Transfer(citizen, bankAccount, interest, KeepAlive)
              case None => r == Err(InsufficientBalance) && Contents() == old(Contents())
              case Some(paid) =>
                match paid.Burn(citizen, principal)
                case None => r == Err(InsufficientBalance) && Contents() == old(Contents())
                case Some(burned) =>
                  && r == Ok((Reduce(due, amount), interest, principal))
                  && ledger == burned && totalOutstanding == SatSub(old(totalOutstanding), principal)
    {
      var credit, remaining, interestPaid, before := due, amount, 0, ledger;
      if credit.accrued > 0 && remaining > 0 {
        var payInterest := Min(credit.accrued, remaining);
        var moved := ledger.Transfer(citizen, bankAccount, payInterest, KeepAlive);
        if moved.None? { return Err(InsufficientBalance); }
        ledger := moved.value;
        credit := credit.(accrued := SatSub(credit.accrued, payInterest));
        remaining := SatSub(remaining, payInterest);
        interestPaid := payInterest;
      }
      var principalRepay, principalBurned := Min(remaining, credit.outstanding), 0;
      if principalRepay > 0 {
        var burned := ledger.Burn(citizen, principalRepay);
        if burned.None? {
          ledger := before;
          return Err(InsufficientBalance);
        }
        ledger := burned.value;
        credit := credit.(outstanding := SatSub(credit.outstanding, principalRepay));
        totalOutstanding := SatSub(totalOutstanding, principalRepay);
        principalBurned := principalRepay;
      }
      r := Ok((credit, interestPaid, principalBurned));
    }

    method UpdateScore(citizen: Account, fullyRepaid: bool, principalBurned: nat)
      modifies this
      ensures Contents() == old(Contents()).(scores := Rescore(old(Contents()), citizen, fullyRepaid, principalBurned))
    {
      var record := if citizen in scores then scores[citizen] else NEW_RECORD;
      var oldScore := record.score;
      if fullyRepaid {
        record := record.FullRepayment();
      } else if principalBurned > 0 {
        record := record.PartialRepayment();
      }
      if oldScore != record.score {
        scores := scores[citizen := record];
      }
    }

    method DeclareDefault(id: nat) returns (r: Outcome<(), Error>)
      modifies this
      ensures Atomic(M.DeclareDefault(old(Contents()), id), old(Contents()), Contents(), r)
    {
      if id !in credits { return Err(CreditNotFound); }
      var credit := credits[id];
      if credit.status != Active { return Err(CreditNotActive); }
      credit := credit.(status := Defaulted);
      credits := credits[id := credit];
      var record := if credit.citizen in scores then scores[credit.citizen] else NEW_RECORD;
      scores := scores[credit.citizen := record.DefaultPenalty()];
      r := Ok(());
    }

    /** A transfer made by any other pallet on the shared currency. */
    method ForeignTransfer(from: Account, to: Account, amount: nat) returns (r: Outcome<(), Error>)
      modifies this`ledger
      ensures Atomic(M.ForeignTransfer(old(Contents()), from, to, amount), old(Contents()), Contents(), r)
    {
      var moved := ledger.Transfer(from, to, amount, KeepAlive);
      if moved.None? { return Err(TransferRefused); }
      ledger := moved.value;
      r := Ok(());
    }

    // -------------------------------------------------------------- runs

    /** One call, routed to its dispatchable. */
    method ExecuteOne(now: nat, call: Call) returns (r: Outcome<(), Error>)
      modifies this
      ensures Atomic(Dispatch(cfg, old(Contents()), now, call), old(Contents()), Contents(), r)
    {
      hide M.LockCollateral, M.RequestCredit, M.IssueCredit, M.AccrueInterest, M.RepayCredit, M.DeclareDefault, M.ForeignTransfer;
      match call
      case SetBank(account) => SetBankAccount(account); r := Ok(());
      case Lock(citizen, amount, asset) => r := LockCollateral(now, citizen, amount, asset);
      case Request(citizen, id) => r := RequestCredit(citizen, id);
      case Issue(id) => r := IssueCredit(now, id);
      case Accrue(id) => r := AccrueInterest(now, id);
      case Repay(citizen, id, amount) => r := RepayCredit(now, citizen, id, amount);
      case Default(id) => r := DeclareDefault(id);
      case Foreign(from, to, amount) => r := ForeignTransfer(from, to, amount);
    }

    /** A sequence of calls leaves the storage the run of its transitions ends in. */
    method Execute(calls: seq<Timed>)
      modifies this
      ensures Contents() == Run(cfg, old(Contents()), calls)
    {
      for i := 0 to |calls|
        invariant Run(cfg, Contents(), calls[i..]) == Run(cfg, old(Contents()), calls)
      {
        assert calls[i..][1..] == calls[i + 1..];
        hide Dispatch;
        var _ := ExecuteOne(calls[i].now, calls[i].call);
      }
    }

    /** The debt scan used by the inheritance pallet, over any storage iteration order. */
    method TotalOutstandingDebtFor(who: Account, order: seq<nat>) returns (total: nat)
      requires IterationOrder(order, credits)
      ensures total as int == if Sum(credits, ActiveDebt(who)) <= U128_MAX then Sum(credits, ActiveDebt(who)) else U128_MAX
    {
      SumAlongIsSum(order, credits, ActiveDebt(who));
      total := 0;
      for i := 0 to |order|
        invariant 0 <= SumAlong(order[..i], credits, ActiveDebt(who))
        invariant total == Min(SumAlong(order[..i], credits, ActiveDebt(who)), U128_MAX)
      {
        SumAlongStep(order, i, credits, ActiveDebt(who));
        var credit := credits[order[i]];
        if credit.citizen == who && credit.status == Active {
          total := SatAdd(total, credit.outstanding);
        }
      }
      assert order[..|order|] == order;
    }
  }
  /** A chain started from an empty pallet: what runs keep holds of the storage it ends with. */
  method ChainFromEmpty(cfg: Config, ledger: Ledger, bank: Account, calls: seq<Timed>) returns (p: Pallet)
    requires ledger.Balanced() && Chronological(0, calls) && MintsLand(cfg, Fresh(ledger, Some(bank)), calls)
    requires forall i :: 0 <= i < |calls| ==> LeavesBankAlone(bank, calls[i].call)
    ensures fresh(p) && p.cfg == cfg && p.Contents() == Run(cfg, Fresh(ledger, Some(bank)), calls)
    ensures Matched(p.Contents()) && Books(p.Contents(), ledger.issuance)
    ensures Backed(p.Contents(), bank, ledger.Free(bank)) && NoBankCitizen(p.Contents(), bank)
    ensures InterestBounded(cfg, p.Contents(), LastBlock(0, calls))
  {
    var start := Fresh(ledger, Some(bank));
    FreshStorage(cfg, ledger, Some(bank), 0);
    BankStaysBacked(cfg, start, ledger.issuance, bank, ledger.Free(bank), calls);
    InterestNeverExceedsOneShot(cfg, start, 0, calls);
    hide Run, Matched, Books, Backed, NoBankCitizen, InterestBounded;
    p := new Pallet(cfg, ledger);
    p.SetBankAccount(bank);
    p.Execute(calls);
  }
}
