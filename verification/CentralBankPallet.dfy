/** The dispatchables and the migration of pallet-central-bank as they run. Each is proved equal
    to its specification in `CentralBank`. */
module CentralBankPallet {
  import opened Prelude
  import opened Currency
  import opened Sums
  import opened CentralBankRuns
  import opened M = CentralBank

  class Pallet {
    const cfg: Config
    var licensed: set<Account>
    var totalEmitted: nat
    var totalBurned: nat
    var nextTrancheId: nat
    var currentEpochId: nat
    var epochs: map<nat, Epoch>
    var operatorDebt: map<(Account, nat), nat>
    var totalOperatorDebt: map<Account, nat>
    var genesisCreditAvailable: nat
    var totalOutstanding: nat
    var baseKeyRate: nat
    var ledger: Ledger

    ghost function Contents(): Storage
      reads this
    {
      Storage(licensed, totalEmitted, totalBurned, nextTrancheId, currentEpochId, epochs, operatorDebt,
              totalOperatorDebt, genesisCreditAvailable, totalOutstanding, baseKeyRate, ledger)
    }

    constructor (cfg: Config, ledger: Ledger, licensed: set<Account>)
      ensures this.cfg == cfg && Contents() == Genesis(cfg, ledger, licensed)
    {
      this.cfg := cfg;
      this.ledger, this.licensed := ledger, licensed;
      totalEmitted, totalBurned, nextTrancheId, currentEpochId := 0, 0, 0, 1;
      epochs := map[1 := Epoch(0, 0, 0, 0, cfg.limit)];
      operatorDebt, totalOperatorDebt := map[], map[];
      genesisCreditAvailable, totalOutstanding, baseKeyRate := cfg.limit, 0, cfg.optimalRate;
    }

    method GrantOperatorLicense(operator: Account) returns (r: Outcome<(), Error>)
      modifies this
      ensures Atomic(GrantLicense(old(Contents()), operator), old(Contents()), Contents(), r)
    {
      if operator in licensed { return Err(AlreadyLicensed); }
      licensed := licensed + {operator};
      r := Ok(());
    }

    method RevokeOperatorLicense(operator: Account) returns (r: Outcome<(), Error>)
      modifies this
      ensures Atomic(RevokeLicense(old(Contents()), operator), old(Contents()), Contents(), r)
    {
      if operator !in licensed { return Err(AlreadyRevoked); }
      licensed := licensed - {operator};
      r := Ok(());
    }

    method MintToOperator(operator: Account, amount: nat) returns (r: Outcome<(), Error>)
      modifies this
      ensures Atomic(M.MintToOperator(old(Contents()), operator, amount), old(Contents()), Contents(), r)
    {
      if amount == 0 { return Err(ZeroAmount); }
      if operator !in licensed { return Err(NotLicensedOperator); }
      var ledgerBefore, trancheBefore := ledger, nextTrancheId;
      ledger := ledger.DepositCreating(operator, amount);
      nextTrancheId := nextTrancheId + 1;
      if totalEmitted + amount > U128_MAX {
        ledger, nextTrancheId := ledgerBefore, trancheBefore;
        return Err(ArithmeticOverflow);
      }
      totalEmitted := totalEmitted + amount;
      r := Ok(());
    }

    method Burn(operator: Account, amount: nat) returns (r: Outcome<(), Error>)
      modifies this
      ensures Atomic(BurnFromOperator(old(Contents()), operator, amount), old(Contents()), Contents(), r)
    {
      if amount == 0 { return Err(ZeroAmount); }
      if operator !in licensed { return Err(NotLicensedOperator); }
      if ledger.Free(operator) < amount { return Err(InsufficientOperatorBalance); }
      var burned := ledger.Burn(operator, amount);
      if burned.None? { return Err(InsufficientOperatorBalance); }
      var ledgerBefore := ledger;
      ledger := burned.value;
      if totalBurned + amount > U128_MAX {
        ledger := ledgerBefore;
        return Err(ArithmeticOverflow);
      }
      totalBurned := totalBurned + amount;
      r := Ok(());
    }

    method TransitionEpoch(now: nat)
      modifies this
      ensures Contents() == M.TransitionEpoch(cfg, old(Contents()), now)
    {
      var newEpochId := currentEpochId + 1;
      var rate := ComputeDynamicRate();
      epochs := epochs[newEpochId := Epoch(now, rate, 0, 0, cfg.limit)];
      currentEpochId := newEpochId;
    }

    method SetBaseRate(rate: nat) returns (r: Outcome<(), Error>)
      modifies this
      ensures Atomic(M.SetBaseRate(cfg, old(Contents()), rate), old(Contents()), Contents(), r)
    {
      if rate > cfg.maxRate { return Err(RateExceedsMax); }
      baseKeyRate := rate;
      r := Ok(());
    }

    method ComputeDynamicRate() returns (rate: nat)
      ensures rate == DynamicRate(cfg, totalOutstanding)
    {
      if cfg.limit == 0 || totalOutstanding == 0 { return 0; }
      var percent := Quotient(SatMul(totalOutstanding, 100), cfg.limit);
      if percent > U32_MAX { percent := 0; }
      if percent <= cfg.optimalUtilization {
        return Share(percent, cfg.optimalRate, cfg.optimalUtilization);
      }
      var maxExcess := SatSub(100, cfg.optimalUtilization);
      if maxExcess == 0 { return cfg.maxRate; }
      var penalty := Share(SatSub(percent, cfg.optimalUtilization), SatSub(cfg.maxRate, cfg.optimalRate), maxExcess);
      rate := Sat32(cfg.optimalRate + penalty);
    }

    /** Called after every request and repayment: the current epoch takes the rate of the curve. */
    method UpdateDynamicRate() returns (r: Outcome<nat, Error>)
      modifies this`epochs
      ensures var s, rate := old(Contents()), DynamicRate(cfg, totalOutstanding);
              if s.epochId in s.epochs
              then r == Ok(rate) && Contents() == s.(epochs := Retag(s.epochs, s.epochId, rate))
              else r == Err(EpochNotFound) && Contents() == s
    {
      var rate := ComputeDynamicRate();
      if currentEpochId !in epochs { return Err(EpochNotFound); }
      epochs := epochs[currentEpochId := epochs[currentEpochId].(keyRate := rate)];
      r := Ok(rate);
    }

    /** The epoch record and the two debt totals move by one request. */
    method AddDebt(operator: Account, e: nat, amount: nat, newTotal: nat)
      requires e in epochs
      modifies this`epochs, this`operatorDebt, this`totalOperatorDebt
      ensures var s := old(Contents());
              Contents() == s.(epochs := s.epochs[e := s.epochs[e].(issued := SatAdd(s.epochs[e].issued, amount))],
                               debt := s.debt[(operator, e) := SatAdd(s.DebtOf(operator, e), amount)],
                               totalDebt := s.totalDebt[operator := newTotal])
    {
      epochs := epochs[e := epochs[e].(issued := SatAdd(epochs[e].issued, amount))];
      var debt := if (operator, e) in operatorDebt then operatorDebt[(operator, e)] else 0;
      operatorDebt := operatorDebt[(operator, e) := SatAdd(debt, amount)];
      totalOperatorDebt := totalOperatorDebt[operator := newTotal];
    }

    method DoRequestCredit(operator: Account, amount: nat) returns (r: Outcome<(), Error>)
      modifies this
      ensures Atomic(M.RequestCredit(cfg, old(Contents()), operator, amount), old(Contents()), Contents(), r)
    {
      hide DynamicRate, Ledger.DepositCreating, SatAdd;
      if amount == 0 { return Err(ZeroAmount); }
      if operator !in licensed { return Err(NotLicensedOperator); }
      var currentDebt := if operator in totalOperatorDebt then totalOperatorDebt[operator] else 0;
      var newDebt := SatAdd(currentDebt, amount);
      if genesisCreditAvailable < amount { return Err(CreditPoolExhausted); }
      var e := currentEpochId;
      if e !in epochs { return Err(EpochNotFound); }
      genesisCreditAvailable := SatSub(genesisCreditAvailable, amount);
      totalOutstanding := SatAdd(totalOutstanding, amount);
      ledger := ledger.DepositCreating(operator, amount);
      AddDebt(operator, e, amount, newDebt);
      var _ := UpdateDynamicRate();
      r := Ok(());
    }

    /** The debt totals and the epoch record move by one repayment. */
    method TakeDebt(operator: Account, e: nat, amount: nat)
      requires e in epochs
      modifies this`epochs, this`operatorDebt, this`totalOperatorDebt
      ensures var s := old(Contents());
              Contents() == s.(debt := s.debt[(operator, e) := SatSub(s.DebtOf(operator, e), amount)],
                               epochs := s.epochs[e := s.epochs[e].(repaid := SatAdd(s.epochs[e].repaid, amount))],
                               totalDebt := s.totalDebt[operator := SatSub(s.TotalDebtOf(operator), amount)])
    {
      var debt := if (operator, e) in operatorDebt then operatorDebt[(operator, e)] else 0;
      operatorDebt := operatorDebt[(operator, e) := SatSub(debt, amount)];
      epochs := epochs[e := epochs[e].(repaid := SatAdd(epochs[e].repaid, amount))];
      var total := if operator in totalOperatorDebt then totalOperatorDebt[operator] else 0;
      totalOperatorDebt := totalOperatorDebt[operator := SatSub(total, amount)];
    }

    method DoRepayCredit(operator: Account, e: nat, amount: nat) returns (r: Outcome<(), Error>)
      modifies this
      ensures Atomic(M.RepayCredit(cfg, old(Contents()), operator, e, amount), old(Contents()), Contents(), r)
    {
      hide DynamicRate, Ledger.Burn, SatAdd, SatSub, Min;
      if amount == 0 { return Err(ZeroAmount); }
      if e !in epochs { return Err(EpochNotFound); }
      var debt := if (operator, e) in operatorDebt then operatorDebt[(operator, e)] else 0;
      if debt < amount { return Err(InsufficientDebt); }
      if ledger.Free(operator) < amount { return Err(InsufficientBalance); }
      var burned := ledger.Burn(operator, amount);
      if burned.None? { return Err(InsufficientBalance); }
      if currentEpochId !in epochs { return Err(EpochNotFound); }  // found out last, with everything rolled back
      ledger := burned.value;
      TakeDebt(operator, e, amount);
      genesisCreditAvailable := Min(SatAdd(genesisCreditAvailable, amount), cfg.limit);
      totalOutstanding := SatSub(totalOutstanding, amount);
      var _ := UpdateDynamicRate();
      r := Ok(());
    }

    method IssueGenesisGrant(citizen: Account, knownRegion: bool) returns (r: Outcome<(), Error>)
      modifies this
      ensures Atomic(M.IssueGenesisGrant(old(Contents()), citizen, knownRegion), old(Contents()), Contents(), r)
    {
      if !knownRegion { return Err(InvalidRegion); }
      var ledgerBefore := ledger;
      ledger := ledger.DepositCreating(citizen, GENESIS_GRANT);
      if totalEmitted + GENESIS_GRANT > U128_MAX {
        ledger := ledgerBefore;
        return Err(ArithmeticOverflow);
      }
      totalEmitted := totalEmitted + GENESIS_GRANT;
      r := Ok(());
    }

    /** A transfer made by any other pallet on the shared currency. */
    method TransferByOthers(from: Account, to: Account, amount: nat) returns (r: Outcome<(), Error>)
      modifies this`ledger
      ensures Atomic(M.TransferByOthers(old(Contents()), from, to, amount), old(Contents()), Contents(), r)
    {
      var moved := ledger.Transfer(from, to, amount, KeepAlive);
      if moved.None? { return Err(TransferFailed); }
      ledger := moved.value;
      r := Ok(());
    }

    // -------------------------------------------------------------- runs

    /** One call, routed to its dispatchable. */
    method ExecuteOne(now: nat, call: Call) returns (r: Outcome<(), Error>)
      modifies this
      ensures Atomic(Dispatch(cfg, old(Contents()), now, call), old(Contents()), Contents(), r)
    {
      hide GrantLicense, RevokeLicense, M.MintToOperator, BurnFromOperator, M.TransitionEpoch, M.SetBaseRate,
           M.RequestCredit, M.RepayCredit, M.IssueGenesisGrant, M.TransferByOthers;
      match call
      case Grant(operator) => r := GrantOperatorLicense(operator);
      case Revoke(operator) => r := RevokeOperatorLicense(operator);
      case Mint(operator, amount) => r := MintToOperator(operator, amount);
      case Burn(operator, amount) => r := Burn(operator, amount);
      case NextEpoch => TransitionEpoch(now); r := Ok(());
      case BaseRate(rate) => r := SetBaseRate(rate);
      case Request(operator, amount) => r := DoRequestCredit(operator, amount);
      case Repay(operator, epoch, amount) => r := DoRepayCredit(operator, epoch, amount);
      case GenesisGrant(citizen, knownRegion) => r := IssueGenesisGrant(citizen, knownRegion);
      case Foreign(from, to, amount) => r := TransferByOthers(from, to, amount);
    }

    /** A sequence of calls leaves the storage the run of its transitions ends in. */
    method Execute(calls: seq<Timed>)
      modifies this
      ensures Contents() == Run(cfg, old(Contents()), calls)
    {
      for i := 0 to |calls|
        invariant Run(cfg, Contents(), calls[i..]) == Run(cfg, old(Contents()), calls)
      {
        assert calls[i..][1..] == calls[i + 1..];
        hide Dispatch;
        var _ := ExecuteOne(calls[i].now, calls[i].call);
      }
    }

    /** The upgrade that fills the pool from the epoch records. */
    method InitCreditPool()
      modifies this
      ensures Contents() == M.InitCreditPool(cfg, old(Contents()))
    {
      if genesisCreditAvailable == 0 {
        var totalIssued, totalRepaidAll := 0, 0;
        for i := 1 to currentEpochId + 1
          invariant totalIssued == IssuedUpTo(epochs, i - 1)
          invariant totalRepaidAll == RepaidUpTo(epochs, i - 1)
        {
          if i in epochs {
            totalIssued := SatAdd(totalIssued, epochs[i].issued);
            totalRepaidAll := SatAdd(totalRepaidAll, epochs[i].repaid);
          }
        }
        var outstanding := SatSub(totalIssued, totalRepaidAll);
        genesisCreditAvailable := SatSub(cfg.limit, outstanding);
        totalOutstanding := outstanding;
      }
    }
  }
  /** A chain started from genesis: what runs keep holds of the storage it ends with. */
  method ChainFromGenesis(cfg: Config, ledger: Ledger, licensed: set<Account>, calls: seq<Timed>) returns (p: Pallet)
    requires ledger.Balanced()
    requires AllHaveRoom(cfg, Genesis(cfg, ledger, licensed), calls) && AllLand(cfg, Genesis(cfg, ledger, licensed), calls)
    ensures fresh(p) && p.cfg == cfg && p.Contents() == Run(cfg, Genesis(cfg, ledger, licensed), calls)
    ensures Pool(cfg, p.Contents()) && Supply(p.Contents(), ledger.issuance)
    ensures p.totalOutstanding == Sum(p.operatorDebt, Owed) && p.genesisCreditAvailable + p.totalOutstanding == cfg.limit
  {
    GenesisPool(cfg, ledger, licensed);
    SupplyIsAccountedFor(cfg, Genesis(cfg, ledger, licensed), ledger.issuance, calls);
    hide Supply, DynamicRate, Run;
    p := new Pallet(cfg, ledger, licensed);
    p.Execute(calls);
  }
}
