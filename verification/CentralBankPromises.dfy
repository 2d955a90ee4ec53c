/** What pallet-central-bank promises its callers: who may mint, burn and borrow, whose money moves and
    by how much, what the totals count, and how the rate runs between its ends. */
module CentralBankPromises {
  import opened Prelude
  import opened Currency
  import opened Arithmetic
  import opened CentralBank
  import opened CentralBankRuns

  // ================================================================ which calls are accepted

  predicate Accepts(cfg: Config, s: Storage, call: Call) {
    match call
    case Grant(operator) => operator !in s.licensed
    case Revoke(operator) => operator in s.licensed
    case Mint(operator, amount) => amount > 0 && operator in s.licensed && s.emitted + amount <= U128_MAX
    case Burn(operator, amount) =>
      amount > 0 && operator in s.licensed && s.ledger.Free(operator) >= amount + s.ledger.ed && s.burned + amount <= U128_MAX
    case NextEpoch => true
    case BaseRate(rate) => rate <= cfg.maxRate
    case Request(operator, amount) => amount > 0 && operator in s.licensed && amount <= s.available
    case Repay(operator, epoch, amount) => RepaysAgainst(s, call, epoch)
    case GenesisGrant(_, knownRegion) => knownRegion && s.emitted + 100_000_000_000_000 <= U128_MAX
    case Foreign(from, to, amount) => s.ledger.Transfer(from, to, amount, KeepAlive).Some?
  }

  /** On a sound pool a call is accepted exactly then. */
  lemma AcceptedExactly(cfg: Config, s: Storage, now: nat, call: Call)
    requires Pool(cfg, s)
    ensures Dispatch(cfg, s, now, call).Ok? <==> Accepts(cfg, s, call)
  {
    if call.Repay? { RepaymentSucceedsExactly(cfg, s, now, call); }
    hide RepayCredit, RepaysAgainst, DynamicRate, DebtsAgree, Ledger.Transfer, Ledger.DepositCreating;
  }

  /** The licence register says who was granted a licence last and not had it revoked since. */
  function LicensedAfter(was: bool, calls: seq<Timed>, o: Account): bool {
    if calls == [] then was
    else
      var call := calls[|calls| - 1].call;
      if call == Grant(o) then true else if call == Revoke(o) then false else LicensedAfter(was, calls[..|calls| - 1], o)
  }

  lemma LicenceStep(cfg: Config, s: Storage, now: nat, call: Call, o: Account)
    ensures o in Step(cfg, s, now, call).licensed <==> if call == Grant(o) then true else if call == Revoke(o) then false else o in s.licensed
  {
    hide DynamicRate, Ledger.Transfer, Ledger.Burn, Ledger.DepositCreating;
    match call
    case Request(_, _) =>
    case Repay(_, _, _) =>
    case _ => hide RequestCredit, RepayCredit;
  }

  lemma {:induction false} LicencesFollowTheCalls(cfg: Config, s: Storage, calls: seq<Timed>, o: Account)
    ensures o in Run(cfg, s, calls).licensed <==> LicensedAfter(o in s.licensed, calls, o)
    decreases |calls|
  {
    if calls != [] {
      var n := |calls| - 1;
      LicencesFollowTheCalls(cfg, s, calls[..n], o);
      BeforeNext(cfg, s, calls, n);
      assert calls[..|calls|] == calls;
      LicenceStep(cfg, Before(cfg, s, calls, n), calls[n].now, calls[n].call, o);
      hide Step, Run;
    }
  }

  // ================================================================ whose money moves

  /** What a call adds to an account's balance. */
  function Gain(call: Call, a: Account): int {
    match call
    case Mint(operator, amount) => if operator == a then amount else 0
    case Burn(operator, amount) => if operator == a then 0 - amount else 0
    case Request(operator, amount) => if operator == a then amount else 0
    case Repay(operator, _, amount) => if operator == a then 0 - amount else 0
    case GenesisGrant(citizen, _) => if citizen == a then 100_000_000_000_000 else 0
    case Foreign(from, to, amount) => (if to == a then amount else 0) - (if from == a then amount else 0)
    case _ => 0
  }

  /** Every accepted call moves exactly the money it names, provided what it mints lands. */
  lemma MoneyFollowsTheCall(cfg: Config, s: Storage, now: nat, call: Call, a: Account)
    requires s.ledger.Balanced() && MintLands(s, call) && Dispatch(cfg, s, now, call).Ok?
    ensures Step(cfg, s, now, call).ledger.Free(a) == s.ledger.Free(a) + Gain(call, a)
  {
    hide DynamicRate, Ledger.Balanced, Ledger.Transfer, Ledger.Burn, Ledger.DepositCreating;
    match call
    case Mint(operator, amount) => DepositConserves(s.ledger, operator, amount);
    case Burn(operator, amount) => BurnConserves(s.ledger, operator, amount);
    case Request(operator, amount) => DepositConserves(s.ledger, operator, amount);
    case Repay(operator, _, amount) => BurnConserves(s.ledger, operator, amount);
    case GenesisGrant(citizen, _) => DepositConserves(s.ledger, citizen, GENESIS_GRANT);
    case Foreign(from, to, amount) => TransferConserves(s.ledger, from, to, amount, KeepAlive);
    case _ => hide RequestCredit, RepayCredit;
  }

  // ================================================================ what the totals count

  /** What one call adds to the emitted total, to the burned one and to the tranche counter. */
  function Emits(call: Call): nat {
    match call
    case Mint(_, amount) => amount
    case GenesisGrant(_, _) => 100_000_000_000_000
    case _ => 0
  }

  function Burns(call: Call): nat { if call.Burn? then call.amount else 0 }

  lemma TotalsStep(cfg: Config, s: Storage, now: nat, call: Call)
    ensures var t, ok := Step(cfg, s, now, call), Dispatch(cfg, s, now, call).Ok?;
            && t.emitted == s.emitted + (if ok then Emits(call) else 0)
            && t.burned == s.burned + (if ok then Burns(call) else 0)
            && t.nextTranche == s.nextTranche + (if ok && call.Mint? then 1 else 0)
            && t.baseRate == (if ok && call.BaseRate? then call.rate else s.baseRate)
  {
    hide DynamicRate, Ledger.Transfer, Ledger.Burn, Ledger.DepositCreating;
    match call
    case Request(_, _) =>
    case Repay(_, _, _) =>
    case _ => hide RequestCredit, RepayCredit;
  }

  /** Over a run: the accepted calls' amounts added up. */
  function EmittedIn(cfg: Config, s: Storage, calls: seq<Timed>): nat
    decreases |calls|
  {
    if calls == [] then 0
    else (if Dispatch(cfg, s, calls[0].now, calls[0].call).Ok? then Emits(calls[0].call) else 0)
         + EmittedIn(cfg, Step(cfg, s, calls[0].now, calls[0].call), calls[1..])
  }

  function BurnedIn(cfg: Config, s: Storage, calls: seq<Timed>): nat
    decreases |calls|
  {
    if calls == [] then 0
    else (if Dispatch(cfg, s, calls[0].now, calls[0].call).Ok? then Burns(calls[0].call) else 0)
         + BurnedIn(cfg, Step(cfg, s, calls[0].now, calls[0].call), calls[1..])
  }

  /** The emitted total counts what was minted and granted, the burned total what was burned, and lent
      or repaid credit enters neither. */
  lemma {:induction false} TotalsCountTheCalls(cfg: Config, s: Storage, calls: seq<Timed>)
    ensures Run(cfg, s, calls).emitted == s.emitted + EmittedIn(cfg, s, calls)
    ensures Run(cfg, s, calls).burned == s.burned + BurnedIn(cfg, s, calls)
    decreases |calls|
  {
    if calls != [] {
      TotalsStep(cfg, s, calls[0].now, calls[0].call);
      hide Step, Dispatch, Emits, Burns;
      TotalsCountTheCalls(cfg, Step(cfg, s, calls[0].now, calls[0].call), calls[1..]);
    }
  }

  // ================================================================ epochs and debts

  /** An epoch opens at the block of the call that opens it, at the rate of the moment, with the limit of
      the pool and nothing issued or repaid. */
  lemma EpochOpens(cfg: Config, s: Storage, now: nat)
    ensures var t, e := Step(cfg, s, now, NextEpoch), s.epochId + 1;
            && t.epochId == e && e in t.epochs
            && t.epochs == s.epochs[e := Epoch(now, DynamicRate(cfg, s.outstanding), 0, 0, cfg.limit)]
            && t == s.(epochId := e, epochs := t.epochs)
  {
    hide DynamicRate;
  }

  /** ... and keeps that block and limit for ever. */
  lemma EpochStep(cfg: Config, s: Storage, now: nat, call: Call, e: nat)
    requires e in s.epochs && e <= s.epochId
    ensures var t := Step(cfg, s, now, call);
            && e in t.epochs && e <= t.epochId
            && t.epochs[e].startBlock == s.epochs[e].startBlock && t.epochs[e].limit == s.epochs[e].limit
  {
    hide DynamicRate, Ledger.Transfer, Ledger.Burn, Ledger.DepositCreating;
    match call
    case Request(_, _) =>
    case Repay(_, _, _) =>
    case _ => hide RequestCredit, RepayCredit;
  }

  lemma {:induction false} EpochKeepsItsStart(cfg: Config, s: Storage, calls: seq<Timed>, e: nat)
    requires e in s.epochs && e <= s.epochId
    ensures var t := Run(cfg, s, calls);
            && e in t.epochs && e <= t.epochId
            && t.epochs[e].startBlock == s.epochs[e].startBlock && t.epochs[e].limit == s.epochs[e].limit
    decreases |calls|
  {
    if calls != [] {
      EpochStep(cfg, s, calls[0].now, calls[0].call, e);
      hide Step;
      EpochKeepsItsStart(cfg, Step(cfg, s, calls[0].now, calls[0].call), calls[1..], e);
    }
  }

  /** Whatever happens after an epoch is opened, its record names the block of the opening. */
  lemma {:induction false} EpochNamesItsBlock(cfg: Config, s: Storage, now: nat, rest: seq<Timed>)
    ensures var e, t := s.epochId + 1, Run(cfg, Step(cfg, s, now, NextEpoch), rest);
            e in t.epochs && t.epochs[e].startBlock == now && t.epochs[e].limit == cfg.limit
  {
    EpochOpens(cfg, s, now);
    EpochKeepsItsStart(cfg, Step(cfg, s, now, NextEpoch), rest, s.epochId + 1);
    hide Run;
  }

  /** Each debt moves by its own operator's requests in the current epoch and repayments naming its
      epoch, and by nothing else. */
  lemma DebtFollowsTheCall(cfg: Config, s: Storage, now: nat, call: Call, o: Account, e: nat)
    requires Pool(cfg, s) && HasRoom(s, call)
    ensures Step(cfg, s, now, call).DebtOf(o, e)
            == s.DebtOf(o, e) + if Dispatch(cfg, s, now, call).Err? then 0
                                else if call.Request? && call.operator == o && s.epochId == e then call.amount
                                else if call.Repay? && call.operator == o && call.epoch == e then 0 - call.amount
                                else 0
  {
    hide DynamicRate, Ledger.Transfer, Ledger.Burn, Ledger.DepositCreating, DebtsAgree, RequestCredit, RepayCredit;
    if Dispatch(cfg, s, now, call).Ok? {
      match call
      case Request(operator, amount) =>
        RequestEffect(cfg, s, operator, amount);
        DebtBelowWidth(cfg, s, operator);
      case Repay(operator, epoch, amount) => RepayEffect(cfg, s, operator, epoch, amount);
      case _ =>
    }
  }

  lemma DebtBelowWidth(cfg: Config, s: Storage, o: Account)
    requires Pool(cfg, s)
    ensures s.DebtOf(o, s.epochId) + s.available <= U128_MAX
  {
    if (o, s.epochId) in s.debt { DebtWithinTotals(s, o, s.epochId); }
    hide DebtsAgree, DynamicRate;
  }

  // ================================================================ the curve between its ends

  /** The share of the pool lent out, in whole per cent, which is at most a hundred on a sound pool; one
      that does not fit 32 bits would read as zero. */
  lemma UtilizationExact(cfg: Config, outstanding: nat)
    requires 0 < cfg.limit && 100 * outstanding <= U128_MAX
    ensures var p := Utilization(cfg, outstanding);
            if 100 * outstanding < 0x1_0000_0000 * cfg.limit
            then cfg.limit * p <= 100 * outstanding < cfg.limit * p + cfg.limit
            else p == 0
    ensures outstanding <= cfg.limit ==> Utilization(cfg, outstanding) <= 100
  {
    var q := Quotient(100 * outstanding, cfg.limit);
    assert cfg.limit * q <= 100 * outstanding < cfg.limit * q + cfg.limit;
    if q > U32_MAX {
      MulMonotone(cfg.limit, cfg.limit, 0x1_0000_0000, q);
    } else {
      MulMonotone(cfg.limit, cfg.limit, q + 1, 0x1_0000_0000);
      assert cfg.limit * (q + 1) == cfg.limit * q + cfg.limit;
    }
    if outstanding <= cfg.limit {
      DivMonotone(100 * outstanding, 100 * cfg.limit, cfg.limit);
      DivisionUnique(100 * cfg.limit, cfg.limit, 100, 0);
    }
  }

  /** Up to the optimal utilisation the rate is the proportional part of the optimal one, beyond it the
      proportional part of the way to the maximum, each rounded down to a basis point. */
  lemma RateExact(cfg: Config, percent: nat)
    requires cfg.optimalUtilization < 100 && cfg.optimalRate <= cfg.maxRate && 100 * cfg.maxRate <= U32_MAX && percent <= 100
    ensures var u, r := cfg.optimalUtilization, RateAt(cfg, percent);
            if percent <= u then u * r <= percent * cfg.optimalRate < u * r + u
            else && r >= cfg.optimalRate
                 && (100 - u) * (r - cfg.optimalRate) <= (percent - u) * (cfg.maxRate - cfg.optimalRate)
                 && (percent - u) * (cfg.maxRate - cfg.optimalRate) < (100 - u) * (r - cfg.optimalRate) + (100 - u)
  {
    var u, spread := cfg.optimalUtilization, cfg.maxRate - cfg.optimalRate;
    if percent <= u {
      MulMonotone(percent, 100, cfg.optimalRate, cfg.maxRate);
      ShareExact(percent, cfg.optimalRate, u);
    } else {
      MulMonotone(percent - u, 100, spread, cfg.maxRate);
      ShareWithinRate(percent - u, spread, 100 - u);
      ShareExact(percent - u, spread, 100 - u);
    }
    hide Share;
  }

  /** A share that does not saturate is the proportional part, rounded down. */
  lemma ShareExact(part: nat, rate: nat, whole: nat)
    requires whole > 0 && part * rate <= U32_MAX
    ensures var q := Share(part, rate, whole); whole * q <= part * rate < whole * q + whole
  {}
}
