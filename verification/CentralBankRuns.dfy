/** What every run of pallet-central-bank keeps, and what its pool migration does to it. */
module CentralBankRuns {
  import opened Prelude
  import opened Currency
  import opened Sums
  import opened Arithmetic
  import opened CentralBank

  type Debts = map<(Account, nat), nat>

  function Owed(k: (Account, nat), v: nat): int { v }

  function OwedBy(o: Account): ((Account, nat), nat) -> int {
    (k: (Account, nat), v: nat) => if k.0 == o then v else 0
  }

  function OwedIn(e: nat): ((Account, nat), nat) -> int {
    (k: (Account, nat), v: nat) => if k.1 == e then v else 0
  }

  // ================================================================ the pool

  /** Debts are recorded against opened epochs, which are numbered 1 to the current one. */
  ghost predicate EpochsSound(s: Storage) {
    && s.epochId >= 1
    && (forall e :: e in s.epochs <==> 1 <= e <= s.epochId)
    && (forall k :: k in s.debt ==> k.1 in s.epochs)
    && (forall e :: e in s.epochs ==> s.epochs[e].issued <= U128_MAX)
  }

  /** The running totals agree with the debts they summarise. */
  ghost predicate DebtsAgree(s: Storage) {
    && s.outstanding == Sum(s.debt, Owed)
    && (forall o :: s.TotalDebtOf(o) == Sum(s.debt, OwedBy(o)))
    && (forall e :: e in s.epochs ==> s.epochs[e].issued - s.epochs[e].repaid == Sum(s.debt, OwedIn(e)))
  }

  ghost predicate Pool(cfg: Config, s: Storage) {
    && EpochsSound(s)
    && s.available + s.outstanding == cfg.limit
    && DebtsAgree(s)
    && s.epochs[s.epochId].keyRate == DynamicRate(cfg, s.outstanding)
  }

  /** A new epoch record stays below the width of a balance. */
  predicate HasRoom(s: Storage, call: Call) {
    call.Request? && s.epochId in s.epochs ==> s.epochs[s.epochId].issued + call.amount <= U128_MAX
  }

  /** Changing one debt moves each total that covers it by the same amount, and no other. */
  lemma DebtMoves(debt: Debts, o: Account, e: nat, v: nat)
    ensures var was, after := (if (o, e) in debt then debt[(o, e)] else 0), debt[(o, e) := v];
            && Sum(after, Owed) == Sum(debt, Owed) - was + v
            && (forall p :: Sum(after, OwedBy(p)) == Sum(debt, OwedBy(p)) + (if p == o then v - was else 0))
            && (forall d :: Sum(after, OwedIn(d)) == Sum(debt, OwedIn(d)) + (if d == e then v - was else 0))
  {
    SumUpdate<(Account, nat), nat>(debt, Owed, (o, e), v);
    forall p ensures Sum(debt[(o, e) := v], OwedBy(p)) == Sum(debt, OwedBy(p))
                       + (if p == o then v - (if (o, e) in debt then debt[(o, e)] else 0) else 0)
    {
      SumUpdate<(Account, nat), nat>(debt, OwedBy(p), (o, e), v);
    }
    forall d ensures Sum(debt[(o, e) := v], OwedIn(d)) == Sum(debt, OwedIn(d))
                       + (if d == e then v - (if (o, e) in debt then debt[(o, e)] else 0) else 0)
    {
      SumUpdate<(Account, nat), nat>(debt, OwedIn(d), (o, e), v);
    }
  }

  /** One debt is covered by its operator's total, its epoch's balance and the pool's total. */
  lemma DebtWithinTotals(s: Storage, o: Account, e: nat)
    requires DebtsAgree(s) && (o, e) in s.debt && e in s.epochs
    ensures s.debt[(o, e)] <= s.outstanding
    ensures s.debt[(o, e)] <= s.TotalDebtOf(o) <= s.outstanding
    ensures s.epochs[e].repaid + s.debt[(o, e)] <= s.epochs[e].issued
  {
    SumMember<(Account, nat), nat>(s.debt, Owed, (o, e));
    SumMember<(Account, nat), nat>(s.debt, OwedBy(o), (o, e));
    SumMember<(Account, nat), nat>(s.debt, OwedIn(e), (o, e));
    OperatorWithinTotal(s, o);
  }

  lemma OperatorWithinTotal(s: Storage, o: Account)
    requires DebtsAgree(s)
    ensures s.TotalDebtOf(o) <= s.outstanding
  {
    SumMonotone<(Account, nat), nat>(s.debt, OwedBy(o), Owed);
  }

  /** The totals still agree once one debt and the three totals covering it move together. */
  lemma TotalsMoveTogether(s: Storage, t: Storage, o: Account, e: nat, delta: int)
    requires DebtsAgree(s) && e in s.epochs && s.DebtOf(o, e) + delta >= 0
    requires t.debt == s.debt[(o, e) := s.DebtOf(o, e) + delta]
    requires t.outstanding == s.outstanding + delta
    requires forall p :: t.TotalDebtOf(p) == s.TotalDebtOf(p) + (if p == o then delta else 0)
    requires t.epochs.Keys == s.epochs.Keys
    requires forall d :: d in s.epochs ==>
               t.epochs[d].issued - t.epochs[d].repaid
               == s.epochs[d].issued - s.epochs[d].repaid + (if d == e then delta else 0)
    ensures DebtsAgree(t)
  {
    DebtMoves(s.debt, o, e, s.DebtOf(o, e) + delta);
    hide Sum;
  }

  lemma RequestEffect(cfg: Config, s: Storage, operator: Account, amount: nat)
    requires RequestCredit(cfg, s, operator, amount).Ok?
    ensures amount <= s.available && s.epochId in s.epochs
    ensures var t, e := RequestCredit(cfg, s, operator, amount).value, s.epochId;
            && t.epochId == e && t.epochs.Keys == s.epochs.Keys
            && t.available == s.available - amount
            && t.debt == s.debt[(operator, e) := SatAdd(s.DebtOf(operator, e), amount)]
            && t.outstanding == SatAdd(s.outstanding, amount)
            && t.epochs[e].keyRate == DynamicRate(cfg, t.outstanding)
            && (forall p :: t.TotalDebtOf(p) == if p == operator then SatAdd(s.TotalDebtOf(p), amount) else s.TotalDebtOf(p))
            && (forall d :: d in s.epochs ==>
                  && t.epochs[d].repaid == s.epochs[d].repaid
                  && t.epochs[d].issued == if d == e then SatAdd(s.epochs[d].issued, amount) else s.epochs[d].issued)
  {
    hide DynamicRate, Ledger.DepositCreating;
  }

  lemma RequestKeepsPool(cfg: Config, s: Storage, operator: Account, amount: nat)
    requires Pool(cfg, s) && HasRoom(s, Request(operator, amount)) && RequestCredit(cfg, s, operator, amount).Ok?
    ensures Pool(cfg, RequestCredit(cfg, s, operator, amount).value)
  {
    hide DynamicRate, RequestCredit, DebtsAgree;
    var t := RequestCredit(cfg, s, operator, amount).value;
    RequestEffect(cfg, s, operator, amount);
    OperatorWithinTotal(s, operator);
    if (operator, s.epochId) in s.debt { DebtWithinTotals(s, operator, s.epochId); }
    assert EpochsSound(t);
    hide EpochsSound;
    TotalsMoveTogether(s, t, operator, s.epochId, amount);
  }

  lemma RepayEffect(cfg: Config, s: Storage, operator: Account, e: nat, amount: nat)
    requires RepayCredit(cfg, s, operator, e, amount).Ok?
    ensures e in s.epochs && s.epochId in s.epochs && (operator, e) in s.debt && amount <= s.DebtOf(operator, e)
    ensures var t := RepayCredit(cfg, s, operator, e, amount).value;
            && t.epochId == s.epochId && t.epochs.Keys == s.epochs.Keys
            && t.available == Min(SatAdd(s.available, amount), cfg.limit)
            && t.debt == s.debt[(operator, e) := s.DebtOf(operator, e) - amount]
            && t.outstanding == SatSub(s.outstanding, amount)
            && t.epochs[s.epochId].keyRate == DynamicRate(cfg, t.outstanding)
            && (forall p :: t.TotalDebtOf(p) == if p == operator then SatSub(s.TotalDebtOf(p), amount) else s.TotalDebtOf(p))
            && (forall d :: d in s.epochs ==>
                  && t.epochs[d].issued == s.epochs[d].issued
                  && t.epochs[d].repaid == if d == e then SatAdd(s.epochs[d].repaid, amount) else s.epochs[d].repaid)
  {
    hide DynamicRate, Ledger.Burn;
  }

  /** Repayment: neither a subtraction nor the cap on the pool ever clips. */
  lemma RepayKeepsPool(cfg: Config, s: Storage, operator: Account, e: nat, amount: nat)
    requires Pool(cfg, s) && RepayCredit(cfg, s, operator, e, amount).Ok?
    ensures Pool(cfg, RepayCredit(cfg, s, operator, e, amount).value)
    ensures amount <= s.outstanding && amount <= s.TotalDebtOf(operator) && s.available + amount <= cfg.limit
  {
    hide DynamicRate, RepayCredit, DebtsAgree;
    var t := RepayCredit(cfg, s, operator, e, amount).value;
    RepayEffect(cfg, s, operator, e, amount);
    DebtWithinTotals(s, operator, e);
    assert EpochsSound(t) && t.available + t.outstanding == cfg.limit;
    hide EpochsSound;
    TotalsMoveTogether(s, t, operator, e, 0 - amount);
  }

  lemma NoDebtInNewEpoch(s: Storage, e: nat)
    requires forall k :: k in s.debt ==> k.1 != e
    ensures Sum(s.debt, OwedIn(e)) == 0
  {
    SumMonotone<(Account, nat), nat>(s.debt, OwedIn(e), Nothing);
    SumNonNegative<(Account, nat), nat>(s.debt, OwedIn(e));
    SumOfNothing(s.debt);
  }

  function Nothing(k: (Account, nat), v: nat): int { 0 }

  lemma {:induction false} SumOfNothing(debt: Debts)
    ensures Sum(debt, Nothing) == 0
    decreases |debt|
  {
    if debt != map[] {
      var k :| k in debt;
      SumSplit<(Account, nat), nat>(debt, Nothing, k);
      SumOfNothing(debt - {k});
    }
  }

  lemma TransitionKeepsPool(cfg: Config, s: Storage, now: nat)
    requires Pool(cfg, s)
    ensures Pool(cfg, TransitionEpoch(cfg, s, now))
  {
    NoDebtInNewEpoch(s, s.epochId + 1);
    hide DynamicRate, Sum;
  }

  lemma StepKeepsPool(cfg: Config, s: Storage, now: nat, call: Call)
    requires Pool(cfg, s) && HasRoom(s, call)
    ensures Pool(cfg, Step(cfg, s, now, call))
  {
    hide RequestCredit, RepayCredit, TransitionEpoch, DynamicRate, Sum,
         Ledger.Transfer, Ledger.Burn, Ledger.DepositCreating;
    if Dispatch(cfg, s, now, call).Ok? {
      match call
      case Request(operator, amount) => RequestKeepsPool(cfg, s, operator, amount);
      case Repay(operator, epoch, amount) => RepayKeepsPool(cfg, s, operator, epoch, amount);
      case NextEpoch => TransitionKeepsPool(cfg, s, now);
      case _ =>
    }
  }

  ghost predicate AllHaveRoom(cfg: Config, s: Storage, calls: seq<Timed>)
    decreases |calls|
  {
    calls == [] || (HasRoom(s, calls[0].call) && AllHaveRoom(cfg, Step(cfg, s, calls[0].now, calls[0].call), calls[1..]))
  }

  /** A run cut short before its call number `i`. */
  function Before(cfg: Config, s: Storage, calls: seq<Timed>, i: nat): Storage
    requires i <= |calls|
  {
    Run(cfg, s, calls[..i])
  }

  lemma {:induction false} RunAppend(cfg: Config, s: Storage, calls: seq<Timed>, last: Timed)
    ensures Run(cfg, s, calls + [last]) == Step(cfg, Run(cfg, s, calls), last.now, last.call)
    decreases |calls|
  {
    if calls == [] {
      assert ([last])[1..] == [];
    } else {
      assert (calls + [last])[1..] == calls[1..] + [last];
      hide Step;
      RunAppend(cfg, Step(cfg, s, calls[0].now, calls[0].call), calls[1..], last);
    }
  }

  lemma BeforeNext(cfg: Config, s: Storage, calls: seq<Timed>, i: nat)
    requires i < |calls|
    ensures Before(cfg, s, calls, i + 1) == Step(cfg, Before(cfg, s, calls, i), calls[i].now, calls[i].call)
  {
    assert calls[..i + 1] == calls[..i] + [calls[i]];
    RunAppend(cfg, s, calls[..i], calls[i]);
  }

  lemma {:induction false} RoomBefore(cfg: Config, s: Storage, calls: seq<Timed>, i: nat)
    requires i <= |calls| && AllHaveRoom(cfg, s, calls)
    ensures AllHaveRoom(cfg, s, calls[..i])
    decreases i
  {
    if i > 0 {
      assert calls[..i][1..] == calls[1..][..i - 1];
      hide Step, HasRoom;
      RoomBefore(cfg, Step(cfg, s, calls[0].now, calls[0].call), calls[1..], i - 1);
    }
  }

  /** In every run the pool is conserved, every total agrees with the debts behind it, and the
      current epoch carries the rate of the curve. */
  lemma {:induction false} PoolIsConserved(cfg: Config, s: Storage, calls: seq<Timed>)
    requires Pool(cfg, s) && AllHaveRoom(cfg, s, calls)
    ensures Pool(cfg, Run(cfg, s, calls))
    decreases |calls|
  {
    if calls != [] {
      StepKeepsPool(cfg, s, calls[0].now, calls[0].call);
      hide Pool, Step;
      PoolIsConserved(cfg, Step(cfg, s, calls[0].now, calls[0].call), calls[1..]);
    }
  }

  lemma GenesisPool(cfg: Config, ledger: Ledger, licensed: set<Account>)
    requires ledger.Balanced()
    ensures Pool(cfg, Genesis(cfg, ledger, licensed)) && Supply(Genesis(cfg, ledger, licensed), ledger.issuance)
  {}

  /** Only a licensed operator's own request ever raises a debt. */
  lemma DebtGrowsByLicensedRequest(cfg: Config, s: Storage, now: nat, call: Call, o: Account)
    requires Step(cfg, s, now, call).TotalDebtOf(o) > s.TotalDebtOf(o)
    ensures call == Request(o, call.amount) && o in s.licensed && call.amount <= s.available
    ensures Step(cfg, s, now, call).TotalDebtOf(o) <= s.TotalDebtOf(o) + call.amount
  {
    hide DynamicRate, Ledger.Transfer, Ledger.Burn, Ledger.DepositCreating;
  }

  // ================================================================ money supply

  /** Issuance is the opening supply, plus everything emitted, less everything burned, plus the
      credit still outstanding. */
  ghost predicate Supply(s: Storage, base: nat) {
    s.ledger.Balanced() && s.ledger.issuance + s.burned == base + s.emitted + s.outstanding
  }

  predicate MintLands(s: Storage, call: Call) {
    && (call.Mint? ==> s.ledger.Lands(call.operator, call.amount))
    && (call.Request? ==> s.ledger.Lands(call.operator, call.amount))
    && (call.GenesisGrant? ==> s.ledger.Lands(call.citizen, GENESIS_GRANT))
  }

  lemma StepKeepsSupply(cfg: Config, s: Storage, base: nat, now: nat, call: Call)
    requires Pool(cfg, s) && Supply(s, base) && MintLands(s, call)
    ensures Supply(Step(cfg, s, now, call), base)
  {
    hide DynamicRate, DebtsAgree, Sum;
    if Dispatch(cfg, s, now, call).Ok? {
      match call
      case Mint(operator, amount) => DepositConserves(s.ledger, operator, amount);
      case Burn(operator, amount) => BurnConserves(s.ledger, operator, amount);
      case Request(operator, amount) => DepositConserves(s.ledger, operator, amount);
      case Repay(operator, epoch, amount) =>
        RepayKeepsPool(cfg, s, operator, epoch, amount);
        BurnConserves(s.ledger, operator, amount);
      case GenesisGrant(citizen, _) => DepositConserves(s.ledger, citizen, GENESIS_GRANT);
      case Foreign(from, to, amount) => TransferConserves(s.ledger, from, to, amount, KeepAlive);
      case _ =>
    }
  }

  ghost predicate AllLand(cfg: Config, s: Storage, calls: seq<Timed>)
    decreases |calls|
  {
    calls == [] || (MintLands(s, calls[0].call) && AllLand(cfg, Step(cfg, s, calls[0].now, calls[0].call), calls[1..]))
  }

  lemma {:induction false} SupplyIsAccountedFor(cfg: Config, s: Storage, base: nat, calls: seq<Timed>)
    requires Pool(cfg, s) && Supply(s, base) && AllHaveRoom(cfg, s, calls) && AllLand(cfg, s, calls)
    ensures var t := Run(cfg, s, calls);
            && Pool(cfg, t) && Supply(t, base)
            && t.ledger.issuance <= base + t.emitted + cfg.limit
    decreases |calls|
  {
    if calls != [] {
      StepKeepsPool(cfg, s, calls[0].now, calls[0].call);
      StepKeepsSupply(cfg, s, base, calls[0].now, calls[0].call);
      hide Pool, Supply, Step;
      SupplyIsAccountedFor(cfg, Step(cfg, s, calls[0].now, calls[0].call), base, calls[1..]);
    }
  }

  // ================================================================ the try-state checks

  /** The pool checks and the epoch check hold in every reachable state; seen from the ledger, the
      emission check holds there exactly when burning has not eaten into the opening supply or the
      lent credit. */
  lemma TryStateExactly(cfg: Config, s: Storage, base: nat)
    requires Pool(cfg, s) && Supply(s, base)
    ensures PoolWithinLimit(cfg, s) && s.epochId > 0
    ensures TryState(cfg, s) <==> s.ledger.issuance >= base + s.outstanding
  {
    hide DynamicRate, Sum, Ledger.Balanced;
  }

  /** A burn that its operator can afford and that takes the burned total past the emitted one. */
  predicate Overburns(s: Storage, call: Call) {
    && call.Burn? && call.amount > 0 && call.operator in s.licensed
    && s.ledger.Free(call.operator) >= call.amount + s.ledger.ed
    && s.emitted < s.burned + call.amount <= U128_MAX
  }

  /** From a state that passes the emission check, a call breaks it exactly when it is such a burn. */
  lemma EmissionCheckBreaksExactly(cfg: Config, s: Storage, now: nat, call: Call)
    requires EmissionCovered(s)
    ensures !EmissionCovered(Step(cfg, s, now, call)) <==> Overburns(s, call)
  {
    hide DynamicRate, Ledger.Transfer, Ledger.DepositCreating;
  }

  lemma {:induction false} CoveredUpTo(cfg: Config, s: Storage, calls: seq<Timed>, n: nat)
    requires EmissionCovered(s) && n <= |calls|
    ensures (forall i :: 0 <= i <= n ==> EmissionCovered(Before(cfg, s, calls, i)))
            <==> (forall i :: 0 <= i < n ==> !Overburns(Before(cfg, s, calls, i), calls[i].call))
  {
    if n > 0 {
      CoveredUpTo(cfg, s, calls, n - 1);
      BeforeNext(cfg, s, calls, n - 1);
      if EmissionCovered(Before(cfg, s, calls, n - 1)) {
        EmissionCheckBreaksExactly(cfg, Before(cfg, s, calls, n - 1), calls[n - 1].now, calls[n - 1].call);
      }
    }
    hide Before, EmissionCovered, Overburns, Step;
  }

  lemma {:induction false} PoolBefore(cfg: Config, s: Storage, calls: seq<Timed>, i: nat)
    requires Pool(cfg, s) && AllHaveRoom(cfg, s, calls) && i <= |calls|
    ensures Pool(cfg, Before(cfg, s, calls, i))
  {
    RoomBefore(cfg, s, calls, i);
    PoolIsConserved(cfg, s, calls[..i]);
  }

  /** `try_state` passes after every call of a run exactly when no call of it overburns. */
  lemma {:induction false} TryStateHoldsThroughout(cfg: Config, s: Storage, calls: seq<Timed>)
    requires Pool(cfg, s) && EmissionCovered(s) && AllHaveRoom(cfg, s, calls)
    ensures (forall i :: 0 <= i <= |calls| ==> TryState(cfg, Before(cfg, s, calls, i)))
            <==> (forall i :: 0 <= i < |calls| ==> !Overburns(Before(cfg, s, calls, i), calls[i].call))
  {
    CoveredUpTo(cfg, s, calls, |calls|);
    forall i | 0 <= i <= |calls|
      ensures TryState(cfg, Before(cfg, s, calls, i)) <==> EmissionCovered(Before(cfg, s, calls, i))
    {
      PoolBefore(cfg, s, calls, i);
      hide Before, DebtsAgree, DynamicRate;
    }
    hide Before, EmissionCovered, Overburns, TryState;
  }

  /** The emission check can fail: an operator burns credit that was never counted as emitted. */
  lemma EmissionCheckCanFail(cfg: Config)
    requires cfg.limit >= 100
    ensures var s := Genesis(cfg, Ledger(map[7 := 50], 50, 1), {7});
            var t := Run(cfg, s, [At(1, Request(7, 100)), At(2, Burn(7, 60))]);
            t.burned == 60 && t.emitted == 0 && !TryState(cfg, t)
  {
    var s := Genesis(cfg, Ledger(map[7 := 50], 50, 1), {7});
    var calls := [At(1, Request(7, 100)), At(2, Burn(7, 60))];
    hide DynamicRate;
    var t := Step(cfg, s, 1, Request(7, 100));
    var u := Step(cfg, t, 2, Burn(7, 60));
    assert calls[1..] == [At(2, Burn(7, 60))];
    assert Run(cfg, s, calls) == Run(cfg, t, calls[1..]);
    assert Run(cfg, t, calls[1..]) == Run(cfg, u, calls[1..][1..]);
    assert calls[1..][1..] == [];
  }

  // ================================================================ history

  /** A repayment against epoch `e` that its operator owes and can afford. */
  predicate RepaysAgainst(s: Storage, call: Call, e: nat) {
    && call.Repay? && call.epoch == e
    && 0 < call.amount <= s.DebtOf(call.operator, e)
    && s.ledger.Free(call.operator) >= call.amount + s.ledger.ed
  }

  lemma RepaymentSucceedsExactly(cfg: Config, s: Storage, now: nat, call: Call)
    requires Pool(cfg, s) && call.Repay?
    ensures Dispatch(cfg, s, now, call).Ok? <==> RepaysAgainst(s, call, call.epoch)
  {
    hide DynamicRate, DebtsAgree;
  }

  lemma RepayKeepsHistory(cfg: Config, s: Storage, operator: Account, d: nat, amount: nat, e: nat)
    requires Pool(cfg, s) && RepayCredit(cfg, s, operator, d, amount).Ok? && 1 <= e < s.epochId
    ensures var t := RepayCredit(cfg, s, operator, d, amount).value;
            && t.epochId == s.epochId && e in s.epochs && e in t.epochs
            && t.epochs[e] == s.epochs[e].(repaid := s.epochs[e].repaid + (if d == e then amount else 0))
  {
    DebtWithinTotals(s, operator, d);
    OwedWithinWidth(s, d);
    hide DynamicRate, Ledger.Burn, DebtsAgree;
  }

  /** What is repaid against an epoch stays below what was issued in it. */
  lemma OwedWithinWidth(s: Storage, e: nat)
    requires DebtsAgree(s) && e in s.epochs
    ensures s.epochs[e].repaid <= s.epochs[e].issued
  {
    SumNonNegative<(Account, nat), nat>(s.debt, OwedIn(e));
  }

  /** The record of a closed epoch changes in a call exactly when that call repays against it, and
      then only by the amount repaid. */
  lemma ClosedEpochChangesExactly(cfg: Config, s: Storage, now: nat, call: Call, e: nat)
    requires Pool(cfg, s) && 1 <= e < s.epochId
    ensures var t := Step(cfg, s, now, call);
            && e < t.epochId && e in s.epochs && e in t.epochs
            && (t.epochs[e] != s.epochs[e] <==> RepaysAgainst(s, call, e))
            && t.epochs[e] == s.epochs[e].(repaid := s.epochs[e].repaid + (if RepaysAgainst(s, call, e) then call.amount else 0))
  {
    hide RepayCredit, DynamicRate, DebtsAgree, Ledger.Transfer, Ledger.Burn, Ledger.DepositCreating;
    if call.Repay? {
      hide RequestCredit, MintToOperator, BurnFromOperator;
      RepaymentSucceedsExactly(cfg, s, now, call);
      if Dispatch(cfg, s, now, call).Ok? {
        RepayKeepsHistory(cfg, s, call.operator, call.epoch, call.amount, e);
      }
    } else {
      hide RepaysAgainst;
      OtherCallKeepsHistory(cfg, s, now, call, e);
      hide Step, Pool;
      assert !RepaysAgainst(s, call, e);
    }
  }

  lemma OtherCallKeepsHistory(cfg: Config, s: Storage, now: nat, call: Call, e: nat)
    requires Pool(cfg, s) && !call.Repay? && 1 <= e < s.epochId
    ensures var t := Step(cfg, s, now, call); e < t.epochId && e in s.epochs && e in t.epochs && t.epochs[e] == s.epochs[e]
    ensures !RepaysAgainst(s, call, e)
  {
    hide DynamicRate, DebtsAgree, Ledger.Transfer, Ledger.Burn, Ledger.DepositCreating;
  }

  /** What a run repays against an epoch. */
  function RepaidIn(cfg: Config, s: Storage, calls: seq<Timed>, e: nat): nat {
    if calls == [] then 0
    else
      var n := |calls| - 1;
      RepaidIn(cfg, s, calls[..n], e)
      + (if RepaysAgainst(Before(cfg, s, calls, n), calls[n].call, e) then calls[n].call.amount else 0)
  }

  /** A closed epoch keeps its start, rate, issued total and limit for ever, and its repaid total
      grows by exactly what the run repays against it. */
  lemma {:induction false} ClosedEpochsKeepTheirTerms(cfg: Config, s: Storage, calls: seq<Timed>, e: nat)
    requires Pool(cfg, s) && AllHaveRoom(cfg, s, calls) && 1 <= e < s.epochId
    ensures e in s.epochs && e in Run(cfg, s, calls).epochs && e < Run(cfg, s, calls).epochId
    ensures Run(cfg, s, calls).epochs[e] == s.epochs[e].(repaid := s.epochs[e].repaid + RepaidIn(cfg, s, calls, e))
    decreases |calls|
  {
    if calls != [] {
      var n := |calls| - 1;
      RoomBefore(cfg, s, calls, n);
      ClosedEpochsKeepTheirTerms(cfg, s, calls[..n], e);
      PoolBefore(cfg, s, calls, n);
      BeforeNext(cfg, s, calls, n);
      assert calls[..|calls|] == calls;
      ClosedEpochChangesExactly(cfg, Before(cfg, s, calls, n), calls[n].now, calls[n].call, e);
      hide Pool, Step, Run, RepaysAgainst;
    }
  }

  lemma {:induction false} RepaidInPositive(cfg: Config, s: Storage, calls: seq<Timed>, e: nat)
    ensures RepaidIn(cfg, s, calls, e) > 0
            <==> exists i :: 0 <= i < |calls| && RepaysAgainst(Before(cfg, s, calls, i), calls[i].call, e)
    decreases |calls|
  {
    if calls != [] {
      var n := |calls| - 1;
      RepaidInPositive(cfg, s, calls[..n], e);
      forall i | 0 <= i < n ensures Before(cfg, s, calls[..n], i) == Before(cfg, s, calls, i) {
        assert calls[..n][..i] == calls[..i];
      }
      hide Before;
    }
  }

  /** Closed epochs are not immutable: over a run the record of one changes exactly when some call
      of the run repays against it. */
  lemma {:induction false} ClosedEpochChangesInRunExactly(cfg: Config, s: Storage, calls: seq<Timed>, e: nat)
    requires Pool(cfg, s) && AllHaveRoom(cfg, s, calls) && 1 <= e < s.epochId
    ensures e in s.epochs && e in Run(cfg, s, calls).epochs
    ensures Run(cfg, s, calls).epochs[e] != s.epochs[e]
            <==> exists i :: 0 <= i < |calls| && RepaysAgainst(Before(cfg, s, calls, i), calls[i].call, e)
  {
    ClosedEpochsKeepTheirTerms(cfg, s, calls, e);
    RepaidInPositive(cfg, s, calls, e);
  }

  /** ... and such a run exists: credit of the first epoch is repaid once the second has begun. */
  lemma ClosedEpochCanChange(cfg: Config)
    requires cfg.limit >= 100
    ensures var s := Genesis(cfg, Ledger(map[7 := 50], 50, 1), {7});
            var calls := [At(1, Request(7, 100)), At(2, NextEpoch), At(3, Repay(7, 1, 60))];
            var closed, after := Before(cfg, s, calls, 2), Before(cfg, s, calls, 3);
            && closed.epochId == after.epochId == 2 && 1 in closed.epochs && 1 in after.epochs
            && closed.epochs[1].repaid == 0 && after.epochs[1].repaid == 60
  {
    var s := Genesis(cfg, Ledger(map[7 := 50], 50, 1), {7});
    var calls := [At(1, Request(7, 100)), At(2, NextEpoch), At(3, Repay(7, 1, 60))];
    BeforeNext(cfg, s, calls, 0);
    BeforeNext(cfg, s, calls, 1);
    BeforeNext(cfg, s, calls, 2);
    assert Before(cfg, s, calls, 0) == s;
    hide DynamicRate, Before;
  }

  // ================================================================ the rate curve

  lemma UtilizationMonotone(cfg: Config, a: nat, b: nat)
    requires 0 < cfg.limit && a <= b <= cfg.limit
    ensures Utilization(cfg, a) <= Utilization(cfg, b) <= 100
  {
    DivMonotone(SatMul(a, 100), SatMul(b, 100), cfg.limit);
    DivMonotone(SatMul(b, 100), 100 * cfg.limit, cfg.limit);
    DivisionUnique(100 * cfg.limit, cfg.limit, 100, 0);
  }

  lemma ShareMonotone(p: nat, q: nat, rate: nat, whole: nat)
    requires p <= q && whole > 0
    ensures Share(p, rate, whole) <= Share(q, rate, whole)
  {
    MulMonotone(p, q, rate, rate);
    DivMonotone(Sat32(p * rate), Sat32(q * rate), whole);
  }

  /** A part never earns more than the full rate. */
  lemma ShareWithinRate(p: nat, rate: nat, whole: nat)
    requires p <= whole && whole > 0
    ensures Share(p, rate, whole) <= Sat32(rate)
  {
    MulMonotone(p, whole, rate, rate);
    MulAtLeast(U32_MAX, whole);
    assert Sat32(p * rate) <= whole * Sat32(rate) by {
      assert whole * Sat32(rate) == whole * rate || whole * Sat32(rate) == U32_MAX * whole;
    }
    DivMonotone(Sat32(p * rate), whole * Sat32(rate), whole);
    DivisionUnique(whole * Sat32(rate), whole, Sat32(rate), 0);
  }

  lemma RateMonotone(cfg: Config, p: nat, q: nat)
    requires p <= q <= 100
    ensures RateAt(cfg, p) <= RateAt(cfg, q)
  {
    var u, spread := cfg.optimalUtilization, SatSub(cfg.maxRate, cfg.optimalRate);
    if q <= u {
      ShareMonotone(p, q, cfg.optimalRate, u);
    } else if p <= u {
      ShareWithinRate(p, cfg.optimalRate, u);
    } else {
      ShareMonotone(p - u, q - u, spread, 100 - u);
    }
    hide Share;
  }

  /** The curve meets the optimal rate at the optimal utilisation and the protective maximum at full
      use, and never exceeds that maximum. */
  lemma RateAtEnds(cfg: Config)
    requires cfg.optimalUtilization < 100 && cfg.optimalRate <= cfg.maxRate && 100 * cfg.maxRate <= U32_MAX
    ensures RateAt(cfg, 100) == cfg.maxRate && RateAt(cfg, cfg.optimalUtilization) == cfg.optimalRate
    ensures forall p :: 0 <= p <= 100 ==> RateAt(cfg, p) <= cfg.maxRate
  {
    var u := cfg.optimalUtilization;
    MulMonotone(u, 100, cfg.optimalRate, cfg.maxRate);
    MulMonotone(100 - u, 100, cfg.maxRate - cfg.optimalRate, cfg.maxRate);
    DivisionUnique(u * cfg.optimalRate, u, cfg.optimalRate, 0);
    DivisionUnique((100 - u) * (cfg.maxRate - cfg.optimalRate), 100 - u, cfg.maxRate - cfg.optimalRate, 0);
    forall p | 0 <= p <= 100 ensures RateAt(cfg, p) <= RateAt(cfg, 100) {
      RateMonotone(cfg, p, 100);
    }
  }

  /** More credit out never means a lower rate. */
  lemma RateFollowsUtilization(cfg: Config, a: nat, b: nat)
    requires a <= b <= cfg.limit
    ensures DynamicRate(cfg, a) <= DynamicRate(cfg, b)
  {
    if cfg.limit > 0 {
      UtilizationMonotone(cfg, a, b);
      RateMonotone(cfg, Utilization(cfg, a), Utilization(cfg, b));
    }
  }

  /** The documented ceiling: a base rate bounds the dynamic rate at every level of lending exactly
      when it is the protective maximum, the largest base rate that can be set. */
  lemma BaseRateBoundsExactly(cfg: Config, base: nat)
    requires cfg.optimalUtilization < 100 && cfg.optimalRate <= cfg.maxRate && 100 * cfg.maxRate <= U32_MAX
    requires 0 < cfg.limit && 100 * cfg.limit <= U128_MAX && base <= cfg.maxRate
    ensures (forall o :: 0 <= o <= cfg.limit ==> DynamicRate(cfg, o) <= base) <==> base == cfg.maxRate
  {
    RateAtEnds(cfg);
    DivisionUnique(100 * cfg.limit, cfg.limit, 100, 0);
    assert DynamicRate(cfg, cfg.limit) == cfg.maxRate;
    forall o | 0 <= o <= cfg.limit ensures DynamicRate(cfg, o) <= cfg.maxRate {
      RateFollowsUtilization(cfg, o, cfg.limit);
    }
    hide DynamicRate;
  }

  /** The ceiling fails in a one-call run: the whole pool is lent while the base rate is still the
      one set at genesis. */
  lemma BaseRateCanBeExceeded()
    ensures var cfg := Parameters(100, 500, 5_000, 80);
            var s := Genesis(cfg, Ledger(map[7 := 50], 50, 1), {7});
            var t := Run(cfg, s, [At(1, Request(7, 100))]);
            1 in t.epochs && t.epochId == 1 && t.baseRate == 500 && t.epochs[1].keyRate == 5_000
  {
    var cfg := Parameters(100, 500, 5_000, 80);
    var s := Genesis(cfg, Ledger(map[7 := 50], 50, 1), {7});
    RateAtEnds(cfg);
    assert DynamicRate(cfg, 100) == 5_000;
    hide DynamicRate;
    var calls := [At(1, Request(7, 100))];
    assert Run(cfg, s, calls) == Run(cfg, Step(cfg, s, 1, Request(7, 100)), calls[1..]);
    assert calls[1..] == [];
  }

  /** Equal but for the base rate. */
  predicate Alike(s: Storage, u: Storage) { u == s.(baseRate := u.baseRate) }

  lemma RequestKeepsAlike(cfg: Config, s: Storage, u: Storage, operator: Account, amount: nat)
    requires Alike(s, u)
    ensures match RequestCredit(cfg, s, operator, amount)
            case Ok(t) => RequestCredit(cfg, u, operator, amount).Ok? && Alike(t, RequestCredit(cfg, u, operator, amount).value)
            case Err(_) => RequestCredit(cfg, u, operator, amount).Err?
  {
    hide DynamicRate, Ledger.DepositCreating, SatAdd;
    assert s.DebtOf(operator, s.epochId) == u.DebtOf(operator, s.epochId) && s.TotalDebtOf(operator) == u.TotalDebtOf(operator);
    hide Storage.DebtOf, Storage.TotalDebtOf;
  }

  lemma RepayKeepsAlike(cfg: Config, s: Storage, u: Storage, operator: Account, e: nat, amount: nat)
    requires Alike(s, u)
    ensures match RepayCredit(cfg, s, operator, e, amount)
            case Ok(t) => RepayCredit(cfg, u, operator, e, amount).Ok? && Alike(t, RepayCredit(cfg, u, operator, e, amount).value)
            case Err(_) => RepayCredit(cfg, u, operator, e, amount).Err?
  {
    hide DynamicRate, Ledger.Burn, Ledger.Free, SatAdd, SatSub, Min;
    assert s.DebtOf(operator, e) == u.DebtOf(operator, e) && s.TotalDebtOf(operator) == u.TotalDebtOf(operator);
    hide Storage.DebtOf, Storage.TotalDebtOf;
  }

  lemma StepKeepsAlike(cfg: Config, s: Storage, u: Storage, now: nat, call: Call)
    requires Alike(s, u)
    ensures Alike(Step(cfg, s, now, call), Step(cfg, u, now, call))
  {
    hide RequestCredit, RepayCredit, DynamicRate, Ledger.Transfer, Ledger.Burn, Ledger.DepositCreating;
    match call
    case Request(operator, amount) => RequestKeepsAlike(cfg, s, u, operator, amount);
    case Repay(operator, e, amount) => RepayKeepsAlike(cfg, s, u, operator, e, amount);
    case _ =>
  }

  /** Setting the base rate changes no later outcome: two runs that differ in nothing but the base
      rate they start from agree on every other storage item for ever. */
  lemma {:induction false} BaseRateInfluencesNothing(cfg: Config, s: Storage, u: Storage, calls: seq<Timed>)
    requires Alike(s, u)
    ensures Alike(Run(cfg, s, calls), Run(cfg, u, calls))
    decreases |calls|
  {
    if calls != [] {
      var At(now, call) := calls[0];
      StepKeepsAlike(cfg, s, u, now, call);
      hide Step, Alike;
      BaseRateInfluencesNothing(cfg, Step(cfg, s, now, call), Step(cfg, u, now, call), calls[1..]);
    }
  }

  // ================================================================ the pool migration

  /** On an uninitialised pool the migration restores conservation, and with it the pool checks,
      exactly when the credit outstanding over all epochs fits the limit. */
  lemma InitRestoresPoolExactly(cfg: Config, s: Storage)
    requires s.available == 0
    ensures var t := InitCreditPool(cfg, s);
            && t.outstanding == EpochOutstanding(s)
            && (t.available + t.outstanding == cfg.limit <==> EpochOutstanding(s) <= cfg.limit)
            && (PoolWithinLimit(cfg, t) <==> EpochOutstanding(s) <= cfg.limit)
  {
    EpochOutstandingFits(s);
  }

  lemma EpochOutstandingFits(s: Storage)
    ensures EpochOutstanding(s) <= U128_MAX
  {
    IssuedFits(s.epochs, s.epochId);
  }

  lemma {:induction false} IssuedFits(epochs: map<nat, Epoch>, n: nat)
    ensures IssuedUpTo(epochs, n) <= U128_MAX
  {
    if n > 0 { IssuedFits(epochs, n - 1); }
  }

  lemma InitIdempotent(cfg: Config, s: Storage)
    ensures InitCreditPool(cfg, InitCreditPool(cfg, s)) == InitCreditPool(cfg, s)
  {}

  /** Plain, unsaturated totals over the epochs. */
  function PlainIssued(epochs: map<nat, Epoch>, n: nat): nat {
    if n == 0 then 0 else PlainIssued(epochs, n - 1) + if n in epochs then epochs[n].issued else 0
  }

  function OwedUpTo(n: nat): ((Account, nat), nat) -> int {
    (k: (Account, nat), v: nat) => if 1 <= k.1 <= n then v else 0
  }

  function PlainRepaid(epochs: map<nat, Epoch>, n: nat): nat {
    if n == 0 then 0 else PlainRepaid(epochs, n - 1) + if n in epochs then epochs[n].repaid else 0
  }

  /** Adding up with saturation is adding up and clipping once. */
  lemma {:induction false} SaturatesOnce(epochs: map<nat, Epoch>, n: nat)
    ensures IssuedUpTo(epochs, n) == Min(PlainIssued(epochs, n), U128_MAX)
    ensures RepaidUpTo(epochs, n) == Min(PlainRepaid(epochs, n), U128_MAX)
  {
    if n > 0 { SaturatesOnce(epochs, n - 1); }
  }

  /** Over all epochs, what was issued and not repaid is what is owed. */
  lemma {:induction false} EpochTotals(s: Storage, n: nat)
    requires EpochsSound(s) && DebtsAgree(s) && n <= s.epochId
    ensures PlainIssued(s.epochs, n) - PlainRepaid(s.epochs, n) == Sum(s.debt, OwedUpTo(n)) >= 0
  {
    SumNonNegative<(Account, nat), nat>(s.debt, OwedUpTo(n));
    if n == 0 {
      SumMonotone<(Account, nat), nat>(s.debt, OwedUpTo(0), Nothing);
      SumOfNothing(s.debt);
    } else {
      EpochTotals(s, n - 1);
      SumAdd<(Account, nat), nat>(s.debt, OwedUpTo(n - 1), OwedIn(n), OwedUpTo(n));
    }
  }

  /** On a state the live pallet reaches the migration changes nothing, even when the pool is
      exhausted and so looks uninitialised, unless all credit ever issued has outgrown 128 bits: then,
      and only then, it rewrites an exhausted pool. */
  lemma InitLeavesLivePoolAlone(cfg: Config, s: Storage)
    requires Pool(cfg, s)
    ensures InitCreditPool(cfg, s) == s
            <==> s.available != 0 || cfg.limit == 0 || PlainIssued(s.epochs, s.epochId) <= U128_MAX
  {
    EpochTotals(s, s.epochId);
    SumMonotone<(Account, nat), nat>(s.debt, OwedUpTo(s.epochId), Owed);
    SumMonotone<(Account, nat), nat>(s.debt, Owed, OwedUpTo(s.epochId));
    SaturatesOnce(s.epochs, s.epochId);
    hide DynamicRate, DebtsAgree, EpochsSound, Sum, PlainIssued, PlainRepaid, IssuedUpTo, RepaidUpTo;
  }

  const HALF_WIDTH: nat := 0x8000_0000_0000_0000_0000_0000_0000_0000

  /** The whole pool lent, repaid, and lent again in the next epoch. */
  function LentTwice(limit: nat): seq<Timed> {
    [At(1, Request(7, limit)), At(2, Repay(7, 1, limit)), At(3, NextEpoch), At(4, Request(7, limit))]
  }

  /** Operator 7 holds 50 of its own, owes nothing, and the whole pool is available. */
  ghost predicate PoolFull(cfg: Config, s: Storage) {
    && 7 in s.licensed && s.available == cfg.limit && s.outstanding == 0 && s.epochId in s.epochs
    && s.DebtOf(7, s.epochId) == s.epochs[s.epochId].repaid == s.epochs[s.epochId].issued == 0
    && s.ledger.Free(7) == s.ledger.issuance == 50 && s.ledger.ed == 1
  }

  lemma LendAll(cfg: Config, s: Storage, now: nat)
    requires cfg.limit == HALF_WIDTH && PoolFull(cfg, s)
    ensures var t, e := Step(cfg, s, now, Request(7, cfg.limit)), s.epochId;
            && t.available == 0 && t.outstanding == cfg.limit && t.licensed == s.licensed && t.epochId == e
            && e in t.epochs && t.epochs == s.epochs[e := t.epochs[e]]
            && t.epochs[e].issued == cfg.limit && t.epochs[e].repaid == 0
            && t.DebtOf(7, e) == cfg.limit && (forall d :: d != e ==> t.DebtOf(7, d) == s.DebtOf(7, d))
            && t.ledger.Free(7) == t.ledger.issuance == 50 + cfg.limit && t.ledger.ed == 1
  {
    hide DynamicRate;
  }

  lemma RepayAll(cfg: Config, s: Storage, now: nat)
    requires cfg.limit == HALF_WIDTH && s.epochId == 1 && s.epochs.Keys == {1} && 7 in s.licensed
    requires s.available == 0 && s.outstanding == s.DebtOf(7, 1) == s.epochs[1].issued == cfg.limit && s.epochs[1].repaid == 0
    requires s.ledger.Free(7) == s.ledger.issuance == 50 + cfg.limit && s.ledger.ed == 1
    ensures var t := Step(cfg, s, now, Repay(7, 1, cfg.limit));
            && t.available == cfg.limit && t.outstanding == 0 && t.licensed == s.licensed && t.epochId == 1
            && t.epochs.Keys == {1} && t.epochs[1].issued == t.epochs[1].repaid == cfg.limit
            && (forall d :: d != 1 ==> t.DebtOf(7, d) == s.DebtOf(7, d))
            && t.ledger.Free(7) == t.ledger.issuance == 50 && t.ledger.ed == 1
  {
    hide DynamicRate;
  }

  lemma FourCalls(cfg: Config, s: Storage, a: Timed, b: Timed, c: Timed, d: Timed)
    ensures var t := Step(cfg, s, a.now, a.call);
            var u := Step(cfg, t, b.now, b.call);
            var v := Step(cfg, u, c.now, c.call);
            Run(cfg, s, [a, b, c, d]) == Step(cfg, v, d.now, d.call)
  {
    hide Step;
    assert [a, b, c, d] == [a] + [b] + [c] + [d] && [] + [a] == [a];
    RunAppend(cfg, s, [], a);
    RunAppend(cfg, s, [a], b);
    RunAppend(cfg, s, [a] + [b], c);
    RunAppend(cfg, s, [a] + [b] + [c], d);
  }

  lemma NextEpochOpens(cfg: Config, s: Storage, now: nat)
    requires s.epochId == 1 && s.epochs.Keys == {1}
    ensures var t := Step(cfg, s, now, NextEpoch);
            && t == s.(epochId := 2, epochs := t.epochs) && t.epochs.Keys == {1, 2}
            && t.epochs[1] == s.epochs[1] && t.epochs[2].issued == t.epochs[2].repaid == 0
  {
    hide DynamicRate;
  }

  lemma LentTwiceRun(cfg: Config) returns (t: Storage)
    requires cfg.limit == HALF_WIDTH
    ensures t == Run(cfg, Genesis(cfg, Ledger(map[7 := 50], 50, 1), {7}), LentTwice(cfg.limit))
    ensures t.available == 0 && t.outstanding == cfg.limit && t.epochId == 2 && t.epochs.Keys == {1, 2}
    ensures t.epochs[1].issued == t.epochs[1].repaid == t.epochs[2].issued == cfg.limit && t.epochs[2].repaid == 0
  {
    var s, calls := Genesis(cfg, Ledger(map[7 := 50], 50, 1), {7}), LentTwice(cfg.limit);
    FourCalls(cfg, s, calls[0], calls[1], calls[2], calls[3]);
    assert PoolFull(cfg, s) && s.epochId == 1 && s.epochs.Keys == {1} && s.DebtOf(7, 2) == 0;
    hide Step, Run, Genesis, DynamicRate;
    LendAll(cfg, s, 1);
    var lent := Step(cfg, s, 1, calls[0].call);
    RepayAll(cfg, lent, 2);
    var repaid := Step(cfg, lent, 2, calls[1].call);
    NextEpochOpens(cfg, repaid, 3);
    var second := Step(cfg, repaid, 3, NextEpoch);
    LendAll(cfg, second, 4);
    t := Step(cfg, second, 4, calls[3].call);
  }

  /** A live pool that the migration does rewrite: with a limit of half the width, credit issued over
      two epochs outgrows 128 bits, and the migration finds one planck that is not there. */
  lemma InitCanRewriteLivePool(cfg: Config)
    requires cfg.limit == HALF_WIDTH
    ensures var t := Run(cfg, Genesis(cfg, Ledger(map[7 := 50], 50, 1), {7}), LentTwice(cfg.limit));
            && t.available == 0 && t.outstanding == cfg.limit
            && InitCreditPool(cfg, t).available == 1 && InitCreditPool(cfg, t).outstanding == cfg.limit - 1
  {
    var t := LentTwiceRun(cfg);
    assert IssuedUpTo(t.epochs, 0) == RepaidUpTo(t.epochs, 0) == 0;
    assert IssuedUpTo(t.epochs, 1) == RepaidUpTo(t.epochs, 1) == cfg.limit;
    assert IssuedUpTo(t.epochs, 2) == U128_MAX && RepaidUpTo(t.epochs, 2) == cfg.limit;
    hide Run, Genesis, LentTwice;
  }

  // ================================================================ every run at once

  /** From genesis, over every run in which credit has room and mints land. */
  lemma {:induction false} EveryRunFromGenesis(cfg: Config, ledger: Ledger, licensed: set<Account>, calls: seq<Timed>)
    requires ledger.Balanced()
    requires AllHaveRoom(cfg, Genesis(cfg, ledger, licensed), calls) && AllLand(cfg, Genesis(cfg, ledger, licensed), calls)
    ensures var t := Run(cfg, Genesis(cfg, ledger, licensed), calls);
            && t.available + t.outstanding == cfg.limit
            && t.outstanding == Sum(t.debt, Owed)
            && (forall o :: t.TotalDebtOf(o) == Sum(t.debt, OwedBy(o)))
            && (forall e :: e in t.epochs <==> 1 <= e <= t.epochId)
            && (forall e :: e in t.epochs ==> t.epochs[e].issued - t.epochs[e].repaid == Sum(t.debt, OwedIn(e)))
            && t.epochId in t.epochs && t.epochs[t.epochId].keyRate == DynamicRate(cfg, t.outstanding)
            && t.ledger.issuance + t.burned == ledger.issuance + t.emitted + t.outstanding
            && PoolWithinLimit(cfg, t)
  {
    GenesisPool(cfg, ledger, licensed);
    SupplyIsAccountedFor(cfg, Genesis(cfg, ledger, licensed), ledger.issuance, calls);
    hide Run, Sum, DynamicRate, Ledger.Balanced;
  }
}
