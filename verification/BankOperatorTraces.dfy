/** What pallet-bank-operator does along whole runs beyond keeping its books: contracts only move
    forward, a full score stops counting repayments, and how much interest accruals can lose. */
module BankOperatorTraces {
  import opened Prelude
  import opened Currency
  import opened Sums
  import opened Arithmetic
  import opened BankOperator
  import opened BankOperatorRuns

  // ================================================================ contracts only move forward

  function StageOf(col: Collateral): nat {
    match col.status
    case Locked => 0
    case Backing => 1
    case Released => 2
  }

  /** A credit keeps its terms, never owes more principal, and is frozen once Repaid or in Default. */
  predicate CreditAhead(c: Credit, d: Credit) {
    && d == c.(outstanding := d.outstanding, accrued := d.accrued, lastInterestBlock := d.lastInterestBlock, status := d.status)
    && d.outstanding <= c.outstanding
    && (c.status != Active ==> d == c)
  }

  /** A collateral keeps its terms, and its status and its request never go back. */
  predicate CollateralAhead(a: Collateral, b: Collateral) {
    b == a.(status := b.status, requested := b.requested) && StageOf(a) <= StageOf(b) && (a.requested ==> b.requested)
  }

  ghost predicate Ahead(s: Storage, t: Storage) {
    && (forall i :: i in s.credits ==> i in t.credits && CreditAhead(s.credits[i], t.credits[i]))
    && (forall k :: k in s.collaterals ==> k in t.collaterals && CollateralAhead(s.collaterals[k], t.collaterals[k]))
  }

  /** What moves a collateral on: the loan against it, then its owner's repayment. */
  ghost predicate MovedBy(s: Storage, t: Storage, call: Call) {
    forall k :: k in s.collaterals && k in t.collaterals && t.collaterals[k].status != s.collaterals[k].status ==>
      (s.collaterals[k].status == Locked && t.collaterals[k].status == Backing && call == Issue(k))
      || (s.collaterals[k].status == Backing && t.collaterals[k].status == Released
          && call.Repay? && call.citizen == s.collaterals[k].citizen
          && Refers(s, call.id, k) && s.credits[call.id].status == Active)
  }

  lemma ReplacementMovesAhead(s: Storage, t: Storage, id: nat, d: Credit, call: Call)
    requires id in s.credits && s.credits[id].status == Active && CreditSound(s, s.credits[id])
    requires CreditAhead(s.credits[id], d) && t.credits == s.credits[id := d]
    requires call.Repay? && call.id == id && call.citizen == s.credits[id].citizen
    requires var k := d.collateralId;
             t.collaterals == s.collaterals || t.collaterals == s.collaterals[k := s.collaterals[k].(status := Released)]
    ensures Ahead(s, t) && MovedBy(s, t, call)
  {
    assert Refers(s, id, d.collateralId);
  }

  lemma RepayMovesAhead(cfg: Config, s: Storage, now: nat, citizen: Account, id: nat, amount: nat)
    requires Matched(s) && RepayCredit(cfg, s, now, citizen, id, amount).Ok?
    ensures var t := RepayCredit(cfg, s, now, citizen, id, amount).value;
            Ahead(s, t) && MovedBy(s, t, Repay(citizen, id, amount))
  {
    RepayEffect(cfg, s, now, citizen, id, amount);
    RepaidPart(cfg, s.credits[id], now, amount);
    assert CreditSound(s, s.credits[id]);
    hide RepayCredit, UpToDate, Reduce, InterestPart, PrincipalPart, Matched, Ahead, MovedBy;
    var t := RepayCredit(cfg, s, now, citizen, id, amount).value;
    ReplacementMovesAhead(s, t, id, t.credits[id], Repay(citizen, id, amount));
  }

  /** Every call moves contracts forward, a collateral one stage at a time and only by the call that
      concerns it. */
  lemma StepMovesAhead(cfg: Config, s: Storage, now: nat, call: Call)
    requires Matched(s)
    ensures Ahead(s, Step(cfg, s, now, call)) && MovedBy(s, Step(cfg, s, now, call), call)
  {
    hide RepayCredit, AccruedSince, Ledger.Transfer, Ledger.DepositCreating, Ahead, MovedBy, CreditsSound, Covered, Exclusive;
    if Dispatch(cfg, s, now, call).Ok? && call.Repay? {
      RepayMovesAhead(cfg, s, now, call.citizen, call.id, call.amount);
    } else {
      OtherCallMovesAhead(cfg, s, now, call);
    }
  }

  lemma OtherCallMovesAhead(cfg: Config, s: Storage, now: nat, call: Call)
    requires Numbered(s) && (call.Repay? ==> Dispatch(cfg, s, now, call).Err?)
    ensures Ahead(s, Step(cfg, s, now, call)) && MovedBy(s, Step(cfg, s, now, call), call)
  {
    hide RepayCredit, AccruedSince, Ledger.Transfer, Ledger.DepositCreating, CollateralSound, Refers;
    var t := Step(cfg, s, now, call);
    assert Ahead(s, t) by { hide MovedBy; }
    assert MovedBy(s, t, call) by { hide Ahead, CreditAhead, CollateralAhead; }
    hide Ahead, MovedBy;
  }

  lemma AheadTransitive(s: Storage, t: Storage, u: Storage)
    requires Ahead(s, t) && Ahead(t, u)
    ensures Ahead(s, u)
  {}

  /** Over any run contracts only move forward: Repaid and Default are terminal, a collateral goes from
      Locked to Backing to Released, and that of a credit in Default is never released. */
  lemma {:induction false} ContractsMoveForward(cfg: Config, s: Storage, calls: seq<Timed>)
    requires Matched(s)
    ensures Matched(Run(cfg, s, calls)) && Ahead(s, Run(cfg, s, calls))
    ensures forall i :: i in s.credits && s.credits[i].status == Defaulted ==>
              var k := s.credits[i].collateralId;
              k in Run(cfg, s, calls).collaterals && Run(cfg, s, calls).collaterals[k].status == Backing
    decreases |calls|
  {
    if calls == [] {
      assert Ahead(s, s);
    } else {
      var t := Step(cfg, s, calls[0].now, calls[0].call);
      StepKeepsMatched(cfg, s, calls[0].now, calls[0].call);
      StepMovesAhead(cfg, s, calls[0].now, calls[0].call);
      assert Run(cfg, s, calls) == Run(cfg, t, calls[1..]);
      hide Step, Matched, Run;
      ContractsMoveForward(cfg, t, calls[1..]);
      AheadTransitive(s, t, Run(cfg, s, calls));
    }
    DefaultHoldsCollateral(s, Run(cfg, s, calls));
    hide Ahead, Matched, Run;
  }

  lemma DefaultHoldsCollateral(s: Storage, t: Storage)
    requires Ahead(s, t) && Matched(t)
    ensures forall i :: i in s.credits && s.credits[i].status == Defaulted ==>
              s.credits[i].collateralId in t.collaterals && t.collaterals[s.credits[i].collateralId].status == Backing
  {
    forall i | i in s.credits && s.credits[i].status == Defaulted
      ensures s.credits[i].collateralId in t.collaterals && t.collaterals[s.credits[i].collateralId].status == Backing
    {
      assert CreditSound(t, t.credits[i]);
    }
  }

  // ================================================================ a full score stops counting

  /** The credit of the lending run after `k` repayments of one planck each. */
  ghost predicate Nibbled(s: Storage, citizen: Account, bank: Account, k: nat) {
    && k <= 40 && s.bank == Some(bank) && s.ledger.ed == 1
    && s.credits == map[0 := Lent(citizen).(outstanding := 810_000 - k)]
    && s.collaterals == map[0 := Collateral(citizen, Land, 100_000, 10_000, 90_000, 0, Backing, true)]
    && s.ScoreOf(citizen) == ScoreRecord(650 + 5 * k, 0, 0)
    && s.ledger.Free(citizen) == 910_000 - k && s.ledger.Free(bank) == 100_000
  }

  /** One planck repaid in the block of issue: five points, and no interest. */
  lemma NibbleOnce(cfg: Config, s: Storage, citizen: Account, bank: Account, k: nat)
    requires citizen != bank && k < 40 && Nibbled(s, citizen, bank, k)
    ensures Nibbled(Step(cfg, s, 0, Repay(citizen, 0, 1)), citizen, bank, k + 1)
  {
    assert AccruedSince(s.credits[0], 0, cfg.period) == 0;
    hide AccruedSince;
  }

  function Nibbles(citizen: Account, n: nat): seq<Timed> {
    if n == 0 then [] else [At(0, Repay(citizen, 0, 1))] + Nibbles(citizen, n - 1)
  }

  lemma {:induction false} NibbleRun(cfg: Config, s: Storage, citizen: Account, bank: Account, k: nat, n: nat, rest: seq<Timed>)
    returns (t: Storage)
    requires citizen != bank && k + n <= 40 && Nibbled(s, citizen, bank, k)
    ensures Nibbled(t, citizen, bank, k + n) && Run(cfg, s, Nibbles(citizen, n) + rest) == Run(cfg, t, rest)
    decreases n
  {
    hide Step, Run, Nibbled;
    if n == 0 {
      t := s;
      assert Nibbles(citizen, 0) + rest == rest;
    } else {
      var first, more := At(0, Repay(citizen, 0, 1)), Nibbles(citizen, n - 1) + rest;
      NibbleOnce(cfg, s, citizen, bank, k);
      t := NibbleRun(cfg, Step(cfg, s, 0, first.call), citizen, bank, k + 1, n - 1, rest);
      assert Nibbles(citizen, n) + rest == [first] + more;
      RunStep(cfg, s, first, more);
    }
  }

  lemma CloseAtMaximum(cfg: Config, s: Storage, citizen: Account, bank: Account)
    requires citizen != bank && Nibbled(s, citizen, bank, 40)
    ensures var t := Step(cfg, s, 0, Repay(citizen, 0, 809_960));
            && 0 in t.credits && t.credits[0].status == Repaid
            && t.ScoreOf(citizen) == ScoreRecord(850, 0, 0)
  {
    assert AccruedSince(s.credits[0], 0, cfg.period) == 0;
    hide AccruedSince;
  }

  lemma NibbleFromEmpty(cfg: Config, citizen: Account, bank: Account, n: nat, rest: seq<Timed>) returns (t: Storage)
    requires cfg.multiplier == 9 && citizen != bank && n <= 40
    ensures Nibbled(t, citizen, bank, n)
    ensures Run(cfg, Fresh(Opening(citizen), Some(bank)), Lending(citizen) + (Nibbles(citizen, n) + rest)) == Run(cfg, t, rest)
  {
    hide Step, Run, Lending, Opening, Nibbles;
    var s := LendingRun(cfg, citizen, bank, Nibbles(citizen, n) + rest);
    assert Nibbled(s, citizen, bank, 0);
    hide Nibbled;
    t := NibbleRun(cfg, s, citizen, bank, 0, n, rest);
  }

  /** A closing repayment that is not counted, in a run from an empty pallet: forty repayments of one
      planck take the score to its maximum, the next one closes the credit, and the stored count of
      repaid credits is still zero. */
  lemma ClosingAtMaximumIsNotCounted(cfg: Config, citizen: Account, bank: Account)
    requires cfg.multiplier == 9 && citizen != bank
    ensures var t := Run(cfg, Fresh(Opening(citizen), Some(bank)),
                         Lending(citizen) + (Nibbles(citizen, 40) + [At(0, Repay(citizen, 0, 809_960))]));
            && 0 in t.credits && t.credits[0].status == Repaid
            && t.ScoreOf(citizen) == ScoreRecord(850, 0, 0)
  {
    hide Step, Run, Nibbled, Nibbles, Lending, Opening, Fresh;
    var close := At(0, Repay(citizen, 0, 809_960));
    var t := NibbleFromEmpty(cfg, citizen, bank, 40, [close]);
    CloseAtMaximum(cfg, t, citizen, bank);
    RunStep(cfg, t, close, []);
    assert [close] + [] == [close];
    RunNothing(cfg, Step(cfg, t, 0, close.call));
  }

  lemma RunNothing(cfg: Config, s: Storage)
    ensures Run(cfg, s, []) == s
  {}

  // ================================================================ interest that is never charged

  /** Every call of the run falls less than a period after the mark the credit then carries. Only a
      repayment moves that mark while nothing is due, so this is a credit repaid in shorter steps. */
  predicate KeptYoung(cfg: Config, s: Storage, id: nat, calls: seq<Timed>)
    decreases |calls|
  {
    calls == []
    || (&& id in s.credits && calls[0].now < s.credits[id].lastInterestBlock + cfg.period
        && KeptYoung(cfg, Step(cfg, s, calls[0].now, calls[0].call), id, calls[1..]))
  }

  ghost predicate InterestFree(s: Storage, id: nat) {
    id in s.credits && s.credits[id].accrued == 0 && id < s.nextCredit && Total(InterestOn(id), s.events) == 0
  }

  lemma NothingDueWithinPeriod(c: Credit, now: nat, period: nat)
    requires now < c.lastInterestBlock + period
    ensures AccruedSince(c, now, period) == 0
  {
    if now > c.lastInterestBlock {
      DivisionUnique(now - c.lastInterestBlock, period, 0, now - c.lastInterestBlock);
    }
    assert Periods(c.lastInterestBlock, now, period) == 0;
    assert SatMul(SatMul(c.outstanding, c.tier.DailyRateBps()), 0) == 0;
  }

  lemma StepKeepsInterestFree(cfg: Config, s: Storage, now: nat, call: Call, id: nat)
    requires InterestFree(s, id) && now < s.credits[id].lastInterestBlock + cfg.period
    ensures InterestFree(Step(cfg, s, now, call), id)
  {
    NothingDueWithinPeriod(s.credits[id], now, cfg.period);
    hide AccruedSince, RepayCredit, IssueCredit, Total;
    if Dispatch(cfg, s, now, call).Ok? {
      var t := Step(cfg, s, now, call);
      match call
      case Issue(k) =>
        IssueEffect(cfg, s, now, k);
        TotalAppend(InterestOn(id), s.events, CreditIssued(s.nextCredit, t.credits[s.nextCredit].amount));
      case Repay(citizen, i, amount) =>
        RepayEffect(cfg, s, now, citizen, i, amount);
        var due := UpToDate(cfg, s.credits[i], now);
        TotalAppend(InterestOn(id), s.events, CreditRepaid(i, PrincipalPart(due, amount), InterestPart(due, amount)));
      case _ =>
    }
  }

  /** A credit repaid in steps shorter than a period never bears interest, however long the run. */
  lemma {:induction false} ShortStepsEarnNothing(cfg: Config, s: Storage, id: nat, calls: seq<Timed>)
    requires InterestFree(s, id) && KeptYoung(cfg, s, id, calls)
    ensures var t := Run(cfg, s, calls);
            id in t.credits && t.credits[id].accrued == 0 && Total(InterestOn(id), t.events) == 0
    decreases |calls|
  {
    if calls != [] {
      StepKeepsInterestFree(cfg, s, calls[0].now, calls[0].call, id);
      hide Step, InterestFree;
      ShortStepsEarnNothing(cfg, Step(cfg, s, calls[0].now, calls[0].call), id, calls[1..]);
    }
  }

  /** Accepted repayments of one credit, each less than a period after the one before. */
  predicate RepaidInShortSteps(cfg: Config, s: Storage, id: nat, from: nat, calls: seq<Timed>)
    decreases |calls|
  {
    calls == []
    || (&& calls[0].call.Repay? && calls[0].call.id == id && Dispatch(cfg, s, calls[0].now, calls[0].call).Ok?
        && from <= calls[0].now < from + cfg.period
        && RepaidInShortSteps(cfg, Step(cfg, s, calls[0].now, calls[0].call), id, calls[0].now, calls[1..]))
  }

  /** Such repayments, from the block of the mark on, keep the credit young. */
  lemma {:induction false} ShortStepsKeepYoung(cfg: Config, s: Storage, id: nat, calls: seq<Timed>)
    requires id in s.credits && RepaidInShortSteps(cfg, s, id, s.credits[id].lastInterestBlock, calls)
    ensures KeptYoung(cfg, s, id, calls)
    decreases |calls|
  {
    if calls != [] {
      var now, call := calls[0].now, calls[0].call;
      RepayEffect(cfg, s, now, call.citizen, id, call.amount);
      RepaidPart(cfg, s.credits[id], now, call.amount);
      hide RepayCredit, UpToDate, Reduce, InterestPart, PrincipalPart;
      ShortStepsKeepYoung(cfg, Step(cfg, s, now, call), id, calls[1..]);
    }
  }

  // ================================================================ interest accruals can lose

  /** The credit is neither repaid nor declared in default. */
  predicate LeavesCreditAlone(id: nat, call: Call) {
    (call.Repay? ==> call.id != id) && (call.Default? ==> call.id != id)
  }

  function AccrualCalls(id: nat, calls: seq<Timed>): nat {
    if calls == [] then 0 else (if calls[0].call == Accrue(id) then 1 else 0) + AccrualCalls(id, calls[1..])
  }

  /** Interest up to `end` at the credit's rate, before the division by ten thousand. */
  function RawInterest(c: Credit, from: nat, end: nat, period: nat): nat {
    c.outstanding * c.tier.DailyRateBps() * Periods(from, end, period)
  }

  predicate Accruing(s: Storage, id: nat) {
    id in s.credits && id < s.nextCredit && s.credits[id].status == Active
  }

  /** A call that leaves a credit alone changes it only by accruing what is due. */
  lemma UntouchedStep(cfg: Config, s: Storage, now: nat, call: Call, id: nat)
    requires Accruing(s, id) && LeavesCreditAlone(id, call)
    ensures var c, t := s.credits[id], Step(cfg, s, now, call);
            && Accruing(t, id)
            && (t.credits[id] == c
                || (&& call == Accrue(id) && AccruedSince(c, now, cfg.period) > 0
                    && t.credits[id] == c.(accrued := SatAdd(c.accrued, AccruedSince(c, now, cfg.period)), lastInterestBlock := now)))
  {
    hide AccruedSince, RepayCredit, IssueCredit;
    if Dispatch(cfg, s, now, call).Ok? {
      match call
      case Issue(k) => IssueEffect(cfg, s, now, k);
      case Repay(citizen, i, amount) => RepayEffect(cfg, s, now, citizen, i, amount);
      case _ =>
    }
  }

  /** An accrual that charges anything charges at least half of what its mark passes over, up to the
      rounding of one division. */
  lemma AccrualChargesHalf(c: Credit, now: nat, end: nat, period: nat)
    requires period > 0 && now <= end && AccruedSince(c, now, period) > 0
    requires RawInterest(c, c.lastInterestBlock, end, period) <= U128_MAX
    ensures RawInterest(c, c.lastInterestBlock, end, period)
            <= RawInterest(c, now, end, period) + 20_000 * AccruedSince(c, now, period) + 19_998
    ensures RawInterest(c, now, end, period) + AccruedSince(c, now, period) <= RawInterest(c, c.lastInterestBlock, end, period)
  {
    var m, x := c.lastInterestBlock, c.outstanding * c.tier.DailyRateBps();
    assert m <= now by {
      if now < m { NothingDueWithinPeriod(c, now, period); }
    }
    var k, r, n := Periods(m, now, period), Periods(now, end, period), Periods(m, end, period);
    PeriodsSplit(m, now, end, period);
    PeriodsSum(m, now, end, period);
    assert k >= 1;
    hide Periods;
    UnsaturatedProduct(c.outstanding, c.tier.DailyRateBps(), k, n);
    assert 10_000 * AccruedSince(c, now, period) <= x * k <= 10_000 * AccruedSince(c, now, period) + 9_999;
    hide AccruedSince, SatMul, Periods;
    MulMonotone(x, x, n, 2 * k + r);
    MulMonotone(x, x, k + r, n);
    assert x * (2 * k + r) == 2 * (x * k) + x * r && x * (k + r) == x * k + x * r;
  }

  lemma PeriodsSum(a: nat, b: nat, c: nat, period: nat)
    requires a <= b <= c && period > 0
    ensures Periods(a, c, period) <= Periods(a, b, period) + Periods(b, c, period) + 1
  {
    FloorSum(b - a, c - b, period);
    DivisionUnique(0, period, 0, 0);
  }

  /** Over a run that leaves a credit alone, what its accruals have charged and the next one would
      charge is at least half the interest of one accrual at the end, less a planck an accrual. */
  lemma {:induction false} UntouchedRun(cfg: Config, s: Storage, id: nat, calls: seq<Timed>, end: nat)
    requires cfg.period > 0 && Accruing(s, id)
    requires forall i :: 0 <= i < |calls| ==> calls[i].now <= end && LeavesCreditAlone(id, calls[i].call)
    requires s.credits[id].accrued + RawInterest(s.credits[id], s.credits[id].lastInterestBlock, end, cfg.period) <= U128_MAX
    ensures var c, t := s.credits[id], Run(cfg, s, calls);
            && Accruing(t, id)
            && var d := t.credits[id];
               && d == c.(accrued := d.accrued, lastInterestBlock := d.lastInterestBlock) && d.accrued >= c.accrued
               && RawInterest(c, c.lastInterestBlock, end, cfg.period)
                  <= 20_000 * (d.accrued - c.accrued) + 10_000 * AccruedSince(d, end, cfg.period)
                     + 19_998 * AccrualCalls(id, calls) + 9_999
    decreases |calls|
  {
    var c := s.credits[id];
    if calls == [] {
      UnsaturatedProduct(c.outstanding, c.tier.DailyRateBps(), Periods(c.lastInterestBlock, end, cfg.period),
                         Periods(c.lastInterestBlock, end, cfg.period));
    } else {
      var now, call, rest := calls[0].now, calls[0].call, calls[1..];
      UntouchedStep(cfg, s, now, call, id);
      var t := Step(cfg, s, now, call);
      if t.credits[id] != c { AccrualChargesHalf(c, now, end, cfg.period); }
      assert Run(cfg, s, calls) == Run(cfg, t, rest);
      hide Step, Run, Periods, AccruedSince, LeavesCreditAlone;
      RawInterestOfTerms(c, t.credits[id], t.credits[id].lastInterestBlock, end, cfg.period);
      hide RawInterest;
      UntouchedRun(cfg, t, id, rest, end);
    }
  }

  lemma RawInterestOfTerms(c: Credit, d: Credit, from: nat, end: nat, period: nat)
    requires d == c.(accrued := d.accrued, lastInterestBlock := d.lastInterestBlock)
    ensures RawInterest(c, from, end, period) == RawInterest(d, from, end, period)
  {}

  /** However many accruals anybody triggers at whatever blocks, they never take more than half the
      interest away, rounding aside: twice what has accrued since the start, with two plancks an
      accrual and what is due at the end, covers the interest of a single accrual at the end. */
  lemma {:induction false} AccrualsChargeHalf(cfg: Config, s: Storage, id: nat, calls: seq<Timed>, end: nat)
    requires cfg.period > 0 && Accruing(s, id)
    requires forall i :: 0 <= i < |calls| ==> calls[i].now <= end && LeavesCreditAlone(id, calls[i].call)
    requires s.credits[id].accrued + RawInterest(s.credits[id], s.credits[id].lastInterestBlock, end, cfg.period) <= U128_MAX
    ensures var c, t := s.credits[id], Run(cfg, s, calls);
            && id in t.credits && t.credits[id].accrued >= c.accrued
            && AccruedSince(c, end, cfg.period)
               <= 2 * (t.credits[id].accrued - c.accrued + AccrualCalls(id, calls)) + AccruedSince(t.credits[id], end, cfg.period)
  {
    var c := s.credits[id];
    UntouchedRun(cfg, s, id, calls, end);
    UnsaturatedProduct(c.outstanding, c.tier.DailyRateBps(), Periods(c.lastInterestBlock, end, cfg.period),
                       Periods(c.lastInterestBlock, end, cfg.period));
    assert 10_000 * AccruedSince(c, end, cfg.period) <= RawInterest(c, c.lastInterestBlock, end, cfg.period);
    hide Run, AccruedSince, RawInterest, AccrualCalls;
  }

  lemma AccruedOver(c: Credit, from: nat, now: nat, interest: nat)
    requires c.outstanding == 810_000 && c.tier == Fair && c.lastInterestBlock == from <= now
    requires now <= from + 100 && interest == 162 * ((now - from) / 10)
    ensures AccruedSince(c, now, 10) == interest
  {}

  /** ... and they can take away a third of it: of three periods of ten blocks, accruals at the
      nineteenth and the thirty-eighth block charge two. */
  lemma AccrualsLoseInterest(citizen: Account, bank: Account)
    requires citizen != bank
    ensures var cfg, end := Config(9, 10), [At(19, Accrue(0)), At(38, Accrue(0)), At(38, Accrue(0))];
            var t := Run(cfg, Fresh(Opening(citizen), Some(bank)), Lending(citizen) + end);
            && 0 in t.credits
            && t.credits[0] == Lent(citizen).(accrued := 324, lastInterestBlock := 38)
            && OneShot(t.credits[0], 38, cfg.period) == 486
  {
    assert OneShot(Lent(citizen), 38, 10) == 486;
    hide Run, OneShot, Lending, Opening, AccruedSince;
    var cfg := Config(9, 10);
    var first, second := At(19, Accrue(0)), At(38, Accrue(0));
    var s := LendingRun(cfg, citizen, bank, [first, second, second]);
    ThreeMoreCalls(cfg, s, first, second, second);
    AccruedOver(Lent(citizen), 0, 19, 162);
    AccruedOver(Lent(citizen).(accrued := 162, lastInterestBlock := 19), 19, 38, 162);
    AccruedOver(Lent(citizen).(accrued := 324, lastInterestBlock := 38), 38, 38, 0);
    OneShotOfTerms(Lent(citizen), Lent(citizen).(accrued := 324, lastInterestBlock := 38), 38, 10);
  }
}
