/** What every run of pallet-bank-operator keeps. */
module BankOperatorRuns {
  import opened Prelude
  import opened Currency
  import opened Sums
  import opened Arithmetic
  import opened BankOperator

  // ================================================================ interest

  /** The interest a credit would owe at `now` had it never been touched since it was issued. */
  function OneShot(c: Credit, now: nat, period: nat): nat {
    FullInterest(c.amount, c.tier, Periods(c.issuedAt, now, period))
  }

  function FullInterest(amount: nat, tier: CreditTier, periods: nat): nat {
    amount * tier.DailyRateBps() * periods / 10_000
  }

  ghost predicate InterestBounded(cfg: Config, s: Storage, now: nat) {
    && (forall id :: id in s.credits ==>
          var c := s.credits[id];
          && id < s.nextCredit
          && c.outstanding <= c.amount
          && c.issuedAt <= c.lastInterestBlock <= now
          && Total(InterestOn(id), s.events) + c.accrued <= OneShot(c, c.lastInterestBlock, cfg.period))
    && (forall id :: s.nextCredit <= id ==> Total(InterestOn(id), s.events) == 0)
  }

  /** Whole periods of two stretches never exceed those of the joined stretch, and nothing is
      lost exactly when the two remainders do not add up to a period. */
  lemma PeriodsSplit(a: nat, b: nat, c: nat, period: nat)
    requires a <= b <= c && period > 0
    ensures Periods(a, b, period) + Periods(b, c, period) <= Periods(a, c, period)
    ensures Periods(a, b, period) + Periods(b, c, period) == Periods(a, c, period)
            <==> (b - a) % period + (c - b) % period < period
  {
    FloorSum(b - a, c - b, period);
    DivisionUnique(0, period, 0, 0);
  }

  lemma FloorsOfProduct(x: nat, y: nat, j: nat, k: nat, n: nat)
    requires y <= x * k && j + k <= n
    ensures x * j / 10_000 + y / 10_000 <= x * n / 10_000
  {
    FloorSum(x * j, y, 10_000);
    MulMonotone(x, x, j + k, n);
    assert x * (j + k) == x * j + x * k;
    DivMonotone(x * j + y, x * n, 10_000);
  }

  lemma SaturatedProduct(out: nat, amount: nat, rate: nat, k: nat)
    requires out <= amount
    ensures SatMul(SatMul(out, rate), k) <= amount * rate * k
  {
    MulMonotone(out, amount, rate, rate);
    MulMonotone(SatMul(out, rate), amount * rate, k, k);
  }

  /** Floors are superadditive, so accruing in pieces never beats accruing once. */
  lemma AccrualBounded(c: Credit, now: nat, period: nat)
    requires c.outstanding <= c.amount && c.issuedAt <= c.lastInterestBlock <= now
    ensures OneShot(c, c.lastInterestBlock, period) + AccruedSince(c, now, period) <= OneShot(c, now, period)
  {
    var rate := c.tier.DailyRateBps();
    var j, k, n := Periods(c.issuedAt, c.lastInterestBlock, period),
                   Periods(c.lastInterestBlock, now, period), Periods(c.issuedAt, now, period);
    if period > 0 {
      PeriodsSplit(c.issuedAt, c.lastInterestBlock, now, period);
    }
    SaturatedProduct(c.outstanding, c.amount, rate, k);
    FloorsOfProduct(c.amount * rate, SatMul(SatMul(c.outstanding, rate), k), j, k, n);
  }

  /** ... and, as long as the principal is whole, no period is cut in two and nothing saturates,
      one accrual loses at most one planck, and the first one none. */
  lemma AccrualLosesLittle(c: Credit, now: nat, period: nat)
    requires period > 0 && c.outstanding == c.amount && c.issuedAt <= c.lastInterestBlock <= now
    requires (c.lastInterestBlock - c.issuedAt) % period + (now - c.lastInterestBlock) % period < period
    requires c.amount * c.tier.DailyRateBps() * Periods(c.issuedAt, now, period) <= U128_MAX
    ensures OneShot(c, now, period) <= OneShot(c, c.lastInterestBlock, period) + AccruedSince(c, now, period) + 1
    ensures c.lastInterestBlock == c.issuedAt ==> AccruedSince(c, now, period) == OneShot(c, now, period)
  {
    var rate := c.tier.DailyRateBps();
    var x := c.amount * rate;
    var j, k, n := Periods(c.issuedAt, c.lastInterestBlock, period),
                   Periods(c.lastInterestBlock, now, period), Periods(c.issuedAt, now, period);
    PeriodsSplit(c.issuedAt, c.lastInterestBlock, now, period);
    UnsaturatedProduct(c.amount, rate, k, n);
    assert x * (j + k) == x * j + x * k;
    FloorSum(x * j, x * k, 10_000);
    hide SatMul, Periods;
  }

  lemma UnsaturatedProduct(amount: nat, rate: nat, k: nat, n: nat)
    requires k <= n && amount * rate * n <= U128_MAX
    ensures SatMul(SatMul(amount, rate), k) == amount * rate * k
  {
    MulMonotone(amount * rate, amount * rate, k, n);
    if k > 0 {
      MulAtLeast(amount * rate, k);
    } else {
      assert amount * rate * k == 0;
    }
  }

  /** What a mark moved in mid-period costs, principal and rate being equal on both sides: when the
      two parts of a period add up to one, at least the interest of a whole period; otherwise at most
      a planck. */
  lemma MovedMarkCosts(c: Credit, mark: nat, now: nat, period: nat)
    requires period > 0 && c.lastInterestBlock <= mark <= now
    requires c.outstanding * c.tier.DailyRateBps() * Periods(c.lastInterestBlock, now, period) <= U128_MAX
    ensures var whole := AccruedSince(c, now, period);
            var parts := AccruedSince(c, mark, period) + AccruedSince(c.(lastInterestBlock := mark), now, period);
            if (mark - c.lastInterestBlock) % period + (now - mark) % period < period
            then parts <= whole <= parts + 1
            else parts + FullInterest(c.outstanding, c.tier, 1) <= whole
  {
    var rate := c.tier.DailyRateBps();
    var x := c.outstanding * rate;
    var j, k, n := Periods(c.lastInterestBlock, mark, period), Periods(mark, now, period), Periods(c.lastInterestBlock, now, period);
    PeriodsSplit(c.lastInterestBlock, mark, now, period);
    UnsaturatedProduct(c.outstanding, rate, j, n);
    UnsaturatedProduct(c.outstanding, rate, k, n);
    UnsaturatedProduct(c.outstanding, rate, n, n);
    assert x * (j + k) == x * j + x * k;
    FloorSum(x * j, x * k, 10_000);
    if (mark - c.lastInterestBlock) % period + (now - mark) % period < period {
      assert n == j + k;
    } else {
      FloorSum(x * j + x * k, x, 10_000);
      FloorsOfProduct(x, x * 1, j + k, 1, n);
      assert x * 1 == x;
    }
    hide SatMul, Periods;
  }

  lemma RunStep(cfg: Config, s: Storage, first: Timed, rest: seq<Timed>)
    ensures Run(cfg, s, [first] + rest) == Run(cfg, Step(cfg, s, first.now, first.call), rest)
  {
    assert ([first] + rest)[1..] == rest;
  }

  /** Collateral of 100 000 locked, requested and lent against, all in one block. */
  function Lending(citizen: Account): seq<Timed> {
    [At(0, Lock(citizen, 100_000, Land)), At(0, Request(citizen, 0)), At(0, Issue(0))]
  }

  function Lent(citizen: Account): Credit { Credit(citizen, 0, 810_000, 810_000, 0, 0, 0, Fair, Active) }

  function Opening(citizen: Account): Ledger { Ledger(map[citizen := 200_000], 200_000, 1) }

  lemma LendingRun(cfg: Config, citizen: Account, bank: Account, rest: seq<Timed>) returns (s: Storage)
    requires cfg.multiplier == 9 && citizen != bank
    ensures Run(cfg, Fresh(Opening(citizen), Some(bank)), Lending(citizen) + rest) == Run(cfg, s, rest)
    ensures s.credits == map[0 := Lent(citizen)] && s.bank == Some(bank) && s.ledger.Free(citizen) == 910_000
    ensures s.events == [CreditIssued(0, 810_000)] && s.ledger.ed == 1 && s.ledger.Free(bank) == 100_000
    ensures s.collaterals == map[0 := Collateral(citizen, Land, 100_000, 10_000, 90_000, 0, Backing, true)]
    ensures s.ScoreOf(citizen) == NEW_RECORD
  {
    var s0 := Fresh(Opening(citizen), Some(bank));
    var lock, request, issue := At(0, Lock(citizen, 100_000, Land)), At(0, Request(citizen, 0)), At(0, Issue(0));
    RunStep(cfg, s0, lock, [request, issue] + rest);
    assert [lock] + ([request, issue] + rest) == Lending(citizen) + rest;
    var s1 := Step(cfg, s0, 0, lock.call);
    assert s1.collaterals == map[0 := Collateral(citizen, Land, 100_000, 10_000, 90_000, 0, Locked, false)];
    RunStep(cfg, s1, request, [issue] + rest);
    assert [request] + ([issue] + rest) == [request, issue] + rest;
    var s2 := Step(cfg, s1, 0, request.call);
    assert s2.collaterals == map[0 := Collateral(citizen, Land, 100_000, 10_000, 90_000, 0, Locked, true)];
    RunStep(cfg, s2, issue, rest);
    s := Step(cfg, s2, 0, issue.call);
  }

  lemma InterestDueOnce(cfg: Config, s: Storage, citizen: Account)
    requires cfg.period == 10 && s.credits == map[0 := Lent(citizen)]
    ensures Step(cfg, s, 10, Accrue(0)) == s.(credits := map[0 := Lent(citizen).(accrued := 162, lastInterestBlock := 10)])
  {
    assert AccruedSince(Lent(citizen), 10, 10) == 162;
  }

  lemma RepaymentMovesTheMark(cfg: Config, s: Storage, citizen: Account, bank: Account, c: Credit)
    requires cfg.period == 10 && c == Lent(citizen).(accrued := 162, lastInterestBlock := 10) && citizen != bank
    requires s.credits == map[0 := c] && s.bank == Some(bank) && s.ledger.Free(citizen) == 910_000 && s.ledger.ed == 1
    ensures var t := Step(cfg, s, 15, Repay(citizen, 0, 1));
            && t.credits == map[0 := c.(accrued := 161, lastInterestBlock := 15)]
            && t.events == s.events + [CreditRepaid(0, 0, 1)]
  {
    assert AccruedSince(c, 15, 10) == 0;
    hide AccruedSince, Rescore;
  }

  lemma NothingDueInMidPeriod(cfg: Config, s: Storage, citizen: Account, c: Credit)
    requires cfg.period == 10 && c == Lent(citizen).(accrued := 161, lastInterestBlock := 15) && s.credits == map[0 := c]
    ensures Step(cfg, s, 20, Accrue(0)) == s
  {
    assert AccruedSince(c, 20, 10) == 0;
  }

  lemma ThreeMoreCalls(cfg: Config, s: Storage, a: Timed, b: Timed, c: Timed)
    ensures var t := Step(cfg, s, a.now, a.call);
            var u := Step(cfg, t, b.now, b.call);
            Run(cfg, s, [a, b, c]) == Step(cfg, u, c.now, c.call)
  {
    var t := Step(cfg, s, a.now, a.call);
    var u := Step(cfg, t, b.now, b.call);
    RunStep(cfg, s, a, [b, c]);
    RunStep(cfg, t, b, [c]);
    RunStep(cfg, u, c, []);
    assert [a] + [b, c] == [a, b, c] && [b] + [c] == [b, c] && [c] + [] == [c];
    hide Step;
  }

  lemma OnePlanckPaid(issued: Event, repaid: Event)
    requires issued.CreditIssued? && repaid == CreditRepaid(0, 0, 1)
    ensures Total(InterestOn(0), [issued] + [repaid]) == 1
  {
    TotalAppend(InterestOn(0), [issued], repaid);
    TotalAppend(InterestOn(0), [], issued);
    assert [] + [issued] == [issued];
  }

  /** Interest lost in a run from an empty pallet: over two periods of ten blocks, a repayment of one
      planck at the fifteenth block wipes out the second period's interest. */
  lemma MidPeriodRepaymentLosesInterest(citizen: Account, bank: Account)
    requires citizen != bank
    ensures var cfg, end := Config(9, 10), [At(10, Accrue(0)), At(15, Repay(citizen, 0, 1)), At(20, Accrue(0))];
            var t := Run(cfg, Fresh(Opening(citizen), Some(bank)), Lending(citizen) + end);
            && 0 in t.credits
            && t.credits[0].amount == t.credits[0].outstanding == 810_000
            && Total(InterestOn(0), t.events) + t.credits[0].accrued == 162
            && OneShot(t.credits[0], 20, cfg.period) == 324
  {
    assert OneShot(Lent(citizen), 20, 10) == 324;
    hide Step, Run, Total, OneShot, Lending, Opening;
    var cfg := Config(9, 10);
    var accrue, repay, again := At(10, Accrue(0)), At(15, Repay(citizen, 0, 1)), At(20, Accrue(0));
    var s := LendingRun(cfg, citizen, bank, [accrue, repay, again]);
    ThreeMoreCalls(cfg, s, accrue, repay, again);
    InterestDueOnce(cfg, s, citizen);
    var t := Step(cfg, s, 10, accrue.call);
    RepaymentMovesTheMark(cfg, t, citizen, bank, t.credits[0]);
    var u := Step(cfg, t, 15, repay.call);
    NothingDueInMidPeriod(cfg, u, citizen, u.credits[0]);
    OnePlanckPaid(s.events[0], CreditRepaid(0, 0, 1));
    OneShotOfTerms(Lent(citizen), u.credits[0], 20, cfg.period);
  }

  lemma OneShotOfTerms(c: Credit, d: Credit, now: nat, period: nat)
    requires d == c.(accrued := d.accrued, lastInterestBlock := d.lastInterestBlock)
    ensures OneShot(c, now, period) == OneShot(d, now, period)
  {}

  /** Accruals of one credit at the ends of its own periods. */
  predicate Aligned(c: Credit, id: nat, period: nat, calls: seq<Timed>)
    requires period > 0
  {
    forall i :: 0 <= i < |calls| ==>
      && calls[i].call == Accrue(id)
      && c.issuedAt <= calls[i].now && (calls[i].now - c.issuedAt) % period == 0
  }

  /** A credit nobody has paid on, marked at the end of one of its periods, owing no more than the
      one-shot interest up to its mark. */
  predicate Whole(c: Credit, period: nat)
    requires period > 0
  {
    && c.status == Active && c.outstanding == c.amount
    && c.issuedAt <= c.lastInterestBlock && (c.lastInterestBlock - c.issuedAt) % period == 0
    && c.accrued <= OneShot(c, c.lastInterestBlock, period)
  }

  /** No product formed for interest up to `end` saturates. */
  predicate InWidth(c: Credit, end: nat, period: nat) {
    c.amount * c.tier.DailyRateBps() * Periods(c.issuedAt, end, period) <= U128_MAX
  }

  lemma InWidthBefore(c: Credit, now: nat, end: nat, period: nat)
    requires period > 0 && c.issuedAt <= now <= end && InWidth(c, end, period)
    ensures InWidth(c, now, period) && OneShot(c, now, period) <= U128_MAX
  {
    PeriodsSplit(c.issuedAt, now, end, period);
    MulMonotone(c.amount * c.tier.DailyRateBps(), c.amount * c.tier.DailyRateBps(),
                Periods(c.issuedAt, now, period), Periods(c.issuedAt, end, period));
    hide Periods;
  }

  /** One aligned accrual: the credit stays whole, and what it lacks against the one-shot interest
      grows by at most a planck. */
  lemma AlignedAccrual(cfg: Config, s: Storage, id: nat, now: nat, end: nat)
    requires cfg.period > 0 && id in s.credits && Whole(s.credits[id], cfg.period)
    requires s.credits[id].lastInterestBlock <= now <= end && (now - s.credits[id].issuedAt) % cfg.period == 0
    requires InWidth(s.credits[id], end, cfg.period)
    ensures var c, t := s.credits[id], Step(cfg, s, now, Accrue(id));
            && id in t.credits
            && var d := t.credits[id];
               && d == c.(accrued := d.accrued, lastInterestBlock := d.lastInterestBlock)
               && Whole(d, cfg.period) && d.lastInterestBlock <= now
               && (d == c || d.lastInterestBlock == now)
               && d.accrued <= OneShot(c, now, cfg.period)
               && OneShot(d, now, cfg.period) - d.accrued
                  <= OneShot(c, c.lastInterestBlock, cfg.period) - c.accrued
                     + (if c.lastInterestBlock == c.issuedAt then 0 else 1)
  {
    var c := s.credits[id];
    InWidthBefore(c, now, end, cfg.period);
    MultiplesAdd(now - c.issuedAt, c.lastInterestBlock - c.issuedAt, cfg.period);
    AccrualBounded(c, now, cfg.period);
    AccrualLosesLittle(c, now, cfg.period);
    if c.lastInterestBlock == c.issuedAt {
      NothingAtOnce(c, cfg.period);
    }
    hide AccruedSince, OneShot, InWidth;
  }

  lemma NothingAtOnce(c: Credit, period: nat)
    ensures OneShot(c, c.issuedAt, period) == 0
  {
    assert c.amount * c.tier.DailyRateBps() * 0 == 0;
  }

  /** Over aligned accruals each costs at most one planck against the one-shot formula, and the
      first that adds anything costs none. */
  lemma {:induction false} AlignedAccruals(cfg: Config, s: Storage, id: nat, calls: seq<Timed>)
    requires cfg.period > 0 && id in s.credits && Whole(s.credits[id], cfg.period) && calls != []
    requires Aligned(s.credits[id], id, cfg.period, calls) && Chronological(s.credits[id].lastInterestBlock, calls)
    requires InWidth(s.credits[id], LastBlock(0, calls), cfg.period)
    ensures var c, t, end := s.credits[id], Run(cfg, s, calls), LastBlock(0, calls);
            && id in t.credits && t.credits[id].accrued <= OneShot(c, end, cfg.period)
            && OneShot(c, end, cfg.period) - t.credits[id].accrued
               <= OneShot(c, c.lastInterestBlock, cfg.period) - c.accrued + |calls|
                  - (if c.lastInterestBlock == c.issuedAt then 1 else 0)
    decreases |calls|
  {
    var c, now, rest := s.credits[id], calls[0].now, calls[1..];
    assert now <= LastBlock(0, calls) by { ChronologicalEnd(now, rest); }
    AlignedAccrual(cfg, s, id, now, LastBlock(0, calls));
    var t := Step(cfg, s, now, Accrue(id));
    assert Run(cfg, s, calls) == Run(cfg, t, rest);
    if rest == [] {
      assert Run(cfg, t, rest) == t;
    } else {
      assert LastBlock(0, rest) == LastBlock(0, calls);
      ChronologicalFrom(t.credits[id].lastInterestBlock, now, rest);
      AlignedAccruals(cfg, t, id, rest);
    }
    hide Step, Run, Whole, FullInterest, Periods;
  }

  lemma {:induction false} ChronologicalEnd(now: nat, calls: seq<Timed>)
    requires Chronological(now, calls)
    ensures now <= LastBlock(now, calls)
    decreases |calls|
  {
    if calls != [] {
      ChronologicalEnd(calls[0].now, calls[1..]);
    }
  }

  lemma ChronologicalFrom(earlier: nat, now: nat, calls: seq<Timed>)
    requires earlier <= now && Chronological(now, calls)
    ensures Chronological(earlier, calls)
  {}

  /** However often a fresh credit is accrued at the ends of its periods, k accruals fall short of the
      one-shot interest by at most k - 1 plancks, and never exceed it. */
  lemma {:induction false} AccrualsLoseLittle(cfg: Config, s: Storage, id: nat, calls: seq<Timed>)
    requires cfg.period > 0 && id in s.credits && calls != []
    requires var c := s.credits[id];
             && c.status == Active && c.outstanding == c.amount && c.accrued == 0 && c.lastInterestBlock == c.issuedAt
             && Aligned(c, id, cfg.period, calls) && Chronological(c.issuedAt, calls)
             && InWidth(c, LastBlock(0, calls), cfg.period)
    ensures var t, owed := Run(cfg, s, calls), OneShot(s.credits[id], LastBlock(0, calls), cfg.period);
            id in t.credits && owed - (|calls| - 1) <= t.credits[id].accrued <= owed
  {
    var c := s.credits[id];
    NothingAtOnce(c, cfg.period);
    MultipleModulo(cfg.period, 0);
    AlignedAccruals(cfg, s, id, calls);
    hide Run, FullInterest, Aligned;
  }

  lemma OneShotMonotone(c: Credit, now: nat, later: nat, period: nat)
    requires c.issuedAt <= now <= later
    ensures OneShot(c, now, period) <= OneShot(c, later, period)
  {
    AccrualBounded(c.(outstanding := 0, lastInterestBlock := now), later, period);
  }

  lemma IssueKeepsInterestBounded(cfg: Config, s: Storage, now: nat, id: nat)
    requires InterestBounded(cfg, s, now) && IssueCredit(cfg, s, now, id).Ok?
    ensures InterestBounded(cfg, IssueCredit(cfg, s, now, id).value, now)
  {
    hide FullInterest;
    var t := IssueCredit(cfg, s, now, id).value;
    forall i ensures Total(InterestOn(i), t.events) == Total(InterestOn(i), s.events) {
      TotalAppend(InterestOn(i), s.events, CreditIssued(s.nextCredit, t.credits[s.nextCredit].amount));
    }
  }

  lemma AccrueKeepsInterestBounded(cfg: Config, s: Storage, now: nat, id: nat)
    requires InterestBounded(cfg, s, now) && AccrueInterest(cfg, s, now, id).Ok?
    ensures InterestBounded(cfg, AccrueInterest(cfg, s, now, id).value, now)
  {
    AccrualBounded(s.credits[id], now, cfg.period);
    hide FullInterest, AccruedSince, Total;
  }

  lemma RepayKeepsInterestBounded(cfg: Config, s: Storage, now: nat, citizen: Account, id: nat, amount: nat)
    requires InterestBounded(cfg, s, now) && RepayCredit(cfg, s, now, citizen, id, amount).Ok?
    ensures InterestBounded(cfg, RepayCredit(cfg, s, now, citizen, id, amount).value, now)
  {
    RepayEffect(cfg, s, now, citizen, id, amount);
    hide FullInterest, AccruedSince, Total, RepayCredit;
    var t := RepayCredit(cfg, s, now, citizen, id, amount).value;
    var due := UpToDate(cfg, s.credits[id], now);
    var interest, principal := InterestPart(due, amount), PrincipalPart(due, amount);
    AccrualBounded(s.credits[id], now, cfg.period);
    forall i ensures Total(InterestOn(i), t.events)
                     == Total(InterestOn(i), s.events) + if i == id then interest else 0 {
      TotalAppend(InterestOn(i), s.events, CreditRepaid(id, principal, interest));
    }
  }

  lemma StepKeepsInterestBounded(cfg: Config, s: Storage, before: nat, now: nat, call: Call)
    requires InterestBounded(cfg, s, before) && before <= now
    ensures InterestBounded(cfg, Step(cfg, s, now, call), now)
  {
    hide FullInterest, Total, IssueCredit, AccrueInterest, RepayCredit;
    if Dispatch(cfg, s, now, call).Ok? {
      match call
      case Issue(id) => IssueKeepsInterestBounded(cfg, s, now, id);
      case Accrue(id) => AccrueKeepsInterestBounded(cfg, s, now, id);
      case Repay(citizen, id, amount) => RepayKeepsInterestBounded(cfg, s, now, citizen, id, amount);
      case _ =>
    }
  }

  /** However accruals, repayments and defaults interleave, interest paid plus interest still
      owed never exceeds the one-shot interest on the full principal. */
  lemma {:induction false} InterestNeverExceedsOneShot(cfg: Config, s: Storage, now: nat, calls: seq<Timed>)
    requires InterestBounded(cfg, s, now) && Chronological(now, calls)
    ensures var t, end := Run(cfg, s, calls), LastBlock(now, calls);
            && InterestBounded(cfg, t, end)
            && forall id :: id in t.credits ==>
                 Total(InterestOn(id), t.events) + t.credits[id].accrued <= OneShot(t.credits[id], end, cfg.period)
    decreases |calls|
  {
    if calls == [] {
      forall id | id in s.credits {
        OneShotMonotone(s.credits[id], s.credits[id].lastInterestBlock, now, cfg.period);
      }
    } else {
      var At(block, call) := calls[0];
      StepKeepsInterestBounded(cfg, s, now, block, call);
      InterestNeverExceedsOneShot(cfg, Step(cfg, s, block, call), block, calls[1..]);
    }
  }

  // ================================================================ contracts stay matched

  ghost predicate Refers(s: Storage, credit: nat, collateral: nat) {
    credit in s.credits && s.credits[credit].collateralId == collateral
  }

  ghost predicate HasCredit(s: Storage, collateral: nat) { exists i :: Refers(s, i, collateral) }

  ghost predicate CreditSound(s: Storage, c: Credit) {
    && c.collateralId in s.collaterals
    && var col := s.collaterals[c.collateralId];
       && c.citizen == col.citizen
       && c.amount == SatMul(col.net, 9)
       && col.status == (if c.status == Repaid then Released else Backing)
       && c.outstanding <= c.amount
       && (c.outstanding == 0 <==> c.status == Repaid)
       && (c.status == Repaid ==> c.accrued == 0)
  }

  ghost predicate CollateralSound(col: Collateral) {
    col.amount > 0 && col.fee == col.amount / 10 && col.net == col.amount - col.fee
  }

  /** Contracts are numbered below their counters and each collateral's split adds up. */
  ghost predicate Numbered(s: Storage) {
    && (forall k :: k in s.collaterals ==> k < s.nextCollateral && CollateralSound(s.collaterals[k]))
    && (forall i :: i in s.credits ==> i < s.nextCredit)
  }

  ghost predicate CreditsSound(s: Storage) {
    forall i :: i in s.credits ==> CreditSound(s, s.credits[i])
  }

  /** No two credits share a collateral. */
  ghost predicate Exclusive(s: Storage) {
    forall i, j :: i in s.credits && j in s.credits && i != j ==>
      s.credits[i].collateralId != s.credits[j].collateralId
  }

  /** A collateral that left `Locked` has a credit. */
  ghost predicate Covered(s: Storage) {
    forall k :: k in s.collaterals && s.collaterals[k].status != Locked ==> HasCredit(s, k)
  }

  ghost predicate Matched(s: Storage) {
    Numbered(s) && CreditsSound(s) && Exclusive(s) && Covered(s)
  }

  lemma LockKeepsMatched(s: Storage, now: nat, citizen: Account, amount: nat, asset: AssetType)
    requires Matched(s) && LockCollateral(s, now, citizen, amount, asset).Ok?
    ensures Matched(LockCollateral(s, now, citizen, amount, asset).value)
  {
    var t := LockCollateral(s, now, citizen, amount, asset).value;
    KeepsReferences(s, t);
    assert Numbered(t) by { hide CreditSound, HasCredit; }
    assert CreditsSound(t) by { hide HasCredit; }
    assert Exclusive(t) && Covered(t) by { hide CreditSound, HasCredit; }
  }

  /** Calls that add no credit keep who refers to what. */
  lemma KeepsReferences(s: Storage, t: Storage)
    requires s.credits.Keys == t.credits.Keys
    requires forall i :: i in s.credits ==> s.credits[i].collateralId == t.credits[i].collateralId
    ensures forall i, k :: Refers(s, i, k) <==> Refers(t, i, k)
    ensures forall k :: HasCredit(s, k) <==> HasCredit(t, k)
  {
    forall k ensures HasCredit(s, k) <==> HasCredit(t, k) {
      forall i ensures Refers(s, i, k) <==> Refers(t, i, k) {}
    }
  }

  /** A new credit on a locked collateral nobody refers to. */
  ghost predicate Issued(s: Storage, t: Storage, id: nat, c: Credit) {
    && id in s.collaterals && s.collaterals[id].status == Locked
    && var col := s.collaterals[id];
       && c.citizen == col.citizen && c.collateralId == id && c.status == Active
       && c.amount == c.outstanding == SatMul(col.net, 9)
       && t.credits == s.credits[s.nextCredit := c]
       && t.collaterals == s.collaterals[id := col.(status := Backing)]
       && t.nextCredit == s.nextCredit + 1 && t.nextCollateral == s.nextCollateral
  }

  lemma IssueEffect(cfg: Config, s: Storage, now: nat, id: nat)
    requires IssueCredit(cfg, s, now, id).Ok?
    ensures var t := IssueCredit(cfg, s, now, id).value;
            && Issued(s, t, id, t.credits[s.nextCredit])
            && t.totalOutstanding == SatAdd(s.totalOutstanding, t.credits[s.nextCredit].amount)
            && t.ledger == s.ledger.DepositCreating(s.collaterals[id].citizen, t.credits[s.nextCredit].amount)
            && t.events == s.events + [CreditIssued(s.nextCredit, t.credits[s.nextCredit].amount)]
            && t.bank == s.bank
  {}

  lemma IssueKeepsCreditsSound(s: Storage, t: Storage, id: nat, c: Credit)
    requires Numbered(s) && CreditsSound(s) && Issued(s, t, id, c)
    ensures CreditsSound(t)
  {
    assert CollateralSound(s.collaterals[id]);
    forall i | i in t.credits ensures CreditSound(t, t.credits[i]) {
      if i in s.credits { assert CreditSound(s, s.credits[i]); }
    }
  }

  lemma IssueKeepsCovered(s: Storage, t: Storage, id: nat, c: Credit)
    requires Numbered(s) && Covered(s) && Issued(s, t, id, c)
    ensures Covered(t)
  {
    assert Refers(t, s.nextCredit, id);
    forall k | k in s.collaterals && HasCredit(s, k) ensures HasCredit(t, k) {
      var i :| Refers(s, i, k);
      assert Refers(t, i, k);
    }
    hide CollateralSound;
  }

  lemma IssueKeepsMatched(s: Storage, t: Storage, id: nat, c: Credit)
    requires Matched(s) && Issued(s, t, id, c)
    ensures Matched(t)
  {
    forall i | i in s.credits ensures s.credits[i].collateralId != id {
      assert CreditSound(s, s.credits[i]);
    }
    IssueKeepsCreditsSound(s, t, id, c);
    IssueKeepsCovered(s, t, id, c);
    hide CreditsSound, Covered, CollateralSound;
  }

  /** What a successful repayment leaves behind, in terms of the credit brought up to date. */
  lemma RepayEffect(cfg: Config, s: Storage, now: nat, citizen: Account, id: nat, amount: nat)
    requires RepayCredit(cfg, s, now, citizen, id, amount).Ok?
    ensures id in s.credits && s.credits[id].status == Active && s.credits[id].citizen == citizen && amount > 0
    ensures var t := RepayCredit(cfg, s, now, citizen, id, amount).value;
            var due := UpToDate(cfg, s.credits[id], now);
            var left := Reduce(due, amount);
            && t.events == s.events + [CreditRepaid(id, PrincipalPart(due, amount), InterestPart(due, amount))]
            && t.totalOutstanding == SatSub(s.totalOutstanding, PrincipalPart(due, amount))
            && t.nextCredit == s.nextCredit && t.nextCollateral == s.nextCollateral && t.bank == s.bank
            && (if Settled(left)
                then && left.collateralId in s.collaterals
                     && t.credits == s.credits[id := left.(status := Repaid)]
                     && t.collaterals == s.collaterals[left.collateralId :=
                                           s.collaterals[left.collateralId].(status := Released)]
                else t.credits == s.credits[id := left] && t.collaterals == s.collaterals)
  {
    hide AccruedSince, Rescore;
  }

  /** Interest first: principal is touched only once no interest is left, and together the two
      parts are the amount offered or the whole debt, whichever is smaller. */
  lemma InterestFirst(c: Credit, amount: nat)
    ensures PrincipalPart(c, amount) > 0 ==> Reduce(c, amount).accrued == 0
    ensures InterestPart(c, amount) + PrincipalPart(c, amount) == Min(amount, c.accrued + c.outstanding)
  {}

  /** Repaying keeps a credit's terms, never raises its debt, and clears the principal only
      together with the interest. */
  lemma RepaidPart(cfg: Config, c: Credit, now: nat, amount: nat)
    ensures var left := Reduce(UpToDate(cfg, c, now), amount);
            && left == c.(accrued := left.accrued, outstanding := left.outstanding, lastInterestBlock := now)
            && left.outstanding <= c.outstanding
            && (c.outstanding > 0 && left.outstanding == 0 ==> Settled(left))
  {
    hide AccruedSince;
  }

  /** One Active credit is replaced by what is left of it; a closed one releases its collateral. */
  ghost predicate Replaced(s: Storage, t: Storage, id: nat, d: Credit) {
    && id in s.credits && s.credits[id].status == Active
    && var c := s.credits[id];
       && d.collateralId == c.collateralId && d.citizen == c.citizen && d.amount == c.amount
       && d.outstanding <= c.outstanding
       && (d.outstanding == 0 <==> d.status == Repaid)
       && (d.status == Repaid ==> d.accrued == 0)
       && t.nextCollateral == s.nextCollateral && t.nextCredit == s.nextCredit
       && t.credits == s.credits[id := d]
       && d.collateralId in s.collaterals
       && t.collaterals == if d.status == Repaid
                           then s.collaterals[d.collateralId := s.collaterals[d.collateralId].(status := Released)]
                           else s.collaterals
  }

  lemma ReplacedCreditSound(s: Storage, t: Storage, id: nat, d: Credit, i: nat)
    requires Matched(s) && Replaced(s, t, id, d) && i in t.credits
    ensures CreditSound(t, t.credits[i])
  {
    assert CreditSound(s, s.credits[id]) && CreditSound(s, s.credits[i]);
  }

  lemma ReplaceKeepsLinks(s: Storage, t: Storage, id: nat, d: Credit)
    requires Numbered(s) && Exclusive(s) && Covered(s) && Replaced(s, t, id, d)
    requires s.collaterals[d.collateralId].status != Locked
    ensures Numbered(t) && Exclusive(t) && Covered(t)
  {
    KeepsReferences(s, t);
    hide HasCredit;
  }

  lemma ReplaceKeepsMatched(s: Storage, t: Storage, id: nat, d: Credit)
    requires Matched(s) && Replaced(s, t, id, d)
    ensures Matched(t)
  {
    assert CreditSound(s, s.credits[id]);
    ReplaceKeepsLinks(s, t, id, d);
    forall i | i in t.credits ensures CreditSound(t, t.credits[i]) {
      ReplacedCreditSound(s, t, id, d, i);
    }
    hide CreditSound, Numbered, Exclusive, Covered;
  }

  /** A repayment replaces one credit, lowering its debt by the principal burned. */
  lemma RepayReplaces(cfg: Config, s: Storage, now: nat, citizen: Account, id: nat, amount: nat)
    requires Matched(s) && RepayCredit(cfg, s, now, citizen, id, amount).Ok?
    ensures var t := RepayCredit(cfg, s, now, citizen, id, amount).value;
            && id in t.credits && Replaced(s, t, id, t.credits[id])
            && t.credits[id].outstanding
               == s.credits[id].outstanding - PrincipalPart(UpToDate(cfg, s.credits[id], now), amount)
  {
    RepayEffect(cfg, s, now, citizen, id, amount);
    RepaidPart(cfg, s.credits[id], now, amount);
    assert CreditSound(s, s.credits[id]);
    hide AccruedSince, RepayCredit, Matched;
  }

  lemma RepayKeepsMatched(cfg: Config, s: Storage, now: nat, citizen: Account, id: nat, amount: nat)
    requires Matched(s) && RepayCredit(cfg, s, now, citizen, id, amount).Ok?
    ensures Matched(RepayCredit(cfg, s, now, citizen, id, amount).value)
  {
    RepayReplaces(cfg, s, now, citizen, id, amount);
    hide RepayCredit, Matched, Replaced;
    var t := RepayCredit(cfg, s, now, citizen, id, amount).value;
    ReplaceKeepsMatched(s, t, id, t.credits[id]);
  }

  /** Accruing and declaring default change one credit and neither its contract nor its debt. */
  lemma TouchKeepsMatched(s: Storage, t: Storage)
    requires Matched(s)
    requires t.nextCollateral == s.nextCollateral && t.nextCredit == s.nextCredit
    requires t.collaterals.Keys == s.collaterals.Keys && t.credits.Keys == s.credits.Keys
    requires forall k :: k in s.collaterals ==>
               t.collaterals[k] == s.collaterals[k].(requested := t.collaterals[k].requested)
    requires forall i :: i in s.credits ==>
               var c, d := s.credits[i], t.credits[i];
               && d == c.(accrued := d.accrued, lastInterestBlock := d.lastInterestBlock, status := d.status)
               && (d == c || (c.status == Active && d.status != Repaid))
    ensures Matched(t)
  {
    KeepsReferences(s, t);
    forall i | i in t.credits ensures CreditSound(t, t.credits[i]) {
      assert CreditSound(s, s.credits[i]);
    }
  }

  lemma StepKeepsMatched(cfg: Config, s: Storage, now: nat, call: Call)
    requires Matched(s)
    ensures Matched(Step(cfg, s, now, call))
  {
    hide AccruedSince, Matched, LockCollateral, IssueCredit, RepayCredit;
    if Dispatch(cfg, s, now, call).Ok? {
      match call
      case Lock(citizen, amount, asset) => LockKeepsMatched(s, now, citizen, amount, asset);
      case Issue(id) =>
        IssueEffect(cfg, s, now, id);
        IssueKeepsMatched(s, Step(cfg, s, now, call), id, Step(cfg, s, now, call).credits[s.nextCredit]);
      case Repay(citizen, id, amount) => RepayKeepsMatched(cfg, s, now, citizen, id, amount);
      case _ => TouchKeepsMatched(s, Step(cfg, s, now, call));
    }
  }

  /** The status of a collateral contract says exactly which credit refers to it. */
  lemma StatusTellsTheCredit(s: Storage, k: nat)
    requires Matched(s) && k in s.collaterals
    ensures s.collaterals[k].status == Locked <==> forall i :: !Refers(s, i, k)
    ensures s.collaterals[k].status == Backing
            <==> exists i :: Refers(s, i, k) && s.credits[i].status in {Active, Defaulted}
                             && forall j :: Refers(s, j, k) ==> j == i
    ensures s.collaterals[k].status == Released
            <==> exists i :: Refers(s, i, k) && s.credits[i].status == Repaid
                             && forall j :: Refers(s, j, k) ==> j == i
  {
    forall i | Refers(s, i, k) ensures CreditSound(s, s.credits[i]) {}
    if s.collaterals[k].status != Locked {
      var i :| Refers(s, i, k);
      assert CreditSound(s, s.credits[i]);
    }
  }

  // ================================================================ issuance and the running total

  function OutstandingOf(id: nat, c: Credit): int { c.outstanding }

  ghost predicate NineFold(s: Storage) {
    forall i :: i in s.credits ==>
      s.credits[i].collateralId in s.collaterals && s.credits[i].amount == 9 * s.collaterals[s.credits[i].collateralId].net
  }

  /** `base` is the issuance that no credit of this pallet created. */
  ghost predicate Books(s: Storage, base: nat) {
    && s.ledger.Balanced()
    && s.totalOutstanding == Sum(s.credits, OutstandingOf)
    && s.ledger.issuance == base + s.totalOutstanding
    && s.totalOutstanding == Total(Minted, s.events) - Total(Burned, s.events)
    && NineFold(s)
  }

  /** The mint of an issued credit takes effect. */
  predicate MintLands(s: Storage, call: Call) {
    call.Issue? && call.id in s.collaterals ==>
      s.ledger.Lands(s.collaterals[call.id].citizen, 9 * s.collaterals[call.id].net)
  }

  lemma IssueKeepsNineFold(s: Storage, t: Storage, id: nat, c: Credit)
    requires Matched(s) && NineFold(s) && Issued(s, t, id, c) && 9 * s.collaterals[id].net <= U128_MAX
    ensures NineFold(t)
  {
    hide CreditSound, HasCredit;
  }

  lemma IssueKeepsBooks(cfg: Config, s: Storage, base: nat, now: nat, id: nat)
    requires Matched(s) && Books(s, base) && MintLands(s, Issue(id)) && IssueCredit(cfg, s, now, id).Ok?
    ensures Books(IssueCredit(cfg, s, now, id).value, base)
  {
    IssueEffect(cfg, s, now, id);
    hide IssueCredit, Sum, Total, CreditsSound, Covered, Exclusive;
    var t := IssueCredit(cfg, s, now, id).value;
    var n := s.nextCredit;
    IssueKeepsNineFold(s, t, id, t.credits[n]);
    hide NineFold;
    DepositConserves(s.ledger, s.collaterals[id].citizen, t.credits[n].amount);
    SumUpdate(s.credits, OutstandingOf, n, t.credits[n]);
    TotalAppend(Minted, s.events, CreditIssued(n, t.credits[n].amount));
    TotalAppend(Burned, s.events, CreditIssued(n, t.credits[n].amount));
  }

  /** Where the money of a repayment goes. */
  lemma RepayMoney(cfg: Config, s: Storage, now: nat, citizen: Account, id: nat, amount: nat)
    requires s.ledger.Balanced() && RepayCredit(cfg, s, now, citizen, id, amount).Ok?
    ensures s.bank.Some?
    ensures var t, bank := RepayCredit(cfg, s, now, citizen, id, amount).value, s.bank.value;
            var due := UpToDate(cfg, s.credits[id], now);
            var interest, principal := InterestPart(due, amount), PrincipalPart(due, amount);
            var returned := if Settled(Reduce(due, amount)) then s.collaterals[due.collateralId].net else 0;
            && t.ledger.Balanced() && t.ledger.ed == s.ledger.ed
            && t.ledger.issuance == s.ledger.issuance - principal
            && (citizen != bank ==>
                  && t.ledger.Free(bank) == s.ledger.Free(bank) + interest - returned
                  && t.ledger.Free(citizen) == s.ledger.Free(citizen) - interest - principal + returned)
            && (forall a :: a != citizen && a != bank ==> t.ledger.Free(a) == s.ledger.Free(a))
  {
    hide AccruedSince, Rescore;
    var bank := s.bank.value;
    var due := UpToDate(cfg, s.credits[id], now);
    var interest, principal := InterestPart(due, amount), PrincipalPart(due, amount);
    TransferConserves(s.ledger, citizen, bank, interest, KeepAlive);
    var paid := s.ledger.Transfer(citizen, bank, interest, KeepAlive).value;
    BurnConserves(paid, citizen, principal);
    var burned := paid.Burn(citizen, principal).value;
    if Settled(Reduce(due, amount)) {
      TransferConserves(burned, bank, citizen, s.collaterals[due.collateralId].net, KeepAlive);
    }
  }

  lemma ReplaceKeepsNineFold(s: Storage, t: Storage, id: nat, d: Credit)
    requires NineFold(s) && Replaced(s, t, id, d)
    ensures NineFold(t)
  {}

  lemma RepayKeepsTotal(cfg: Config, s: Storage, now: nat, citizen: Account, id: nat, amount: nat)
    requires Matched(s) && s.totalOutstanding == Sum(s.credits, OutstandingOf)
    requires RepayCredit(cfg, s, now, citizen, id, amount).Ok?
    ensures var t := RepayCredit(cfg, s, now, citizen, id, amount).value;
            var principal := PrincipalPart(UpToDate(cfg, s.credits[id], now), amount);
            && principal <= s.totalOutstanding  // the subtraction never clips
            && t.totalOutstanding == s.totalOutstanding - principal == Sum(t.credits, OutstandingOf)
  {
    RepayEffect(cfg, s, now, citizen, id, amount);
    RepayReplaces(cfg, s, now, citizen, id, amount);
    hide UpToDate, InterestPart, PrincipalPart, Reduce, Settled, RepayCredit, Sum, Matched;
    SumUpdate(s.credits, OutstandingOf, id, RepayCredit(cfg, s, now, citizen, id, amount).value.credits[id]);
    SumMember(s.credits, OutstandingOf, id);
  }

  lemma RepayKeepsBooks(cfg: Config, s: Storage, base: nat, now: nat, citizen: Account, id: nat, amount: nat)
    requires Matched(s) && Books(s, base) && RepayCredit(cfg, s, now, citizen, id, amount).Ok?
    ensures Books(RepayCredit(cfg, s, now, citizen, id, amount).value, base)
  {
    hide UpToDate, InterestPart, PrincipalPart, Reduce, Settled, Replaced, RepayCredit, Total, Sum, Matched, NineFold,
         Ledger.Balanced;
    var t := RepayCredit(cfg, s, now, citizen, id, amount).value;
    RepayEffect(cfg, s, now, citizen, id, amount);
    var due := UpToDate(cfg, s.credits[id], now);
    var e := CreditRepaid(id, PrincipalPart(due, amount), InterestPart(due, amount));
    RepayMoney(cfg, s, now, citizen, id, amount);
    RepayKeepsTotal(cfg, s, now, citizen, id, amount);
    RepayReplaces(cfg, s, now, citizen, id, amount);
    ReplaceKeepsNineFold(s, t, id, t.credits[id]);
    TotalAppend(Minted, s.events, e);
    TotalAppend(Burned, s.events, e);
  }

  lemma StepKeepsBooks(cfg: Config, s: Storage, base: nat, now: nat, call: Call)
    requires Matched(s) && Books(s, base) && MintLands(s, call)
    ensures Books(Step(cfg, s, now, call), base)
  {
    hide AccruedSince, IssueCredit, RepayCredit, Sum, Total, CreditSound, CollateralSound, HasCredit;
    var t := Step(cfg, s, now, call);
    if Dispatch(cfg, s, now, call).Ok? {
      match call
      case Lock(citizen, amount, asset) => TransferConserves(s.ledger, citizen, s.bank.value, amount, KeepAlive);
      case Issue(id) => IssueKeepsBooks(cfg, s, base, now, id);
      case Repay(citizen, id, amount) => RepayKeepsBooks(cfg, s, base, now, citizen, id, amount);
      case Accrue(id) => SumUpdate(s.credits, OutstandingOf, id, t.credits[id]);
      case Default(id) => SumUpdate(s.credits, OutstandingOf, id, t.credits[id]);
      case Foreign(from, to, amount) => TransferConserves(s.ledger, from, to, amount, KeepAlive);
      case _ =>
    }
  }

  ghost predicate MintsLand(cfg: Config, s: Storage, calls: seq<Timed>)
    decreases |calls|
  {
    calls == [] || (MintLands(s, calls[0].call) && MintsLand(cfg, Step(cfg, s, calls[0].now, calls[0].call), calls[1..]))
  }

  /** In every run the running total is the sum over all credits, and issuance minus that total
      never moves. */
  lemma {:induction false} IssuanceTracksCredit(cfg: Config, s: Storage, base: nat, calls: seq<Timed>)
    requires Matched(s) && Books(s, base) && MintsLand(cfg, s, calls)
    ensures Matched(Run(cfg, s, calls)) && Books(Run(cfg, s, calls), base)
    decreases |calls|
  {
    if calls != [] {
      var At(now, call) := calls[0];
      StepKeepsMatched(cfg, s, now, call);
      StepKeepsBooks(cfg, s, base, now, call);
      IssuanceTracksCredit(cfg, Step(cfg, s, now, call), base, calls[1..]);
    }
  }

  // ================================================================ the bank's balance

  function FeeOf(id: nat, col: Collateral): int { col.fee }

  function HeldOf(id: nat, col: Collateral): int { if col.status == Released then 0 else col.net }

  /** The bank holds its opening balance, every fee, every interest payment and the net collateral
      of every contract not yet released. */
  ghost predicate Backed(s: Storage, bank: Account, opening: nat) {
    && s.bank == Some(bank)
    && s.ledger.Free(bank)
       == opening + Sum(s.collaterals, FeeOf) + Total(Interest, s.events) + Sum(s.collaterals, HeldOf)
  }

  /** The bank signs nothing and is not paid from outside this pallet. */
  predicate LeavesBankAlone(bank: Account, call: Call) {
    match call
    case SetBank(account) => account == bank
    case Lock(citizen, _, _) => citizen != bank
    case Repay(citizen, _, _) => citizen != bank
    case Foreign(from, to, _) => from != bank && to != bank
    case _ => true
  }

  ghost predicate NoBankCitizen(s: Storage, bank: Account) {
    forall k :: k in s.collaterals ==> s.collaterals[k].citizen != bank
  }

  lemma LockMovesBacking(s: Storage, bank: Account, opening: nat, now: nat, citizen: Account, amount: nat, asset: AssetType)
    requires Matched(s) && Backed(s, bank, opening) && LockCollateral(s, now, citizen, amount, asset).Ok?
    ensures Backed(LockCollateral(s, now, citizen, amount, asset).value, bank, opening) <==> citizen != bank
  {
    var t := LockCollateral(s, now, citizen, amount, asset).value;
    var k := s.nextCollateral;
    TransferConserves(s.ledger, citizen, bank, amount, KeepAlive);
    SumUpdate(s.collaterals, FeeOf, k, t.collaterals[k]);
    SumUpdate(s.collaterals, HeldOf, k, t.collaterals[k]);
    hide Sum, Total, CreditSound, CollateralSound, HasCredit;
  }

  lemma RepayKeepsBacked(cfg: Config, s: Storage, bank: Account, opening: nat, now: nat, citizen: Account, id: nat, amount: nat)
    requires Matched(s) && s.ledger.Balanced() && Backed(s, bank, opening) && citizen != bank
    requires RepayCredit(cfg, s, now, citizen, id, amount).Ok?
    ensures Backed(RepayCredit(cfg, s, now, citizen, id, amount).value, bank, opening)
  {
    RepayEffect(cfg, s, now, citizen, id, amount);
    RepayMoney(cfg, s, now, citizen, id, amount);
    assert CreditSound(s, s.credits[id]);
    hide AccruedSince, RepayCredit, Total, Sum, Matched;
    var t := RepayCredit(cfg, s, now, citizen, id, amount).value;
    var due := UpToDate(cfg, s.credits[id], now);
    TotalAppend(Interest, s.events, CreditRepaid(id, PrincipalPart(due, amount), InterestPart(due, amount)));
    var k := due.collateralId;
    SumUpdate(s.collaterals, FeeOf, k, t.collaterals[k]);
    SumUpdate(s.collaterals, HeldOf, k, t.collaterals[k]);
  }

  lemma StepKeepsBacked(cfg: Config, s: Storage, base: nat, bank: Account, opening: nat, now: nat, call: Call)
    requires Matched(s) && Books(s, base) && NoBankCitizen(s, bank) && Backed(s, bank, opening)
    requires LeavesBankAlone(bank, call)
    ensures Backed(Step(cfg, s, now, call), bank, opening) && NoBankCitizen(Step(cfg, s, now, call), bank)
  {
    hide AccruedSince, RepayCredit, Sum, Total, CreditSound, CollateralSound, HasCredit;
    var t := Step(cfg, s, now, call);
    if Dispatch(cfg, s, now, call).Ok? {
      match call
      case Lock(citizen, amount, asset) => LockMovesBacking(s, bank, opening, now, citizen, amount, asset);
      case Request(citizen, id) =>
        SumUpdate(s.collaterals, FeeOf, id, t.collaterals[id]);
        SumUpdate(s.collaterals, HeldOf, id, t.collaterals[id]);
      case Issue(id) =>
        SumUpdate(s.collaterals, FeeOf, id, t.collaterals[id]);
        SumUpdate(s.collaterals, HeldOf, id, t.collaterals[id]);
        TotalAppend(Interest, s.events, CreditIssued(s.nextCredit, t.credits[s.nextCredit].amount));
        DepositConserves(s.ledger, s.collaterals[id].citizen, t.credits[s.nextCredit].amount);
      case Repay(citizen, id, amount) =>
        RepayKeepsBacked(cfg, s, bank, opening, now, citizen, id, amount);
        RepayEffect(cfg, s, now, citizen, id, amount);
      case Foreign(from, to, amount) => TransferConserves(s.ledger, from, to, amount, KeepAlive);
      case _ =>
    }
  }

  lemma {:induction false} BankStaysBacked(cfg: Config, s: Storage, base: nat, bank: Account, opening: nat, calls: seq<Timed>)
    requires Matched(s) && Books(s, base) && NoBankCitizen(s, bank) && Backed(s, bank, opening)
    requires MintsLand(cfg, s, calls)
    requires forall i :: 0 <= i < |calls| ==> LeavesBankAlone(bank, calls[i].call)
    ensures var t := Run(cfg, s, calls);
            Matched(t) && Books(t, base) && NoBankCitizen(t, bank) && Backed(t, bank, opening)
    decreases |calls|
  {
    if calls != [] {
      var At(now, call) := calls[0];
      StepKeepsMatched(cfg, s, now, call);
      StepKeepsBooks(cfg, s, base, now, call);
      StepKeepsBacked(cfg, s, base, bank, opening, now, call);
      BankStaysBacked(cfg, Step(cfg, s, now, call), base, bank, opening, calls[1..]);
    }
  }

  /** Taking interest and principal in turn succeeds exactly when both fit above the deposit. */
  lemma CollectsExactly(l: Ledger, citizen: Account, bank: Account, interest: nat, principal: nat)
    requires l.Balanced() && citizen != bank && l.Free(bank) >= l.ed && interest + principal > 0
    ensures var paid := l.Transfer(citizen, bank, interest, KeepAlive);
            && (paid.Some? && paid.value.Burn(citizen, principal).Some? <==> l.Free(citizen) >= interest + principal + l.ed)
            && (paid.Some? && paid.value.Burn(citizen, principal).Some? ==>
                  var r := paid.value.Burn(citizen, principal).value;
                  && r.Free(citizen) == l.Free(citizen) - interest - principal
                  && r.Free(bank) == l.Free(bank) + interest && r.ed == l.ed)
  {
    hide Ledger.Balanced;
    if l.Transfer(citizen, bank, interest, KeepAlive).Some? {
      TransferConserves(l, citizen, bank, interest, KeepAlive);
      var paid := l.Transfer(citizen, bank, interest, KeepAlive).value;
      if paid.Burn(citizen, principal).Some? {
        BurnConserves(paid, citizen, principal);
      }
    }
  }

  lemma RepaySteps(cfg: Config, s: Storage, bank: Account, now: nat, citizen: Account, id: nat, amount: nat)
    requires s.bank == Some(bank) && amount > 0
    requires id in s.credits && s.credits[id].citizen == citizen && s.credits[id].status == Active
    requires s.credits[id].collateralId in s.collaterals
    ensures var due := UpToDate(cfg, s.credits[id], now);
            var paid := s.ledger.Transfer(citizen, bank, InterestPart(due, amount), KeepAlive);
            RepayCredit(cfg, s, now, citizen, id, amount).Ok?
            <==> && paid.Some? && paid.value.Burn(citizen, PrincipalPart(due, amount)).Some?
                 && (Settled(Reduce(due, amount)) ==>
                       paid.value.Burn(citizen, PrincipalPart(due, amount)).value
                         .Transfer(bank, citizen, s.collaterals[due.collateralId].net, KeepAlive).Some?)
  {
    hide AccruedSince, Rescore, Ledger.Transfer, Ledger.Burn;
  }

  /** A backed bank can always hand the collateral back: a repayment succeeds exactly when the
      citizen can pay what it costs and keep the existential deposit. */
  lemma RepaymentSucceedsExactly(cfg: Config, s: Storage, base: nat, bank: Account, opening: nat,
                                 now: nat, citizen: Account, id: nat, amount: nat)
    requires Matched(s) && Books(s, base) && Backed(s, bank, opening) && opening >= s.ledger.ed
    requires citizen != bank && amount > 0
    requires id in s.credits && s.credits[id].citizen == citizen && s.credits[id].status == Active
    ensures var due := UpToDate(cfg, s.credits[id], now);
            RepayCredit(cfg, s, now, citizen, id, amount).Ok?
            <==> s.ledger.Free(citizen) >= Min(amount, due.accrued + due.outstanding) + s.ledger.ed
  {
    assert CreditSound(s, s.credits[id]);
    hide AccruedSince, RepayCredit, Sum, Total, Matched, Ledger.Burn, Ledger.Balanced;
    var due := UpToDate(cfg, s.credits[id], now);
    var k, interest, principal := due.collateralId, InterestPart(due, amount), PrincipalPart(due, amount);
    BankCoversReturn(s, bank, opening, k);
    RepaySteps(cfg, s, bank, now, citizen, id, amount);
    InterestFirst(due, amount);
    CollectsExactly(s.ledger, citizen, bank, interest, principal);
    hide UpToDate, InterestPart, PrincipalPart, Reduce, Settled, Backed;
  }

  /** Above its opening balance a backed bank holds the net collateral of any contract not released. */
  lemma BankCoversReturn(s: Storage, bank: Account, opening: nat, k: nat)
    requires Numbered(s) && Backed(s, bank, opening) && k in s.collaterals && s.collaterals[k].status == Backing
    ensures s.ledger.Free(bank) >= opening + s.collaterals[k].net
  {
    SumNonNegative(s.collaterals, FeeOf);
    SumMember(s.collaterals, HeldOf, k);
    hide Sum, Total;
  }

  /** What a repayment costs its citizen: never more than the amount offered, and the rest of the
      debt is left standing. */
  lemma RepaymentCharge(cfg: Config, s: Storage, now: nat, citizen: Account, id: nat, amount: nat)
    requires s.ledger.Balanced() && Matched(s) && s.bank != Some(citizen)
    requires RepayCredit(cfg, s, now, citizen, id, amount).Ok?
    ensures var t, due := RepayCredit(cfg, s, now, citizen, id, amount).value, UpToDate(cfg, s.credits[id], now);
            var charge, d := Min(amount, due.accrued + due.outstanding), t.credits[id];
            && id in t.credits
            && d.accrued + d.outstanding == due.accrued + due.outstanding - charge
            && (d.outstanding < due.outstanding ==> d.accrued == 0)
            && t.ledger.Free(citizen) == s.ledger.Free(citizen) - charge
                 + (if d.status == Repaid then s.collaterals[d.collateralId].net else 0)
            && s.ledger.issuance - t.ledger.issuance == due.outstanding - d.outstanding
  {
    RepayEffect(cfg, s, now, citizen, id, amount);
    RepayMoney(cfg, s, now, citizen, id, amount);
    assert CreditSound(s, s.credits[id]);
    InterestFirst(UpToDate(cfg, s.credits[id], now), amount);
    hide AccruedSince, RepayCredit, Matched;
  }

  /** The stored count of repaid credits grows with a closing repayment exactly when the score
      was not already at its maximum. */
  lemma ClosingCountsBelowMaximum(cfg: Config, s: Storage, now: nat, citizen: Account, id: nat, amount: nat)
    requires RepayCredit(cfg, s, now, citizen, id, amount).Ok?
    requires RepayCredit(cfg, s, now, citizen, id, amount).value.credits[id].status == Repaid
    ensures var t := RepayCredit(cfg, s, now, citizen, id, amount).value;
            t.ScoreOf(citizen).repaid == s.ScoreOf(citizen).repaid + 1 <==> s.ScoreOf(citizen).score != 850
  {
    hide AccruedSince;
  }

  // ================================================================ from an empty pallet

  lemma FreshStorage(cfg: Config, ledger: Ledger, bank: Option<Account>, now: nat)
    requires ledger.Balanced()
    ensures var s := Fresh(ledger, bank);
            && InterestBounded(cfg, s, now) && Matched(s) && Books(s, ledger.issuance)
            && (bank.Some? ==> Backed(s, bank.value, ledger.Free(bank.value)) && NoBankCitizen(s, bank.value))
  {}

  /** A citizen's debt, and why its saturating accumulation never saturates. */
  function ActiveDebt(who: Account): (nat, Credit) -> int {
    (id: nat, c: Credit) => if c.citizen == who && c.status == Active then c.outstanding else 0
  }

  lemma DebtWithinTotal(s: Storage, base: nat, who: Account)
    requires Books(s, base)
    ensures 0 <= Sum(s.credits, ActiveDebt(who)) <= s.totalOutstanding <= U128_MAX
  {
    SumMonotone(s.credits, ActiveDebt(who), OutstandingOf);
    SumNonNegative(s.credits, ActiveDebt(who));
  }

  // ================================================================ scores and rates

  ghost predicate ScoresInRange(s: Storage) {
    forall a :: a in s.scores ==> 300 <= s.scores[a].score <= 850
  }

  lemma StepKeepsScoresInRange(cfg: Config, s: Storage, now: nat, call: Call)
    requires ScoresInRange(s)
    ensures ScoresInRange(Step(cfg, s, now, call))
  {
    hide AccruedSince, Ledger.Transfer, Ledger.Burn, Ledger.DepositCreating, InterestPart, PrincipalPart, Reduce;
  }

  /** The daily rate is the yearly one over 365, rounded up; among the scores the pallet keeps, a
      better one is never charged more. */
  lemma RatesFollowScores(low: nat, high: nat)
    requires 300 <= low <= high <= 850
    ensures TierOf(high).DailyRateBps() <= TierOf(low).DailyRateBps()
    ensures 365 * TierOf(low).DailyRateBps() - 365 < TierOf(low).AnnualRateBps() <= 365 * TierOf(low).DailyRateBps()
  {}

  // ================================================================ every run at once

  /** From an empty pallet, over every run in which blocks move forward, mints land, and the bank
      neither signs nor is paid from outside. */
  lemma {:induction false} EveryRunFromEmpty(cfg: Config, ledger: Ledger, bank: Account, calls: seq<Timed>)
    requires ledger.Balanced() && Chronological(0, calls) && MintsLand(cfg, Fresh(ledger, Some(bank)), calls)
    requires forall i :: 0 <= i < |calls| ==> LeavesBankAlone(bank, calls[i].call)
    ensures var s := Run(cfg, Fresh(ledger, Some(bank)), calls);
            && Matched(s)
            && s.totalOutstanding == Sum(s.credits, OutstandingOf)
            && s.ledger.issuance - s.totalOutstanding == ledger.issuance
            && s.totalOutstanding == Total(Minted, s.events) - Total(Burned, s.events)
            && (forall i :: i in s.credits ==>
                  s.credits[i].collateralId in s.collaterals
                  && s.credits[i].amount == 9 * s.collaterals[s.credits[i].collateralId].net > 0)
            && s.ledger.Free(bank) == ledger.Free(bank) + Sum(s.collaterals, FeeOf)
                                      + Total(Interest, s.events) + Sum(s.collaterals, HeldOf)
            && (forall i :: i in s.credits ==>
                  Total(InterestOn(i), s.events) + s.credits[i].accrued
                  <= OneShot(s.credits[i], LastBlock(0, calls), cfg.period))
  {
    var start := Fresh(ledger, Some(bank));
    FreshStorage(cfg, ledger, Some(bank), 0);
    InterestNeverExceedsOneShot(cfg, start, 0, calls);
    BankStaysBacked(cfg, start, ledger.issuance, bank, ledger.Free(bank), calls);
    var s := Run(cfg, start, calls);
    forall i | i in s.credits ensures s.collaterals[s.credits[i].collateralId].net > 0 {
      assert CreditSound(s, s.credits[i]);
    }
    hide Run, Total, Sum, OneShot, InterestBounded, Matched;
  }
}
