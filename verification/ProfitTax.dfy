/** pallet-annual-profit-tax: one filing per organisation and year, with late penalties and a
    70/30 split between two treasuries. Years are fixed at 365 days. */
module ProfitTax {
  import opened Prelude
  import opened Currency

  const SECONDS_PER_DAY: nat := 86_400
  const SECONDS_PER_YEAR: nat := 31_536_000
  const FILING_WINDOW: nat := 105 * SECONDS_PER_DAY
  const LATE_START: nat := 106 * SECONDS_PER_DAY
  const MAX_DAYS_LATE: nat := 259
  const ANCHOR_YEAR: nat := 2026
  const ANCHOR: nat := 1_735_689_600

  // ---------------------------------------------------------------- calendar

  function YearStart(year: nat): nat {
    if year >= ANCHOR_YEAR then ANCHOR + (year - ANCHOR_YEAR) * SECONDS_PER_YEAR
    else SatSub(ANCHOR, (ANCHOR_YEAR - year) * SECONDS_PER_YEAR)
  }

  predicate IsOnTime(now: nat, year: nat) { YearStart(year) <= now <= YearStart(year) + FILING_WINDOW }

  function YearsElapsed(now: nat): nat { if now >= ANCHOR then (now - ANCHOR) / SECONDS_PER_YEAR else 0 }

  /** The cast to a 32-bit year wraps. */
  function CurrentYear(now: nat): nat { (ANCHOR_YEAR + YearsElapsed(now)) % (U32_MAX + 1) }

  function DaysPastDeadline(now: nat, year: nat): nat {
    if now < YearStart(year) + LATE_START then 0
    else (now - YearStart(year) - LATE_START) / SECONDS_PER_DAY + 1
  }

  function DaysLate(now: nat, year: nat): nat { Min(DaysPastDeadline(now, year), MAX_DAYS_LATE) }

  // ---------------------------------------------------------------- tax

  function BaseTax(profit: nat, rate: nat): nat { profit * rate / 1000 }

  function Shtraf(base: nat, days: nat): nat { if days == 0 then 0 else base * 5 / 100 }

  function Peni(base: nat, days: nat): nat { if days == 0 then 0 else base * 5 * days / 36_500 }

  function TotalTax(profit: nat, rate: nat, days: nat): nat {
    var base := BaseTax(profit, rate);
    base + Shtraf(base, days) + Peni(base, days)
  }

  function RegionalShare(total: nat): nat { total * 70 / 100 }

  datatype Record = Record(
    profit: nat, base: nat, shtraf: nat, peni: nat, total: nat, regional: nat, confederation: nat,
    paidAt: nat, daysLate: nat, largeFamily: bool)

  datatype Storage = Storage(
    regional: Option<Account>, confederation: Option<Account>,
    declarations: map<(Account, nat), Record>, ledger: Ledger)

  /** Rates in per mille. */
  datatype Config = Config(standardRate: nat, largeFamilyRate: nat) {
    function Rate(largeFamily: bool): nat { if largeFamily then largeFamilyRate else standardRate }
  }

  datatype Error =
    | TreasuriesNotInitialized | AlreadyDeclared | ZeroProfitDeclared | MathOverflow
    | FutureYearNotAllowed | YearBeforeGenesis | FilingDeadlineExpired | TransferFailed

  /** Every checked step of the assessment, in the order the products are formed. */
  predicate FitsWidth(profit: nat, rate: nat, days: nat) {
    var base := BaseTax(profit, rate);
    && profit * rate <= U128_MAX
    && (days > 0 ==> base * 5 <= U128_MAX && base * 5 * days <= U128_MAX)
    && TotalTax(profit, rate, days) * 70 <= U128_MAX
  }

  function Assess(cfg: Config, now: nat, year: nat, profit: nat, largeFamily: bool): Outcome<Record, Error> {
    var rate, days := cfg.Rate(largeFamily), DaysLate(now, year);
    var _ :- Need(FitsWidth(profit, rate, days), MathOverflow);
    var base, total := BaseTax(profit, rate), TotalTax(profit, rate, days);
    Ok(Record(profit, base, Shtraf(base, days), Peni(base, days), total,
              RegionalShare(total), total - RegionalShare(total), now, days, largeFamily))
  }

  /** The three year guards. */
  predicate YearAccepted(now: nat, year: nat) {
    year <= CurrentYear(now) && year >= 2026 && now < YearStart(year) + SECONDS_PER_YEAR
  }

  function Declare(cfg: Config, s: Storage, now: nat, org: Account, year: nat, profit: nat, largeFamily: bool): Outcome<Storage, Error> {
    var regional :- s.regional.OrErr(TreasuriesNotInitialized);
    var confederation :- s.confederation.OrErr(TreasuriesNotInitialized);
    var _ :- Need(profit > 0, ZeroProfitDeclared);
    var _ :- Need(year <= CurrentYear(now), FutureYearNotAllowed);
    var _ :- Need(year >= 2026, YearBeforeGenesis);
    var _ :- Need(now < YearStart(year) + SECONDS_PER_YEAR, FilingDeadlineExpired);
    var _ :- Need((org, year) !in s.declarations, AlreadyDeclared);
    var record :- Assess(cfg, now, year, profit, largeFamily);
    var first :- s.ledger.Transfer(org, regional, record.regional, KeepAlive).OrErr(TransferFailed);
    var second :- first.Transfer(org, confederation, record.confederation, KeepAlive).OrErr(TransferFailed);
    Ok(s.(ledger := second, declarations := s.declarations[(org, year) := record]))
  }

  // ---------------------------------------------------------------- runs

  datatype Call =
    | File(org: Account, year: nat, profit: nat, largeFamily: bool)
    | SetRegional(account: Account)
    | SetConfederation(account: Account)
    | Foreign(from: Account, to: Account, amount: nat)

  datatype Timed = At(now: nat, call: Call)

  function Dispatch(cfg: Config, s: Storage, now: nat, call: Call): Outcome<Storage, Error> {
    match call
    case File(org, year, profit, largeFamily) => Declare(cfg, s, now, org, year, profit, largeFamily)
    case SetRegional(account) => Ok(s.(regional := Some(account)))
    case SetConfederation(account) => Ok(s.(confederation := Some(account)))
    case Foreign(from, to, amount) =>
      var ledger :- s.ledger.Transfer(from, to, amount, KeepAlive).OrErr(TransferFailed);
      Ok(s.(ledger := ledger))
  }

  function Step(cfg: Config, s: Storage, now: nat, call: Call): Storage {
    match Dispatch(cfg, s, now, call)
    case Ok(t) => t
    case Err(_) => s
  }

  function Run(cfg: Config, s: Storage, calls: seq<Timed>): Storage
    decreases |calls|
  {
    if calls == [] then s else Run(cfg, Step(cfg, s, calls[0].now, calls[0].call), calls[1..])
  }

  function Fresh(ledger: Ledger): Storage { Storage(None, None, map[], ledger) }
}

/** Which filings are accepted, what they cost, and that each is paid once. */
module ProfitTaxRuns {
  import opened Prelude
  import opened Arithmetic
  import opened Currency
  import opened ProfitTax

  // ================================================================ calendar

  lemma CurrentYearInvertsYearStart(year: nat, seconds: nat)
    requires ANCHOR_YEAR <= year <= U32_MAX && seconds < SECONDS_PER_YEAR
    ensures CurrentYear(YearStart(year) + seconds) == year
  {
    DivisionUnique((year - ANCHOR_YEAR) * SECONDS_PER_YEAR + seconds, SECONDS_PER_YEAR, year - ANCHOR_YEAR, seconds);
  }

  /** The guards accept one year at any moment: the year the clock has reached, which is then also
      the current year. */
  lemma AcceptedYearExactly(now: nat, year: nat)
    requires year <= U32_MAX
    ensures YearAccepted(now, year) <==> year == ANCHOR_YEAR + YearsElapsed(now)
    ensures YearAccepted(now, year) ==> year == CurrentYear(now)
  {
    var n := YearsElapsed(now);
    if now >= ANCHOR {
      assert now - ANCHOR == SECONDS_PER_YEAR * n + (now - ANCHOR) % SECONDS_PER_YEAR;
    }
    if year >= ANCHOR_YEAR && year - ANCHOR_YEAR < n {
      assert (year - ANCHOR_YEAR + 1) * SECONDS_PER_YEAR <= n * SECONDS_PER_YEAR;
      assert !YearAccepted(now, year);
    }
  }

  /** On time means no late days; the two disagree only on the one day between the end of the
      filing window and the start of lateness, and before the year has begun. */
  lemma OnTimeExactly(now: nat, year: nat)
    ensures IsOnTime(now, year) ==> DaysLate(now, year) == 0
    ensures DaysLate(now, year) == 0 && !IsOnTime(now, year)
            <==> now < YearStart(year)
                 || YearStart(year) + 105 * 86_400 < now < YearStart(year) + 106 * 86_400
  {
    hide YearStart;
  }

  /** On that day a filing bears no penalty, ... */
  lemma GapDayAssessment(cfg: Config, profit: nat)
    requires profit * cfg.standardRate * 70 <= U128_MAX
    ensures var now := YearStart(2026) + FILING_WINDOW + 3600;
            && YearAccepted(now, 2026) && !IsOnTime(now, 2026)
            && Assess(cfg, now, 2026, profit, false).Ok?
            && var r := Assess(cfg, now, 2026, profit, false).value;
               r.shtraf == r.peni == r.daysLate == 0 && r.total == r.base == profit * cfg.standardRate / 1000
  {}

  /** ... and one that is accepted: the window of 2026 closed an hour ago, and the organisation pays the
      plain tax of ten per cent on ten thousand. */
  lemma GapDayFiling(org: Account, region: Account, confed: Account)
    requires org !in {region, confed}
    ensures var cfg, now := Config(100, 80), YearStart(2026) + FILING_WINDOW + 3600;
            var s := Storage(Some(region), Some(confed), map[], Ledger(map[org := 10_000], 10_000, 1));
            var filed := Declare(cfg, s, now, org, 2026, 10_000, false);
            && !IsOnTime(now, 2026)
            && filed.Ok? && filed.value.ledger.Free(org) == 9_000
            && filed.value.declarations == map[(org, 2026) := Record(10_000, 1_000, 0, 0, 1_000, 700, 300, now, 0, false)]
  {
    var cfg, now := Config(100, 80), YearStart(2026) + FILING_WINDOW + 3600;
    GapDayAssessment(cfg, 10_000);
    assert Assess(cfg, now, 2026, 10_000, false) == Ok(Record(10_000, 1_000, 0, 0, 1_000, 700, 300, now, 0, false));
    hide Assess;
  }

  /** The cap on late days never clips an accepted filing, and the first late day counts. */
  lemma CapNeverClips(now: nat, year: nat)
    requires YearAccepted(now, year)
    ensures DaysLate(now, year) == DaysPastDeadline(now, year) <= MAX_DAYS_LATE
    ensures DaysLate(now, year) == MAX_DAYS_LATE ==> now >= YearStart(year) + 364 * SECONDS_PER_DAY
  {
    hide YearStart, CurrentYear;
  }

  lemma DaysLateMonotone(now: nat, later: nat, year: nat)
    requires now <= later
    ensures DaysLate(now, year) <= DaysLate(later, year)
  {
    hide YearStart;
  }

  // ================================================================ what a filing costs

  lemma PenaltiesMonotone(b: nat, c: nat, d: nat, e: nat)
    requires b <= c && d <= e
    ensures Shtraf(b, d) <= Shtraf(c, e) && Peni(b, d) <= Peni(c, e)
  {
    MulMonotone(b * 5, c * 5, d, e);
    DivMonotone(b * 5 * d, c * 5 * e, 36_500);
  }

  lemma TotalMonotone(p: nat, q: nat, rate: nat, d: nat, e: nat)
    requires p <= q && d <= e
    ensures TotalTax(p, rate, d) <= TotalTax(q, rate, e)
  {
    MulMonotone(p, q, rate, rate);
    DivMonotone(p * rate, q * rate, 1000);
    PenaltiesMonotone(BaseTax(p, rate), BaseTax(q, rate), d, e);
    hide BaseTax, Shtraf, Peni;
  }

  /** Of two filings that can be assessed, the one with no smaller profit and no earlier date never
      pays less. */
  lemma TaxMonotone(cfg: Config, now: nat, later: nat, year: nat, p: nat, q: nat, largeFamily: bool)
    requires now <= later && p <= q
    requires Assess(cfg, now, year, p, largeFamily).Ok? && Assess(cfg, later, year, q, largeFamily).Ok?
    ensures Assess(cfg, now, year, p, largeFamily).value.total <= Assess(cfg, later, year, q, largeFamily).value.total
  {
    DaysLateMonotone(now, later, year);
    TotalMonotone(p, q, cfg.Rate(largeFamily), DaysLate(now, year), DaysLate(later, year));
    hide DaysLate, TotalTax, FitsWidth, Shtraf, Peni, BaseTax;
  }

  /** Each part of an assessment is the floor of its percentage, and penalties fall only on late days. */
  lemma AssessmentExact(cfg: Config, now: nat, year: nat, profit: nat, largeFamily: bool)
    requires Assess(cfg, now, year, profit, largeFamily).Ok?
    ensures var r, days := Assess(cfg, now, year, profit, largeFamily).value, DaysLate(now, year);
            && 1000 * r.base <= profit * cfg.Rate(largeFamily) < 1000 * r.base + 1000
            && (days == 0 ==> r.shtraf == 0 && r.peni == 0)
            && (days > 0 ==> 100 * r.shtraf <= 5 * r.base < 100 * r.shtraf + 100)
            && (days > 0 ==> 36_500 * r.peni <= r.base * 5 * days < 36_500 * r.peni + 36_500)
            && r.total == r.base + r.shtraf + r.peni && r.daysLate == days && r.paidAt == now
  {
    hide DaysLate;
  }

  /** The worst a filing can cost, and how it is shared out: no planck is lost and the region is
      within one planck of 70 %. */
  lemma TaxBounded(cfg: Config, now: nat, year: nat, profit: nat, largeFamily: bool)
    requires Assess(cfg, now, year, profit, largeFamily).Ok?
    ensures var r := Assess(cfg, now, year, profit, largeFamily).value;
            && r.base <= r.total <= r.base + 5 * r.base / 100 + 1295 * r.base / 36_500
            && r.regional + r.confederation == r.total
            && 100 * r.regional <= 70 * r.total < 100 * r.regional + 100
  {
    var base, days := BaseTax(profit, cfg.Rate(largeFamily)), DaysLate(now, year);
    PenaltiesMonotone(base, base, days, MAX_DAYS_LATE);
    assert base * 5 * MAX_DAYS_LATE == 1295 * base;
    assert Peni(base, MAX_DAYS_LATE) == 1295 * base / 36_500;
    hide DaysLate, BaseTax, Peni, FitsWidth;
  }

  // ================================================================ paid once, and exactly

  /** The seconds of a year at which a filing is `d` days late: the first day of lateness begins 106 days
      into the year, and every day has 86 400 seconds. */
  predicate LateDay(now: nat, year: nat, d: nat)
    requires year >= 2026 && d >= 1
  {
    var start := 1_735_689_600 + (year - 2026) * 31_536_000 + 106 * 86_400;
    start + (d - 1) * 86_400 <= now < start + d * 86_400
  }

  /** A filing counts as `d` days late exactly on its `d`-th day of lateness, the last second of the year
      as 259, and as on time exactly before the first. */
  lemma LateDaysExactly(cfg: Config, now: nat, year: nat, profit: nat, largeFamily: bool, d: nat)
    requires YearAccepted(now, year) && Assess(cfg, now, year, profit, largeFamily).Ok? && d >= 1
    ensures var r := Assess(cfg, now, year, profit, largeFamily).value;
            && (r.daysLate == d <==> LateDay(now, year, d))
            && (r.daysLate == 0 <==> now < 1_735_689_600 + (year - 2026) * 31_536_000 + 106 * 86_400)
            && (now == 1_735_689_600 + (year - 2026) * 31_536_000 + 31_535_999 ==> r.daysLate == 259)
  {
    var start := 1_735_689_600 + (year - 2026) * 31_536_000 + 106 * 86_400;
    assert YearStart(year) + LATE_START == start;
    hide YearStart, CurrentYear, FitsWidth, BaseTax, Shtraf, Peni, TotalTax;
  }

  /** What an accepted filing costs, from the second it is made: base tax at the rate of the family,
      five per cent of it from the first late day on, and five per cent a year for each late day, every
      part rounded down; seventy per cent go to the region. */
  lemma FilingCosts(cfg: Config, s: Storage, now: nat, org: Account, year: nat, profit: nat, largeFamily: bool, d: nat)
    requires Declare(cfg, s, now, org, year, profit, largeFamily).Ok?
    requires year >= 2026 && (if d == 0 then now < 1_735_689_600 + (year - 2026) * 31_536_000 + 106 * 86_400 else LateDay(now, year, d))
    ensures s.regional.Some? && s.confederation.Some?
    ensures var t := Declare(cfg, s, now, org, year, profit, largeFamily).value;
            (org, year) in t.declarations
            && var r, rate := t.declarations[(org, year)], if largeFamily then cfg.largeFamilyRate else cfg.standardRate;
            && r.profit == profit && r.paidAt == now && r.largeFamily == largeFamily && r.daysLate == d
            && 1000 * r.base <= profit * rate < 1000 * r.base + 1000
            && (if d == 0 then r.shtraf == 0 else 100 * r.shtraf <= 5 * r.base < 100 * r.shtraf + 100)
            && 36_500 * r.peni <= r.base * 5 * d < 36_500 * r.peni + 36_500
            && r.total == r.base + r.shtraf + r.peni
            && 100 * r.regional <= 70 * r.total < 100 * r.regional + 100 && r.confederation == r.total - r.regional
            && (org !in {s.regional.value, s.confederation.value} ==> t.ledger.Free(org) == s.ledger.Free(org) - r.total)
            && (org !in {s.regional.value, s.confederation.value} && s.regional != s.confederation ==>
                  && t.ledger.Free(s.regional.value) == s.ledger.Free(s.regional.value) + r.regional
                  && t.ledger.Free(s.confederation.value) == s.ledger.Free(s.confederation.value) + r.confederation)
  {
    FilingExact(cfg, s, now, org, year, profit, largeFamily);
    LateDaysExactly(cfg, now, year, profit, largeFamily, if d == 0 then 1 else d);
    AssessmentExact(cfg, now, year, profit, largeFamily);
    TaxBounded(cfg, now, year, profit, largeFamily);
    AssessmentOf(cfg, now, year, profit, largeFamily);
    hide Declare, Assess, YearAccepted, LateDay, DaysLate, Ledger.Balanced;
    if d == 0 { assert Declare(cfg, s, now, org, year, profit, largeFamily).value.declarations[(org, year)].base * 5 * 0 == 0; }
  }

  lemma AssessmentOf(cfg: Config, now: nat, year: nat, profit: nat, largeFamily: bool)
    requires Assess(cfg, now, year, profit, largeFamily).Ok?
    ensures var r := Assess(cfg, now, year, profit, largeFamily).value;
            r.profit == profit && r.largeFamily == largeFamily && r.confederation == r.total - r.regional && r.daysLate == DaysLate(now, year)
  {
    hide DaysLate, FitsWidth, BaseTax, Shtraf, Peni, TotalTax;
  }

  /** The sums of a filing fit the width exactly when its profit times the rate does and, from the first
      late day on, five times the base tax times the late days does: the two later checks never fire. */
  lemma WidthExactly(cfg: Config, now: nat, year: nat, profit: nat, largeFamily: bool)
    ensures var rate, d := cfg.Rate(largeFamily), DaysLate(now, year);
            Assess(cfg, now, year, profit, largeFamily).Ok?
            <==> profit * rate <= U128_MAX && 5 * d * (profit * rate / 1000) <= U128_MAX
  {
    var rate, d := cfg.Rate(largeFamily), DaysLate(now, year);
    var base := BaseTax(profit, rate);
    assert d <= MAX_DAYS_LATE;
    assert base * 5 * d == 5 * d * base;
    if d > 0 { MulAtLeast(base * 5, d); }
    PenaltiesMonotone(base, base, d, MAX_DAYS_LATE);
    assert Peni(base, MAX_DAYS_LATE) == 1295 * base / 36_500 by { assert base * 5 * MAX_DAYS_LATE == 1295 * base; }
    assert TotalTax(profit, rate, d) <= base + 5 * base / 100 + 1295 * base / 36_500;
    assert 1000 * base <= profit * rate;
    hide DaysLate, BaseTax, Shtraf, Peni, TotalTax;
  }

  /** A filing is accepted exactly when both treasuries are set, the profit is positive, the year is the
      one the clock has reached and not yet filed for, the sums fit the width and both shares can be
      paid. */
  lemma FilingAcceptedExactly(cfg: Config, s: Storage, now: nat, org: Account, year: nat, profit: nat, largeFamily: bool)
    requires year <= U32_MAX
    ensures Declare(cfg, s, now, org, year, profit, largeFamily).Ok?
            <==> && s.regional.Some? && s.confederation.Some? && profit > 0
                 && year == 2026 + (if now < 1_735_689_600 then 0 else (now - 1_735_689_600) / 31_536_000)
                 && (org, year) !in s.declarations
                 && Assess(cfg, now, year, profit, largeFamily).Ok?
                 && var r := Assess(cfg, now, year, profit, largeFamily).value;
                    && s.ledger.Transfer(org, s.regional.value, r.regional, KeepAlive).Some?
                    && s.ledger.Transfer(org, s.regional.value, r.regional, KeepAlive).value
                         .Transfer(org, s.confederation.value, r.confederation, KeepAlive).Some?
  {
    AcceptedYearExactly(now, year);
    hide Assess, CurrentYear, YearStart, Ledger.Transfer;
  }

  /** An accepted filing conserves issuance, debits an organisation that is no treasury exactly its
      total, pays two distinct treasuries their shares, and stores the assessment. */
  lemma FilingExact(cfg: Config, s: Storage, now: nat, org: Account, year: nat, profit: nat, largeFamily: bool)
    requires Declare(cfg, s, now, org, year, profit, largeFamily).Ok?
    ensures s.regional.Some? && s.confederation.Some? && Assess(cfg, now, year, profit, largeFamily).Ok?
    ensures var t, r := Declare(cfg, s, now, org, year, profit, largeFamily).value, Assess(cfg, now, year, profit, largeFamily).value;
            var region, confed := s.regional.value, s.confederation.value;
            && (org, year) !in s.declarations && t.declarations == s.declarations[(org, year) := r]
            && YearAccepted(now, year)
            && t.ledger.issuance == s.ledger.issuance && (s.ledger.Balanced() ==> t.ledger.Balanced())
            && (org !in {region, confed} ==> t.ledger.Free(org) == s.ledger.Free(org) - r.total)
            && (org !in {region, confed} && region != confed ==>
                  && t.ledger.Free(region) == s.ledger.Free(region) + r.regional
                  && t.ledger.Free(confed) == s.ledger.Free(confed) + r.confederation)
  {
    var r := Assess(cfg, now, year, profit, largeFamily).value;
    TransferConserves(s.ledger, org, s.regional.value, r.regional, KeepAlive);
    var first := s.ledger.Transfer(org, s.regional.value, r.regional, KeepAlive).value;
    TransferConserves(first, org, s.confederation.value, r.confederation, KeepAlive);
    TaxBounded(cfg, now, year, profit, largeFamily);
    hide Assess, CurrentYear, YearStart, Ledger.Transfer, Ledger.Balanced;
  }

  /** How often an organisation's filing for a year succeeds in a run. */
  function Filings(cfg: Config, s: Storage, calls: seq<Timed>, org: Account, year: nat): nat
    decreases |calls|
  {
    if calls == [] then 0
    else (if calls[0].call.File? && calls[0].call.org == org && calls[0].call.year == year
             && Dispatch(cfg, s, calls[0].now, calls[0].call).Ok? then 1 else 0)
         + Filings(cfg, Step(cfg, s, calls[0].now, calls[0].call), calls[1..], org, year)
  }

  lemma StepKeepsRecords(cfg: Config, s: Storage, now: nat, call: Call, key: (Account, nat))
    requires key in s.declarations
    ensures key in Step(cfg, s, now, call).declarations
            && Step(cfg, s, now, call).declarations[key] == s.declarations[key]
            && !(call.File? && (call.org, call.year) == key && Dispatch(cfg, s, now, call).Ok?)
  {
    hide Assess, CurrentYear, YearStart, Ledger.Transfer;
  }

  /** Over any run a year is paid for at most once, a stored record never changes, and a record is
      there in the end exactly when it was there before or one filing succeeded. */
  lemma {:induction false} FiledAtMostOnce(cfg: Config, s: Storage, calls: seq<Timed>, org: Account, year: nat)
    ensures Filings(cfg, s, calls, org, year) <= 1
    ensures (org, year) in s.declarations ==>
              && Filings(cfg, s, calls, org, year) == 0
              && (org, year) in Run(cfg, s, calls).declarations
              && Run(cfg, s, calls).declarations[(org, year)] == s.declarations[(org, year)]
    ensures (org, year) !in s.declarations ==>
              ((org, year) in Run(cfg, s, calls).declarations <==> Filings(cfg, s, calls, org, year) == 1)
    decreases |calls|
  {
    if calls != [] {
      var At(now, call) := calls[0];
      if (org, year) in s.declarations {
        StepKeepsRecords(cfg, s, now, call, (org, year));
        hide Dispatch;
      } else {
        hide Assess, CurrentYear, YearStart, Ledger.Transfer;
      }
      FiledAtMostOnce(cfg, Step(cfg, s, now, call), calls[1..], org, year);
    }
  }
}

/** The dispatchable as it runs, with every checked product formed in the source's order. */
module ProfitTaxPallet {
  import opened Prelude
  import opened Currency
  import opened ProfitTaxRuns
  import opened M = ProfitTax

  class Pallet {
    const cfg: Config
    var regionalTreasury: Option<Account>
    var confederationTreasury: Option<Account>
    var profitDeclarations: map<(Account, nat), Record>
    var ledger: Ledger

    ghost function Contents(): Storage
      reads this
    {
      Storage(regionalTreasury, confederationTreasury, profitDeclarations, ledger)
    }

    constructor (cfg: Config, ledger: Ledger)
      ensures this.cfg == cfg && Contents() == Fresh(ledger)
    {
      this.cfg, this.ledger := cfg, ledger;
      regionalTreasury, confederationTreasury, profitDeclarations := None, None, map[];
    }

    method SetRegionalTreasury(account: Account)
      modifies this
      ensures Contents() == old(Contents()).(regional := Some(account))
    {
      regionalTreasury := Some(account);
    }

    method SetConfederationTreasury(account: Account)
      modifies this
      ensures Contents() == old(Contents()).(confederation := Some(account))
    {
      confederationTreasury := Some(account);
    }

    /** The penalty interest on `base` for `days` late days: the floor of 5 % a year over 365 days, or
        nothing where a product leaves the width. */
    method ComputePeni(base: nat, days: nat) returns (peni: Option<nat>)
      ensures peni.Some? <==> days == 0 || (base * 5 <= U128_MAX && base * 5 * days <= U128_MAX)
      ensures days == 0 ==> peni == Some(0)
      ensures peni.Some? ==> 36_500 * peni.value <= base * 5 * days < 36_500 * peni.value + 36_500
    {
      if days == 0 {
        assert base * 5 * days == 0;
        return Some(0);
      }
      if base * 5 > U128_MAX { return None; }
      if base * 5 * days > U128_MAX { return None; }
      peni := Some(base * 5 * days / 36_500);
    }

    /** The fixed penalty on `base`: the floor of 5 %, or nothing where the product leaves the width. */
    method ComputeShtraf(base: nat) returns (shtraf: Option<nat>)
      ensures shtraf.Some? <==> 5 * base <= U128_MAX
      ensures shtraf.Some? ==> 100 * shtraf.value <= 5 * base < 100 * shtraf.value + 100
    {
      if base * 5 > U128_MAX { return None; }
      shtraf := Some(base * 5 / 100);
    }

    method AssessFiling(now: nat, year: nat, profit: nat, largeFamily: bool) returns (r: Outcome<Record, Error>)
      ensures r == Assess(cfg, now, year, profit, largeFamily)
    {
      var rate := cfg.Rate(largeFamily);
      var days := DaysLate(now, year);
      hide DaysLate;
      if profit * rate > U128_MAX { return Err(MathOverflow); }
      var base := profit * rate / 1000;
      assert base == BaseTax(profit, rate);
      hide BaseTax;
      var shtraf := 0;
      if days != 0 {
        var s := ComputeShtraf(base);
        if s.None? { return Err(MathOverflow); }
        shtraf := s.value;
      }
      var p := ComputePeni(base, days);
      if p.None? { return Err(MathOverflow); }
      var peni := p.value;
      assert shtraf == Shtraf(base, days) && peni == Peni(base, days);
      hide Shtraf, Peni;
      var total := base + shtraf + peni;
      if base + shtraf > U128_MAX || total > U128_MAX { return Err(MathOverflow); }
      if total * 70 > U128_MAX { return Err(MathOverflow); }
      var regional := total * 70 / 100;
      var confederation := total - regional;
      r := Ok(Record(profit, base, shtraf, peni, total, regional, confederation, now, days, largeFamily));
    }

    method DeclareAnnualProfit(now: nat, org: Account, year: nat, profit: nat, largeFamily: bool)
      returns (r: Outcome<(), Error>)
      modifies this
      ensures Atomic(Declare(cfg, old(Contents()), now, org, year, profit, largeFamily), old(Contents()), Contents(), r)
    {
      hide Assess, CurrentYear, YearStart, Ledger.Transfer;
      if regionalTreasury.None? || confederationTreasury.None? { return Err(TreasuriesNotInitialized); }
      if profit == 0 { return Err(ZeroProfitDeclared); }
      if year > CurrentYear(now) { return Err(FutureYearNotAllowed); }
      if year < 2026 { return Err(YearBeforeGenesis); }
      if now >= YearStart(year) + SECONDS_PER_YEAR { return Err(FilingDeadlineExpired); }
      if (org, year) in profitDeclarations { return Err(AlreadyDeclared); }
      var assessed := AssessFiling(now, year, profit, largeFamily);
      if assessed.Err? { return Err(assessed.error); }
      var record := assessed.value;
      var before := ledger;
      var paid := ledger.Transfer(org, regionalTreasury.value, record.regional, KeepAlive);
      if paid.None? { return Err(TransferFailed); }
      ledger := paid.value;
      paid := ledger.Transfer(org, confederationTreasury.value, record.confederation, KeepAlive);
      if paid.None? {
        ledger := before;
        return Err(TransferFailed);
      }
      ledger := paid.value;
      profitDeclarations := profitDeclarations[(org, year) := record];
      r := Ok(());
    }

    /** A transfer made by any other pallet on the shared currency. */
    method TransferByOthers(from: Account, to: Account, amount: nat) returns (r: Outcome<(), Error>)
      modifies this`ledger
      ensures match old(ledger).Transfer(from, to, amount, KeepAlive)
              case Some(moved) => r == Ok(()) && ledger == moved
              case None => r == Err(TransferFailed) && ledger == old(ledger)
    {
      var moved := ledger.Transfer(from, to, amount, KeepAlive);
      if moved.None? { return Err(TransferFailed); }
      ledger := moved.value;
      r := Ok(());
    }

    // -------------------------------------------------------------- runs

    /** One call, routed to its dispatchable. */
    method ExecuteOne(now: nat, call: Call) returns (r: Outcome<(), Error>)
      modifies this
      ensures Atomic(Dispatch(cfg, old(Contents()), now, call), old(Contents()), Contents(), r)
    {
      hide Declare, Ledger.Transfer;
      match call
      case File(org, year, profit, largeFamily) => r := DeclareAnnualProfit(now, org, year, profit, largeFamily);
      case SetRegional(account) => SetRegionalTreasury(account); r := Ok(());
      case SetConfederation(account) => SetConfederationTreasury(account); r := Ok(());
      case Foreign(from, to, amount) => r := TransferByOthers(from, to, amount);
    }

    /** A sequence of calls leaves the storage the run of its transitions ends in. */
    method Execute(calls: seq<Timed>)
      modifies this
      ensures Contents() == Run(cfg, old(Contents()), calls)
    {
      for i := 0 to |calls|
        invariant Run(cfg, Contents(), calls[i..]) == Run(cfg, old(Contents()), calls)
      {
        assert calls[i..][1..] == calls[i + 1..];
        hide Dispatch;
        var _ := ExecuteOne(calls[i].now, calls[i].call);
      }
    }
  }

  /** A chain started from an empty pallet: a record is stored exactly for the years filed once. */
  method ChainFromEmpty(cfg: Config, ledger: Ledger, calls: seq<Timed>) returns (p: Pallet)
    ensures fresh(p) && p.cfg == cfg && p.Contents() == Run(cfg, Fresh(ledger), calls)
    ensures forall org: Account, year: nat :: Filings(cfg, Fresh(ledger), calls, org, year) <= 1
    ensures forall org: Account, year: nat :: (org, year) in p.profitDeclarations <==> Filings(cfg, Fresh(ledger), calls, org, year) == 1
  {
    forall org: Account, year: nat
      ensures Filings(cfg, Fresh(ledger), calls, org, year) <= 1
      ensures (org, year) in Run(cfg, Fresh(ledger), calls).declarations <==> Filings(cfg, Fresh(ledger), calls, org, year) == 1
    {
      FiledAtMostOnce(cfg, Fresh(ledger), calls, org, year);
    }
    hide Run, Filings;
    p := new Pallet(cfg, ledger);
    p.Execute(calls);
  }
}
