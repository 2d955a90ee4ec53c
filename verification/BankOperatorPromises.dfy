/** What pallet-bank-operator promises its callers, call by call and over whatever happens afterwards:
    whose collateral it is, from which block and at which rate a credit bears interest, and how
    scores and debts follow. */
module BankOperatorPromises {
  import opened Prelude
  import opened Currency
  import opened Sums
  import opened BankOperator
  import opened BankOperatorRuns
  import opened BankOperatorTraces

  // ================================================================ runs in two parts

  lemma {:induction false} RunSplit(cfg: Config, s: Storage, a: seq<Timed>, b: seq<Timed>)
    ensures Run(cfg, s, a + b) == Run(cfg, Run(cfg, s, a), b)
    decreases |a|
  {
    hide Step;
    if a == [] {
      assert a + b == b;
    } else {
      assert (a + b)[1..] == a[1..] + b;
      RunSplit(cfg, Step(cfg, s, a[0].now, a[0].call), a[1..], b);
    }
  }

  /** A run cut short before its call number `i`. */
  function Before(cfg: Config, s: Storage, calls: seq<Timed>, i: nat): Storage
    requires i <= |calls|
  {
    Run(cfg, s, calls[..i])
  }

  predicate AcceptedAt(cfg: Config, s: Storage, calls: seq<Timed>, i: nat)
    requires i < |calls|
  {
    Dispatch(cfg, Before(cfg, s, calls, i), calls[i].now, calls[i].call).Ok?
  }

  lemma BeforeNext(cfg: Config, s: Storage, calls: seq<Timed>, i: nat)
    requires i < |calls|
    ensures Before(cfg, s, calls, i + 1) == Step(cfg, Before(cfg, s, calls, i), calls[i].now, calls[i].call)
  {
    assert calls[..i + 1] == calls[..i] + [calls[i]];
    RunSplit(cfg, s, calls[..i], [calls[i]]);
    hide Step;
    assert [calls[i]][1..] == [];
    RunNothing(cfg, Step(cfg, Before(cfg, s, calls, i), calls[i].now, calls[i].call));
  }

  lemma RestOfRun(cfg: Config, s: Storage, calls: seq<Timed>, i: nat)
    requires i <= |calls|
    ensures Run(cfg, s, calls) == Run(cfg, Before(cfg, s, calls, i), calls[i..])
  {
    assert calls == calls[..i] + calls[i..];
    RunSplit(cfg, s, calls[..i], calls[i..]);
  }

  // ================================================================ which calls are accepted

  /** What each call asks of the state it meets. */
  predicate Accepts(cfg: Config, s: Storage, now: nat, call: Call) {
    match call
    case SetBank(_) => true
    case Lock(citizen, amount, _) =>
      amount > 0 && s.bank.Some? && s.ledger.Transfer(citizen, s.bank.value, amount, KeepAlive).Some?
    case Request(citizen, id) =>
      id in s.collaterals && s.collaterals[id].citizen == citizen && s.collaterals[id].status == Locked && !s.collaterals[id].requested
    case Issue(id) =>
      cfg.multiplier == 9 && id in s.collaterals && s.collaterals[id].status == Locked && s.collaterals[id].requested
    case Accrue(id) => id in s.credits && s.credits[id].status == Active
    case Repay(citizen, id, amount) =>
      && amount > 0 && id in s.credits && s.credits[id].citizen == citizen && s.credits[id].status == Active
      && var due := UpToDate(cfg, s.credits[id], now);
         s.ledger.Free(citizen) >= Min(amount, due.accrued + due.outstanding) + s.ledger.ed
    case Default(id) => id in s.credits && s.credits[id].status == Active
    case Foreign(from, to, amount) => s.ledger.Transfer(from, to, amount, KeepAlive).Some?
  }

  /** With a backed bank that signs nothing, a call is accepted exactly then. */
  lemma AcceptedExactly(cfg: Config, s: Storage, base: nat, bank: Account, opening: nat, now: nat, call: Call)
    requires Matched(s) && Books(s, base) && Backed(s, bank, opening) && opening >= s.ledger.ed && LeavesBankAlone(bank, call)
    ensures Dispatch(cfg, s, now, call).Ok? <==> Accepts(cfg, s, now, call)
  {
    hide AccruedSince, Matched, Books, Backed, RepayCredit, Ledger.Transfer, Ledger.DepositCreating;
    if call.Repay? && call.amount > 0 && call.id in s.credits && s.credits[call.id].citizen == call.citizen
       && s.credits[call.id].status == Active {
      RepaymentSucceedsExactly(cfg, s, base, bank, opening, now, call.citizen, call.id, call.amount);
    } else if call.Repay? {
      RepayRefused(cfg, s, now, call.citizen, call.id, call.amount);
    }
  }

  lemma RepayRefused(cfg: Config, s: Storage, now: nat, citizen: Account, id: nat, amount: nat)
    requires amount == 0 || id !in s.credits || s.credits[id].citizen != citizen || s.credits[id].status != Active
    ensures RepayCredit(cfg, s, now, citizen, id, amount).Err?
  {
    hide UpToDate, Rescore;
  }

  /** Credit is only ever issued on a collateral that is locked and was requested. */
  lemma IssueAccepted(cfg: Config, s: Storage, now: nat, k: nat)
    ensures Dispatch(cfg, s, now, Issue(k)).Ok?
            <==> cfg.multiplier == 9 && k in s.collaterals && s.collaterals[k].status == Locked && s.collaterals[k].requested
  {
    hide Ledger.DepositCreating;
  }

  // ================================================================ the collateral a citizen locked

  /** Locking charges the citizen exactly the amount named, all of it to the bank. */
  lemma LockCharges(cfg: Config, s: Storage, now: nat, citizen: Account, amount: nat, asset: AssetType)
    requires Dispatch(cfg, s, now, Lock(citizen, amount, asset)).Ok? && s.bank != Some(citizen)
    ensures var l, r := s.ledger, Step(cfg, s, now, Lock(citizen, amount, asset)).ledger;
            && r.Free(citizen) == l.Free(citizen) - amount && r.Free(s.bank.value) == l.Free(s.bank.value) + amount
            && (forall a :: a != citizen && a != s.bank.value ==> r.Free(a) == l.Free(a))
            && r.issuance == l.issuance
  {
    TransferConserves(s.ledger, citizen, s.bank.value, amount, KeepAlive);
    hide Ledger.Transfer;
  }

  /** Collateral `k` is `x` of `citizen`'s money, less the bank's tenth. */
  predicate Belongs(s: Storage, k: nat, citizen: Account, x: nat, asset: AssetType, since: nat) {
    && k in s.collaterals
    && var col := s.collaterals[k];
       && col.citizen == citizen && col.asset == asset && col.createdAt == since
       && col.amount == x && col.fee == x / 10 && col.net == x - x / 10
  }

  lemma LockRecords(cfg: Config, s: Storage, now: nat, citizen: Account, x: nat, asset: AssetType)
    requires Matched(s) && Dispatch(cfg, s, now, Lock(citizen, x, asset)).Ok?
    ensures var t := Step(cfg, s, now, Lock(citizen, x, asset));
            && Matched(t) && Belongs(t, s.nextCollateral, citizen, x, asset, now)
            && t.collaterals[s.nextCollateral].status == Locked && !t.collaterals[s.nextCollateral].requested
  {
    LockKeepsMatched(s, now, citizen, x, asset);
    hide Ledger.Transfer, Matched;
  }

  lemma BelongsAhead(s: Storage, t: Storage, k: nat, citizen: Account, x: nat, asset: AssetType, since: nat)
    requires Ahead(s, t) && Belongs(s, k, citizen, x, asset, since)
    ensures Belongs(t, k, citizen, x, asset, since)
  {}

  /** What an accepted call may do with a collateral: only its owner asks for credit on it, the credit
      goes to the owner at nine times the net amount, and only the owner's closing repayment releases
      it, which pays the net amount back. */
  ghost predicate ServesOwner(s: Storage, t: Storage, call: Call, k: nat, citizen: Account, x: nat) {
    && (call.Request? && call.id == k ==> call.citizen == citizen)
    && (call == Issue(k) && s.ledger.Lands(citizen, 9 * (x - x / 10)) ==>
          && t.ledger.Free(citizen) == s.ledger.Free(citizen) + 9 * (x - x / 10)
          && s.nextCredit in t.credits && t.credits[s.nextCredit].citizen == citizen
          && t.credits[s.nextCredit].amount == t.credits[s.nextCredit].outstanding == 9 * (x - x / 10))
    && (k in s.collaterals && k in t.collaterals && s.collaterals[k].status == Backing && t.collaterals[k].status == Released ==>
          && call.Repay? && call.citizen == citizen && call.id in s.credits && s.credits[call.id].collateralId == k)
  }

  lemma CallServesOwner(cfg: Config, s: Storage, now: nat, call: Call, k: nat, citizen: Account, x: nat, asset: AssetType, since: nat)
    requires Matched(s) && Belongs(s, k, citizen, x, asset, since) && Dispatch(cfg, s, now, call).Ok?
    ensures ServesOwner(s, Step(cfg, s, now, call), call, k, citizen, x)
  {
    StepMovesAhead(cfg, s, now, call);
    if call == Issue(k) {
      IssueEffect(cfg, s, now, k);
      DepositConserves(s.ledger, citizen, 9 * (x - x / 10));
    }
    hide Matched, Ahead, AccruedSince, RepayCredit, Ledger.Transfer, Ledger.DepositCreating, LockCollateral;
  }

  /** Whatever happens after a citizen has locked `x`, the collateral stays its own on these terms, and
      every later call on it serves the citizen alone. */
  lemma {:induction false} CollateralServesItsOwner(cfg: Config, s: Storage, now: nat, citizen: Account, x: nat, asset: AssetType,
                                                    rest: seq<Timed>, later: nat, call: Call)
    requires Matched(s) && Dispatch(cfg, s, now, Lock(citizen, x, asset)).Ok?
    ensures var k, t := s.nextCollateral, Run(cfg, Step(cfg, s, now, Lock(citizen, x, asset)), rest);
            && Belongs(t, k, citizen, x, asset, now)
            && (Dispatch(cfg, t, later, call).Ok? ==> ServesOwner(t, Step(cfg, t, later, call), call, k, citizen, x))
  {
    var k, start := s.nextCollateral, Step(cfg, s, now, Lock(citizen, x, asset));
    LockRecords(cfg, s, now, citizen, x, asset);
    hide Step, Run, Matched, Dispatch;
    ContractsMoveForward(cfg, start, rest);
    BelongsAhead(start, Run(cfg, start, rest), k, citizen, x, asset, now);
    if Dispatch(cfg, Run(cfg, start, rest), later, call).Ok? {
      CallServesOwner(cfg, Run(cfg, start, rest), later, call, k, citizen, x, asset, now);
    }
    hide Ahead, Belongs, ServesOwner;
  }

  // ================================================================ no credit unasked

  /** A collateral is marked requested by its owner's accepted request and by nothing else. */
  lemma RequestedByOwner(cfg: Config, s: Storage, now: nat, call: Call, k: nat)
    requires var t := Step(cfg, s, now, call); k in t.collaterals && t.collaterals[k].requested
    ensures var owner := Step(cfg, s, now, call).collaterals[k].citizen;
            || (k in s.collaterals && s.collaterals[k].requested && s.collaterals[k].citizen == owner)
            || (call == Request(owner, k) && Dispatch(cfg, s, now, call).Ok?)
  {
    hide AccruedSince, Rescore, Ledger.Transfer, Ledger.Burn, Ledger.DepositCreating, InterestPart, PrincipalPart, Reduce;
  }

  lemma {:induction false} RequestedEarlier(cfg: Config, s: Storage, calls: seq<Timed>, n: nat, k: nat)
    requires s.collaterals == map[] && n <= |calls|
    requires var t := Before(cfg, s, calls, n); k in t.collaterals && t.collaterals[k].requested
    ensures exists j :: 0 <= j < n && AcceptedAt(cfg, s, calls, j)
                        && calls[j].call == Request(Before(cfg, s, calls, n).collaterals[k].citizen, k)
  {
    if n > 0 {
      BeforeNext(cfg, s, calls, n - 1);
      RequestedByOwner(cfg, Before(cfg, s, calls, n - 1), calls[n - 1].now, calls[n - 1].call, k);
      hide Step, Before, Dispatch;
      var u := Before(cfg, s, calls, n - 1);
      if k in u.collaterals && u.collaterals[k].requested && u.collaterals[k].citizen == Before(cfg, s, calls, n).collaterals[k].citizen {
        RequestedEarlier(cfg, s, calls, n - 1, k);
      } else {
        assert AcceptedAt(cfg, s, calls, n - 1);
      }
    }
  }

  /** In a run from an empty pallet no credit is issued that the owner of the collateral did not ask for. */
  lemma {:induction false} NoCreditUnasked(cfg: Config, ledger: Ledger, bank: Option<Account>, calls: seq<Timed>, i: nat)
    requires i < |calls| && calls[i].call.Issue? && AcceptedAt(cfg, Fresh(ledger, bank), calls, i)
    ensures var s, k := Before(cfg, Fresh(ledger, bank), calls, i), calls[i].call.id;
            && k in s.collaterals
            && exists j :: 0 <= j < i && AcceptedAt(cfg, Fresh(ledger, bank), calls, j)
                           && calls[j].call == Request(s.collaterals[k].citizen, k)
  {
    IssueAccepted(cfg, Before(cfg, Fresh(ledger, bank), calls, i), calls[i].now, calls[i].call.id);
    hide Dispatch, Before;
    RequestedEarlier(cfg, Fresh(ledger, bank), calls, i, calls[i].call.id);
  }

  // ================================================================ the credit, from its block and at its rate

  /** The yearly rate a score is charged, in basis points. */
  function YearlyRate(score: nat): nat {
    if score < 600 then 1_500 else if score < 650 then 1_000 else if score < 700 then 700 else if score < 750 then 300 else 0
  }

  /** Interest on a principal at a score's daily rate, the yearly one over 365 rounded up, for the
      whole periods between two blocks. */
  function InterestOwed(principal: nat, score: nat, from: nat, to: nat, period: nat): nat {
    principal * ((YearlyRate(score) + 364) / 365) * (if period == 0 || to <= from then 0 else (to - from) / period) / 10_000
  }

  lemma RateOfScore(score: nat)
    requires 300 <= score <= 850
    ensures TierOf(score).AnnualRateBps() == YearlyRate(score)
    ensures TierOf(score).DailyRateBps() == (YearlyRate(score) + 364) / 365
  {}

  /** An issued credit starts at the block of its issue, owing its principal, no interest yet, at the
      rate of the citizen's score; the collateral's owner is the one who owes it. */
  lemma IssueStartsCredit(cfg: Config, s: Storage, now: nat, k: nat)
    requires ScoresInRange(s) && Dispatch(cfg, s, now, Issue(k)).Ok?
    ensures var n, t := s.nextCredit, Step(cfg, s, now, Issue(k));
            && k in s.collaterals && n in t.credits && t.nextCredit == n + 1
            && var c, col := t.credits[n], s.collaterals[k];
               && c.issuedAt == c.lastInterestBlock == now && c.accrued == 0 && c.status == Active
               && c.tier.AnnualRateBps() == YearlyRate(s.ScoreOf(col.citizen).score)
               && c.citizen == col.citizen && c.collateralId == k
               && c.amount == c.outstanding == Min(9 * col.net, U128_MAX)
  {
    RateOfScore(s.ScoreOf(s.collaterals[k].citizen).score);
    hide Ledger.DepositCreating, CreditTier.AnnualRateBps;
  }

  lemma {:induction false} ScoresStayInRange(cfg: Config, s: Storage, calls: seq<Timed>)
    requires ScoresInRange(s)
    ensures ScoresInRange(Run(cfg, s, calls))
    decreases |calls|
  {
    if calls != [] {
      StepKeepsScoresInRange(cfg, s, calls[0].now, calls[0].call);
      hide Step, ScoresInRange;
      ScoresStayInRange(cfg, Step(cfg, s, calls[0].now, calls[0].call), calls[1..]);
    }
  }

  lemma CreditAheadOf(s: Storage, t: Storage, n: nat)
    requires Ahead(s, t) && n in s.credits
    ensures n in t.credits && CreditAhead(s.credits[n], t.credits[n])
  {}

  lemma OneShotFromIssue(c: Credit, score: nat, end: nat, period: nat)
    requires 300 <= score <= 850 && c.tier.AnnualRateBps() == YearlyRate(score)
    ensures OneShot(c, end, period) == InterestOwed(c.amount, score, c.issuedAt, end, period)
  {}

  /** For every credit of a run from an empty pallet, interest paid plus interest owed is at most the
      formula on nine times the net collateral, at the rate of the score the citizen then had, counted
      from the block of the call that issued it. */
  lemma {:induction false} InterestCountsFromIssue(cfg: Config, ledger: Ledger, bank: Option<Account>, calls: seq<Timed>, i: nat)
    requires ledger.Balanced() && Chronological(0, calls)
    requires i < |calls| && calls[i].call.Issue? && AcceptedAt(cfg, Fresh(ledger, bank), calls, i)
    ensures var s, t := Before(cfg, Fresh(ledger, bank), calls, i), Run(cfg, Fresh(ledger, bank), calls);
            var k, n := calls[i].call.id, s.nextCredit;
            && k in s.collaterals && n in t.credits
            && t.credits[n].issuedAt == calls[i].now && t.credits[n].citizen == s.collaterals[k].citizen
            && Total(InterestOn(n), t.events) + t.credits[n].accrued
               <= InterestOwed(Min(9 * s.collaterals[k].net, U128_MAX), s.ScoreOf(s.collaterals[k].citizen).score,
                               calls[i].now, LastBlock(0, calls), cfg.period)
  {
    var empty := Fresh(ledger, bank);
    var s := Before(cfg, empty, calls, i);
    var n, k, now := s.nextCredit, calls[i].call.id, calls[i].now;
    FreshStorage(cfg, ledger, bank, 0);
    ContractsMoveForward(cfg, empty, calls[..i]);
    ScoresStayInRange(cfg, empty, calls[..i]);
    assert s == Run(cfg, empty, calls[..i]);
    InterestNeverExceedsOneShot(cfg, empty, 0, calls);
    IssueStartsCredit(cfg, s, now, k);
    BeforeNext(cfg, empty, calls, i);
    RestOfRun(cfg, empty, calls, i + 1);
    var start := Before(cfg, empty, calls, i + 1);
    StepKeepsMatched(cfg, s, now, calls[i].call);
    ContractsMoveForward(cfg, start, calls[i + 1..]);
    var t := Run(cfg, empty, calls);
    CreditAheadOf(start, t, n);
    ScoreInRange(s, s.collaterals[k].citizen);
    OneShotFromIssue(t.credits[n], s.ScoreOf(s.collaterals[k].citizen).score, LastBlock(0, calls), cfg.period);
    hide Run, Step, Before, Dispatch, Matched, Ahead, OneShot, InterestOwed, InterestBounded, Total, Chronological;
  }

  lemma ScoreInRange(s: Storage, a: Account)
    requires ScoresInRange(s)
    ensures 300 <= s.ScoreOf(a).score <= 850
  {}

  // ================================================================ scores

  /** How a call moves the record of account `a`: 20 points for closing a credit, 5 for burning some of
      its principal, 100 off for a default, within 300 to 850; counts follow. */
  ghost predicate ScoreFollows(s: Storage, t: Storage, call: Call, ok: bool, a: Account) {
    var was, now := s.ScoreOf(a), t.ScoreOf(a);
    if ok && call.Repay? && call.citizen == a && call.id in s.credits && call.id in t.credits then
      var c, d := s.credits[call.id], t.credits[call.id];
      && now.defaulted == was.defaulted
      && now.score == Min(850, was.score + (if d.status == Repaid then 20 else if d.outstanding < c.outstanding then 5 else 0))
      && now.repaid == was.repaid + (if d.status == Repaid && was.score < 850 then 1 else 0)
    else if ok && call.Default? && call.id in s.credits && s.credits[call.id].citizen == a then
      now == ScoreRecord(if was.score < 400 then 300 else was.score - 100, was.repaid, was.defaulted + 1)
    else now == was
  }

  lemma RepayScores(cfg: Config, s: Storage, now: nat, citizen: Account, id: nat, amount: nat, a: Account)
    requires Matched(s) && ScoresInRange(s) && RepayCredit(cfg, s, now, citizen, id, amount).Ok?
    ensures ScoreFollows(s, RepayCredit(cfg, s, now, citizen, id, amount).value, Repay(citizen, id, amount), true, a)
  {
    RepayEffect(cfg, s, now, citizen, id, amount);
    RepaidPart(cfg, s.credits[id], now, amount);
    RepayRescores(cfg, s, now, citizen, id, amount);
    assert CreditSound(s, s.credits[id]);
    ScoreInRange(s, citizen);
    hide Matched, UpToDate, ScoresInRange, RepayCredit, InterestPart;
  }

  lemma RepayRescores(cfg: Config, s: Storage, now: nat, citizen: Account, id: nat, amount: nat)
    requires RepayCredit(cfg, s, now, citizen, id, amount).Ok?
    ensures id in s.credits
    ensures var due := UpToDate(cfg, s.credits[id], now);
            RepayCredit(cfg, s, now, citizen, id, amount).value.scores
            == Rescore(s, citizen, Settled(Reduce(due, amount)), PrincipalPart(due, amount))
  {
    hide UpToDate, Rescore, Ledger.Transfer, Ledger.Burn;
  }

  lemma ScoresFollow(cfg: Config, s: Storage, now: nat, call: Call, a: Account)
    requires Matched(s) && ScoresInRange(s)
    ensures ScoreFollows(s, Step(cfg, s, now, call), call, Dispatch(cfg, s, now, call).Ok?, a)
  {
    hide Matched, ScoresInRange, RepayCredit, AccruedSince, Ledger.Transfer, Ledger.DepositCreating;
    if call.Repay? && Dispatch(cfg, s, now, call).Ok? {
      RepayScores(cfg, s, now, call.citizen, call.id, call.amount, a);
    }
  }

  // ================================================================ debts and defaults

  /** A default takes the credit's debt out of what its citizen is said to owe, and leaves principal,
      interest and collateral as they are. */
  lemma DefaultRecords(cfg: Config, s: Storage, now: nat, id: nat)
    requires Dispatch(cfg, s, now, Default(id)).Ok?
    ensures id in s.credits
    ensures var t, c := Step(cfg, s, now, Default(id)), s.credits[id];
            && t.credits == s.credits[id := c.(status := Defaulted)]
            && t.collaterals == s.collaterals && t.ledger == s.ledger && t.totalOutstanding == s.totalOutstanding
            && Sum(t.credits, ActiveDebt(c.citizen)) == Sum(s.credits, ActiveDebt(c.citizen)) - c.outstanding
  {
    hide Sum, ScoreRecord.DefaultPenalty;
    var c := s.credits[id];
    SumUpdate(s.credits, ActiveDebt(c.citizen), id, c.(status := Defaulted));
    assert ActiveDebt(c.citizen)(id, c) == c.outstanding && ActiveDebt(c.citizen)(id, c.(status := Defaulted)) == 0;
    hide ActiveDebt;
  }

  /** What an account is said to owe grows by the credits issued to it and shrinks by what it repays of
      principal or defaults on. */
  lemma DebtFollows(cfg: Config, s: Storage, now: nat, call: Call, who: Account)
    requires Matched(s)
    ensures var t, ok := Step(cfg, s, now, call), Dispatch(cfg, s, now, call).Ok?;
            Sum(t.credits, ActiveDebt(who)) - Sum(s.credits, ActiveDebt(who))
            == if ok && call.Issue? && s.collaterals[call.id].citizen == who then t.credits[s.nextCredit].amount
               else if ok && call.Repay? && call.citizen == who then t.credits[call.id].outstanding - s.credits[call.id].outstanding
               else if ok && call.Default? && s.credits[call.id].citizen == who then 0 - s.credits[call.id].outstanding
               else 0
  {
    hide AccruedSince, IssueCredit, RepayCredit, Sum, Matched, Ledger.Transfer;
    var t := Step(cfg, s, now, call);
    if Dispatch(cfg, s, now, call).Ok? {
      match call
      case Issue(k) =>
        IssueEffect(cfg, s, now, k);
        NumberedCredits(s);
        SumUpdate(s.credits, ActiveDebt(who), s.nextCredit, t.credits[s.nextCredit]);
      case Repay(citizen, id, amount) =>
        RepayEffect(cfg, s, now, citizen, id, amount);
        RepayReplaces(cfg, s, now, citizen, id, amount);
        hide UpToDate, Reduce, PrincipalPart;
        SumUpdate(s.credits, ActiveDebt(who), id, t.credits[id]);
      case Default(id) => SumUpdate(s.credits, ActiveDebt(who), id, t.credits[id]);
      case Accrue(id) => SumUpdate(s.credits, ActiveDebt(who), id, t.credits[id]);
      case _ =>
    }
  }

  lemma NumberedCredits(s: Storage)
    requires Matched(s)
    ensures s.nextCredit !in s.credits
  {}
}
