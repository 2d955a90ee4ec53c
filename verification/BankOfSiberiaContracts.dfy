/** The contracts of pallet-bank-of-siberia over whatever happens after they are made: an escrow keeps
    its parties, a loan its terms, a deposit its yield, a card its collateral. */
module BankOfSiberiaContracts {
  import opened Prelude
  import opened Currency
  import opened Arithmetic
  import opened BankOfSiberia
  import opened BankOfSiberiaRecords
  import opened BankOfSiberiaTreasury
  import opened BankOfSiberiaPromises

  // ================================================================ what custody keeps

  /** Escrows and deposits keep everything but their status, and stand once they are closed. */
  ghost predicate CustodyAhead(c: Custody, d: Custody) {
    && (forall id :: id in c.escrows ==>
          && id in d.escrows && d.escrows[id] == c.escrows[id].(status := d.escrows[id].status)
          && (c.escrows[id].status != EscrowStatus.Locked ==> d.escrows[id] == c.escrows[id]))
    && (forall id :: id in c.deposits ==>
          && id in d.deposits && d.deposits[id] == c.deposits[id].(status := d.deposits[id].status)
          && (c.deposits[id].status != DepositStatus.Open ==> d.deposits[id] == c.deposits[id]))
  }

  lemma StepMovesCustodyAhead(cfg: Config, s: Storage, now: nat, call: Call)
    requires NumberedBelow(s.custody)
    ensures CustodyAhead(s.custody, Step(cfg, s, now, call).custody)
  {
    if EscrowCall(call) || call.OpenDeposit? || call.Claim? {
      hide InterestOn, Storage.Move;
    } else {
      CustodyFrame(cfg, s, now, call);
      hide Dispatch, Step;
    }
  }

  lemma CustodyAheadTransitive(a: Custody, b: Custody, c: Custody)
    requires CustodyAhead(a, b) && CustodyAhead(b, c)
    ensures CustodyAhead(a, c)
  {}

  lemma {:induction false} CustodyMovesForward(cfg: Config, s: Storage, calls: seq<Timed>)
    requires NumberedBelow(s.custody)
    ensures NumberedBelow(Run(cfg, s, calls).custody) && CustodyAhead(s.custody, Run(cfg, s, calls).custody)
    decreases |calls|
  {
    if calls == [] {
      assert CustodyAhead(s.custody, s.custody);
    } else {
      var t := Step(cfg, s, calls[0].now, calls[0].call);
      StepMovesCustodyAhead(cfg, s, calls[0].now, calls[0].call);
      CustodyFrame(cfg, s, calls[0].now, calls[0].call);
      assert Run(cfg, s, calls) == Run(cfg, t, calls[1..]);
      hide Step, NumberedBelow, CustodyAhead, Run;
      CustodyMovesForward(cfg, t, calls[1..]);
      CustodyAheadTransitive(s.custody, t.custody, Run(cfg, t, calls[1..]).custody);
    }
  }

  // ================================================================ escrows

  /** Escrow `n`: `x` from buyer `a` for seller `b`. */
  predicate EscrowOf(c: Custody, n: nat, a: Account, b: Account, x: nat, itemHash: Hash, since: nat) {
    n in c.escrows && c.escrows[n] == Escrow(a, b, x, itemHash, since, c.escrows[n].status)
  }

  lemma EscrowRecords(cfg: Config, s: Storage, now: nat, a: Account, b: Account, x: nat, itemHash: Hash)
    requires NumberedBelow(s.custody) && Dispatch(cfg, s, now, Escrowed(a, b, x, itemHash)).Ok?
    ensures var t := Step(cfg, s, now, Escrowed(a, b, x, itemHash));
            && EscrowOf(t.custody, s.custody.nextEscrow, a, b, x, itemHash, now)
            && t.custody.escrows[s.custody.nextEscrow].status == EscrowStatus.Locked && NumberedBelow(t.custody)
  {
    hide Storage.Move;
  }

  /** What the two settling calls of an escrow do: only the buyer releases it, and the seller gets the
      whole amount; only the seller refunds it, and the buyer gets it back. */
  ghost predicate Settles(cfg: Config, t: Storage, later: nat, n: nat, a: Account, b: Account, x: nat, w: Account) {
    && n in t.custody.escrows
    && (Dispatch(cfg, t, later, Release(w, n)).Ok?
        <==> w == a && t.custody.escrows[n].status == EscrowStatus.Locked && t.Move(cfg.treasury, b, x, AllowDeath).Some?)
    && (Dispatch(cfg, t, later, Refund(w, n)).Ok?
        <==> w == b && t.custody.escrows[n].status == EscrowStatus.Locked && t.Move(cfg.treasury, a, x, AllowDeath).Some?)
    && (Dispatch(cfg, t, later, Release(w, n)).Ok? ==>
          Follows(t.ledger, Step(cfg, t, later, Release(w, n)).ledger, Paid(cfg.treasury, b, x)))
    && (Dispatch(cfg, t, later, Refund(w, n)).Ok? ==>
          Follows(t.ledger, Step(cfg, t, later, Refund(w, n)).ledger, Paid(cfg.treasury, a, x)))
  }

  lemma EscrowSettles(cfg: Config, t: Storage, later: nat, n: nat, a: Account, b: Account, x: nat, itemHash: Hash, since: nat, w: Account)
    requires EscrowOf(t.custody, n, a, b, x, itemHash, since)
    ensures Settles(cfg, t, later, n, a, b, x, w)
  {
    CustodyCallAccepted(cfg, t, later, Release(w, n));
    CustodyCallAccepted(cfg, t, later, Refund(w, n));
    if Dispatch(cfg, t, later, Release(w, n)).Ok? { EscrowCallFollows(cfg, t, later, Release(w, n)); }
    if Dispatch(cfg, t, later, Refund(w, n)).Ok? { EscrowCallFollows(cfg, t, later, Refund(w, n)); }
    hide Dispatch, Step, Storage.Move, Follows;
  }

  /** Whatever happens after an escrow is made, it is the buyer's to release and the seller's to refund,
      and either pays the other the full amount. */
  lemma {:induction false} EscrowKeepsItsParties(cfg: Config, s: Storage, now: nat, a: Account, b: Account, x: nat, itemHash: Hash,
                                                 rest: seq<Timed>, later: nat, w: Account)
    requires NumberedBelow(s.custody) && Dispatch(cfg, s, now, Escrowed(a, b, x, itemHash)).Ok?
    ensures var n, t := s.custody.nextEscrow, Run(cfg, Step(cfg, s, now, Escrowed(a, b, x, itemHash)), rest);
            && EscrowOf(t.custody, n, a, b, x, itemHash, now)
            && Settles(cfg, t, later, n, a, b, x, w)
  {
    var n, start := s.custody.nextEscrow, Step(cfg, s, now, Escrowed(a, b, x, itemHash));
    EscrowRecords(cfg, s, now, a, b, x, itemHash);
    CustodyMovesForward(cfg, start, rest);
    EscrowAhead(start.custody, Run(cfg, start, rest).custody, n, a, b, x, itemHash, now);
    EscrowSettles(cfg, Run(cfg, start, rest), later, n, a, b, x, itemHash, now, w);
    hide Step, Run, Dispatch, CustodyAhead, Settles, EscrowOf, NumberedBelow;
  }

  lemma EscrowAhead(c: Custody, d: Custody, n: nat, a: Account, b: Account, x: nat, itemHash: Hash, since: nat)
    requires CustodyAhead(c, d) && EscrowOf(c, n, a, b, x, itemHash, since)
    ensures EscrowOf(d, n, a, b, x, itemHash, since)
  {}

  // ================================================================ time deposits

  /** The bank's interest is the exact fraction of the principal to the nearest planck, save for a
      billionth of the principal, and the whole principal once the term is as long as its yield. */
  lemma InterestExact(amount: nat, rateBps: nat, openedAt: nat, maturity: nat)
    ensures var i, n, d := InterestOn(amount, rateBps, openedAt, maturity), rateBps * SatSub(maturity, openedAt), 10_000 * 5_256_000;
            if n >= d then i == amount
            else 2 * d * i <= 2 * (n * amount) + d && 1_000_000_000 * (n * amount) < d * (1_000_000_000 * i + amount + 500_000_001)
  {
    var i, n, d := InterestOn(amount, rateBps, openedAt, maturity), rateBps * SatSub(maturity, openedAt), 10_000 * BLOCKS_PER_YEAR;
    if n < d {
      var parts := PartsPerBillion(n, d);
      assert d * parts <= n * 1_000_000_000 < d * parts + d;
      assert 1_000_000_000 * i <= parts * amount + 499_999_999 < 1_000_000_000 * i + 1_000_000_000;
      MulMonotone(d * parts, n * 1_000_000_000, amount, amount);
      MulMonotone(n * 1_000_000_000, d * parts + d, amount, amount);
      assert (d * parts) * amount == d * (parts * amount) && (d * parts + d) * amount == d * (parts * amount) + d * amount;
      assert (n * 1_000_000_000) * amount == 1_000_000_000 * (n * amount);
    }
  }

  /** Deposit `n`: `x` of `a`'s for five per cent a year until `maturity`. */
  predicate DepositOf(c: Custody, n: nat, a: Account, x: nat, since: nat, maturity: nat, documentHash: Hash) {
    n in c.deposits && c.deposits[n] == Deposit(a, x, 500, since, maturity, documentHash, c.deposits[n].status)
  }

  lemma DepositRecords(cfg: Config, s: Storage, now: nat, a: Account, x: nat, duration: nat, documentHash: Hash)
    requires NumberedBelow(s.custody) && Dispatch(cfg, s, now, OpenDeposit(a, x, duration, documentHash)).Ok?
    ensures var t := Step(cfg, s, now, OpenDeposit(a, x, duration, documentHash));
            && DepositOf(t.custody, s.custody.nextDeposit, a, x, now, Min(now + duration, U32_MAX), documentHash)
            && t.custody.deposits[s.custody.nextDeposit].status == DepositStatus.Open && NumberedBelow(t.custody)
  {
    hide Storage.Move;
  }

  /** What claiming a deposit does: only its owner claims it, once, from maturity on, and receives the
      principal and its interest for the term. */
  ghost predicate Yields(cfg: Config, t: Storage, later: nat, n: nat, a: Account, x: nat, since: nat, maturity: nat, w: Account) {
    var payout := x + InterestOn(x, 500, since, maturity);
    && n in t.custody.deposits
    && (Dispatch(cfg, t, later, Claim(w, n)).Ok?
        <==> w == a && maturity <= later && t.custody.deposits[n].status == DepositStatus.Open
             && t.ledger.Free(cfg.treasury) >= payout && t.Move(cfg.treasury, a, payout, AllowDeath).Some?)
    && (Dispatch(cfg, t, later, Claim(w, n)).Ok? ==>
          Follows(t.ledger, Step(cfg, t, later, Claim(w, n)).ledger, Paid(cfg.treasury, a, payout)))
  }

  lemma DepositYields(cfg: Config, t: Storage, later: nat, n: nat, a: Account, x: nat, since: nat, maturity: nat, documentHash: Hash, w: Account)
    requires DepositOf(t.custody, n, a, x, since, maturity, documentHash)
    ensures Yields(cfg, t, later, n, a, x, since, maturity, w)
  {
    CustodyCallAccepted(cfg, t, later, Claim(w, n));
    if Dispatch(cfg, t, later, Claim(w, n)).Ok? { CustodyCallFollows(cfg, t, later, Claim(w, n)); }
    hide Dispatch, Step, Storage.Move, Follows, InterestOn;
  }

  /** Whatever happens after a deposit is opened, its owner and nobody else may claim it from the block
      its term runs out, for the principal and the interest of that term. */
  lemma {:induction false} DepositKeepsItsYield(cfg: Config, s: Storage, now: nat, a: Account, x: nat, duration: nat, documentHash: Hash,
                                                rest: seq<Timed>, later: nat, w: Account)
    requires NumberedBelow(s.custody) && Dispatch(cfg, s, now, OpenDeposit(a, x, duration, documentHash)).Ok?
    ensures var n, t := s.custody.nextDeposit, Run(cfg, Step(cfg, s, now, OpenDeposit(a, x, duration, documentHash)), rest);
            && DepositOf(t.custody, n, a, x, now, Min(now + duration, U32_MAX), documentHash)
            && Yields(cfg, t, later, n, a, x, now, Min(now + duration, U32_MAX), w)
  {
    var n, start, end := s.custody.nextDeposit, Step(cfg, s, now, OpenDeposit(a, x, duration, documentHash)), Min(now + duration, U32_MAX);
    DepositRecords(cfg, s, now, a, x, duration, documentHash);
    CustodyMovesForward(cfg, start, rest);
    DepositAhead(start.custody, Run(cfg, start, rest).custody, n, a, x, now, end, documentHash);
    DepositYields(cfg, Run(cfg, start, rest), later, n, a, x, now, end, documentHash, w);
    hide Step, Run, Dispatch, CustodyAhead, Yields, DepositOf, NumberedBelow;
  }

  lemma DepositAhead(c: Custody, d: Custody, n: nat, a: Account, x: nat, since: nat, maturity: nat, documentHash: Hash)
    requires CustodyAhead(c, d) && DepositOf(c, n, a, x, since, maturity, documentHash)
    ensures DepositOf(d, n, a, x, since, maturity, documentHash)
  {}

  // ================================================================ loans

  /** Loan `n`: `x` asked for by `a` against `collateral`. */
  predicate LoanOf(book: Lending, n: nat, a: Account, x: nat, collateral: nat, since: nat) {
    n in book.loans && book.loans[n] == Loan(a, collateral, x, since, book.loans[n].status, book.loans[n].outstanding)
  }

  lemma RequestRecords(cfg: Config, s: Storage, now: nat, a: Account, x: nat, collateral: nat)
    requires LoansSound(s.lending) && Dispatch(cfg, s, now, Request(a, x, collateral)).Ok?
    ensures var t := Step(cfg, s, now, Request(a, x, collateral));
            && LoanOf(t.lending, s.lending.nextLoan, a, x, collateral, now) && LoansSound(t.lending)
            && t.lending.loans[s.lending.nextLoan].status == Pending && t.lending.loans[s.lending.nextLoan].outstanding == x
            && t.lending.LockOf(a) == if collateral > 0 then collateral else s.lending.LockOf(a)
  {
    StepKeepsLoansSound(cfg, s, now, Request(a, x, collateral));
    hide LoansSound;
  }

  /** What an accepted call does with a loan: approval pays its borrower the sum asked for and the debt
      is that sum; only the borrower cancels it, for nothing; only the borrower pays it off, and the debt
      falls by what is paid, to zero at most. */
  ghost predicate Serves(cfg: Config, t: Storage, u: Storage, call: Call, n: nat, a: Account, x: nat) {
    && n in t.lending.loans && n in u.lending.loans
    && var l, m := t.lending.loans[n], u.lending.loans[n];
       && (call == Approve(n) ==> Follows(t.ledger, u.ledger, Paid(cfg.treasury, a, x)) && m.status == Active && m.outstanding == x)
       && (call.Cancel? && call.id == n ==> call.who == a && u.ledger == t.ledger && m.status == Repaid && u.lending.LockOf(a) == 0)
       && (call.Pay? && call.who == a && a in t.lending.activeLoan && t.lending.activeLoan[a] == n ==>
             && Follows(t.ledger, u.ledger, Paid(a, cfg.treasury, call.amount))
             && m.outstanding == SatSub(l.outstanding, call.amount)
             && m.status == (if l.outstanding <= call.amount then Repaid else Active)
             && (m.status == Repaid ==> u.lending.LockOf(a) == 0))
       && (m.outstanding != l.outstanding ==> call.Pay? && call.who == a)
  }

  lemma PaymentServesLoan(cfg: Config, t: Storage, later: nat, call: Call, n: nat, a: Account, x: nat, collateral: nat, since: nat)
    requires LoansSound(t.lending) && LoanOf(t.lending, n, a, x, collateral, since) && call.Pay? && Dispatch(cfg, t, later, call).Ok?
    ensures Serves(cfg, t, Step(cfg, t, later, call), call, n, a, x)
  {
    RecordsCallFollows(cfg, t, later, call);
    hide Storage.Move, Secured, Follows, DebtSound;
  }

  lemma OtherLoanCallServesLoan(cfg: Config, t: Storage, later: nat, call: Call, n: nat, a: Account, x: nat, collateral: nat, since: nat)
    requires LoansSound(t.lending) && LoanOf(t.lending, n, a, x, collateral, since)
    requires (call.Request? || call.Approve? || call.Cancel?) && Dispatch(cfg, t, later, call).Ok?
    ensures Serves(cfg, t, Step(cfg, t, later, call), call, n, a, x)
  {
    RecordsCallFollows(cfg, t, later, call);
    assert t.lending.loans[n].status == Pending ==> t.lending.loans[n].outstanding == x;
    assert n != t.lending.nextLoan;
    hide Storage.Move, LoansSound, Follows;
  }

  lemma CallServesLoan(cfg: Config, t: Storage, later: nat, call: Call, n: nat, a: Account, x: nat, collateral: nat, since: nat)
    requires LoansSound(t.lending) && LoanOf(t.lending, n, a, x, collateral, since) && Dispatch(cfg, t, later, call).Ok?
    ensures Serves(cfg, t, Step(cfg, t, later, call), call, n, a, x)
  {
    if call.Pay? {
      PaymentServesLoan(cfg, t, later, call, n, a, x, collateral, since);
      hide Serves;
    } else if TouchesLending(call) {
      OtherLoanCallServesLoan(cfg, t, later, call, n, a, x, collateral, since);
      hide Serves;
    } else {
      Frame(cfg, t, later, call);
    }
    hide Dispatch, Step, LoansSound, Follows;
  }

  /** Whatever happens after a loan is requested, it stays the borrower's on these terms, and every
      accepted call on it serves them. */
  lemma {:induction false} LoanKeepsItsTerms(cfg: Config, s: Storage, now: nat, a: Account, x: nat, collateral: nat,
                                             rest: seq<Timed>, later: nat, call: Call)
    requires LoansSound(s.lending) && Dispatch(cfg, s, now, Request(a, x, collateral)).Ok?
    ensures var n, t := s.lending.nextLoan, Run(cfg, Step(cfg, s, now, Request(a, x, collateral)), rest);
            && LoanOf(t.lending, n, a, x, collateral, now)
            && (Dispatch(cfg, t, later, call).Ok? ==> Serves(cfg, t, Step(cfg, t, later, call), call, n, a, x))
  {
    var n, start := s.lending.nextLoan, Step(cfg, s, now, Request(a, x, collateral));
    RequestRecords(cfg, s, now, a, x, collateral);
    LoansMoveForward(cfg, start, rest);
    LoansStaySound(cfg, start, rest);
    var t := Run(cfg, start, rest);
    LoanOfAhead(start.lending, t.lending, n, a, x, collateral, now);
    hide Step, Run, Dispatch, LoansSound, LoansAhead, Serves, LoanOf;
    if Dispatch(cfg, t, later, call).Ok? {
      CallServesLoan(cfg, t, later, call, n, a, x, collateral, now);
    }
  }

  lemma LoanOfAhead(book: Lending, after: Lending, n: nat, a: Account, x: nat, collateral: nat, since: nat)
    requires LoansAhead(book, after) && LoanOf(book, n, a, x, collateral, since)
    ensures LoanOf(after, n, a, x, collateral, since)
  {}

  // ================================================================ card collateral and the server key

  /** What a run leaves in an account's card collateral: what it locked less what it took back. */
  function CardNet(cfg: Config, s: Storage, calls: seq<Timed>, a: Account): int
    decreases |calls|
  {
    if calls == [] then 0
    else CardChange(cfg, s, calls[0].now, calls[0].call, a) + CardNet(cfg, Step(cfg, s, calls[0].now, calls[0].call), calls[1..], a)
  }

  function CardChange(cfg: Config, s: Storage, now: nat, call: Call, a: Account): int {
    if Dispatch(cfg, s, now, call).Err? then 0
    else if call.Lock? && call.who == a then call.amount
    else if call.Unlock? && call.who == a then 0 - call.amount
    else 0
  }

  lemma CardStep(cfg: Config, s: Storage, now: nat, call: Call, a: Account)
    ensures Step(cfg, s, now, call).custody.CollateralOf(a) == s.custody.CollateralOf(a) + CardChange(cfg, s, now, call, a)
  {
    if TouchesCustody(call) {
      hide InterestOn, Storage.Move;
    } else {
      Frame(cfg, s, now, call);
      hide Dispatch, Step;
    }
  }

  /** Over any run an account's card collateral is what it was, plus all it locked, less all it took back. */
  lemma {:induction false} CardFollowsItsHolder(cfg: Config, s: Storage, calls: seq<Timed>, a: Account)
    ensures Run(cfg, s, calls).custody.CollateralOf(a) == s.custody.CollateralOf(a) + CardNet(cfg, s, calls, a)
    decreases |calls|
  {
    if calls != [] {
      CardStep(cfg, s, calls[0].now, calls[0].call, a);
      hide Step, CardChange;
      CardFollowsItsHolder(cfg, Step(cfg, s, calls[0].now, calls[0].call), calls[1..], a);
    }
  }

  /** The key that authorises payouts is the one set last. */
  function LastKey(key: Option<Account>, calls: seq<Timed>): Option<Account> {
    if calls == [] then key
    else if calls[|calls| - 1].call.SetServerKey? then Some(calls[|calls| - 1].call.key)
    else LastKey(key, calls[..|calls| - 1])
  }

  lemma KeyStep(cfg: Config, s: Storage, now: nat, call: Call)
    ensures Step(cfg, s, now, call).serverKey == if call.SetServerKey? then Some(call.key) else s.serverKey
  {
    hide InterestOn, Storage.Move, Storage.Burn, Ledger.DepositCreating, Ledger.Lands, AfterPayment, DropSubAccount;
  }

  lemma {:induction false} KeyIsTheLastSet(cfg: Config, s: Storage, calls: seq<Timed>)
    ensures Run(cfg, s, calls).serverKey == LastKey(s.serverKey, calls)
    decreases |calls|
  {
    if calls != [] {
      var first, rest := calls[0], calls[1..];
      KeyStep(cfg, s, first.now, first.call);
      hide Step;
      KeyIsTheLastSet(cfg, Step(cfg, s, first.now, first.call), rest);
      LastKeyFrom(s.serverKey, calls);
    }
  }

  lemma {:induction false} LastKeyFrom(key: Option<Account>, calls: seq<Timed>)
    requires calls != []
    ensures LastKey(key, calls) == LastKey(if calls[0].call.SetServerKey? then Some(calls[0].call.key) else key, calls[1..])
    decreases |calls|
  {
    var n := |calls| - 1;
    if n > 0 {
      assert calls[..n][1..] == calls[1..][..n - 1];
      LastKeyFrom(key, calls[..n]);
    } else {
      assert calls[..0] == [];
    }
  }
}
