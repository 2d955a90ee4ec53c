/** The lock on loan collateral in pallet-bank-of-siberia. All requests of a borrower share one lock,
    and it is meant to cover the largest collateral outstanding: when it does, when a call makes it
    fail, and what it protects. */
module BankOfSiberiaLocks {
  import opened Prelude
  import opened Currency
  import opened BankOfSiberia
  import opened BankOfSiberiaRecords

  ghost predicate SecuredBy(book: Lending, b: Account, id: nat, amount: nat) {
    (b, id) in book.loanCollateral && book.loanCollateral[(b, id)] == amount
  }

  /** The lock on a borrower holds the largest collateral of its Pending and Active loans, or nothing
      where there is none. */
  ghost predicate LockIsMaximum(book: Lending, b: Account) {
    && (forall id: nat, amount: nat :: SecuredBy(book, b, id, amount) ==> amount <= book.LockOf(b))
    && (book.LockOf(b) == 0 || exists id :: SecuredBy(book, b, id, book.LockOf(b)))
  }

  /** Some loan other than `id` has collateral outstanding. */
  ghost predicate OtherSecured(book: Lending, b: Account, id: nat) {
    exists j: nat, amount: nat :: SecuredBy(book, b, j, amount) && j != id && amount > 0
  }

  /** What a payment to the treasury asks of the payer's balance: to stay above the lock and above the
      existential deposit. A treasury paying itself moves nothing. */
  predicate Affords(cfg: Config, s: Storage, who: Account, amount: nat) {
    who == cfg.treasury
    || (&& s.ledger.Free(who) >= amount + s.lending.LockOf(who)
        && s.ledger.Free(who) >= amount + s.ledger.ed
        && s.ledger.Free(cfg.treasury) + amount >= s.ledger.ed)
  }

  /** A pending loan of the borrower, who may cancel it. */
  predicate Cancels(s: Storage, who: Account, id: nat) {
    id in s.lending.loans && s.lending.loans[id].borrower == who && s.lending.loans[id].status == Pending
  }

  /** A payment from the borrower's own credit line that covers all its Active loan still owes. */
  predicate PaysOff(cfg: Config, s: Storage, who: Account, sub: Account, amount: nat) {
    && sub in s.accounts.subMeta && s.accounts.subMeta[sub].master == who && s.accounts.subMeta[sub].kind == CreditLine
    && amount > 0 && Affords(cfg, s, who, amount)
    && who in s.lending.activeLoan
    && var id := s.lending.activeLoan[who];
       id in s.lending.loans && s.lending.loans[id].outstanding <= amount
  }

  /** The calls that leave the lock below the maximum: a further request with less collateral than
      the lock already holds, and closing one loan while another has collateral outstanding. */
  ghost predicate UndercutsLock(cfg: Config, s: Storage, call: Call, b: Account) {
    match call
    case Request(who, amount, collateral) =>
      who == b && b in s.accounts.masters && amount > 0 && 0 < collateral < s.lending.LockOf(b)
    case Cancel(who, id) => who == b && Cancels(s, b, id) && OtherSecured(s.lending, b, id)
    case Pay(who, sub, amount) =>
      who == b && PaysOff(cfg, s, b, sub, amount) && OtherSecured(s.lending, b, s.lending.activeLoan[b])
    case _ => false
  }

  lemma PaymentClosesExactly(cfg: Config, s: Storage, who: Account, sub: Account, amount: nat)
    requires LoansSound(s.lending)
    ensures PaysOff(cfg, s, who, sub, amount)
            <==> && PayCredit(cfg, s, who, sub, amount).Ok?
                 && s.lending.loans[s.lending.activeLoan[who]].outstanding <= amount
  {}

  lemma RequestMovesLock(s: Storage, now: nat, who: Account, amount: nat, collateral: nat, b: Account)
    requires LoansSound(s.lending) && LockIsMaximum(s.lending, b) && RequestLoan(s, now, who, amount, collateral).Ok?
    ensures !LockIsMaximum(RequestLoan(s, now, who, amount, collateral).value.lending, b)
            <==> who == b && 0 < collateral < s.lending.LockOf(b)
  {
    var book, after := s.lending, RequestLoan(s, now, who, amount, collateral).value.lending;
    var n, lock := book.nextLoan, book.LockOf(b);
    assert (who, n) !in book.loanCollateral;
    forall id: nat, a: nat ensures SecuredBy(after, b, id, a) <==> SecuredBy(book, b, id, a) || (who == b && id == n && a == collateral) {}
    if lock > 0 {
      var id :| SecuredBy(book, b, id, lock);
      assert SecuredBy(after, b, id, lock);
    }
    if who == b {
      assert SecuredBy(after, b, n, collateral);
    }
    hide LoansSound, SecuredBy;
  }

  /** Once a loan is closed and the lock lifted, nothing may be left to cover. */
  lemma ClosingMovesLock(book: Lending, after: Lending, who: Account, id: nat, b: Account)
    requires LockIsMaximum(book, b)
    requires after.loanCollateral == book.loanCollateral - {(who, id)} && after.locks == book.locks - {who}
    ensures !LockIsMaximum(after, b) <==> who == b && OtherSecured(book, b, id)
  {
    forall j: nat, a: nat ensures SecuredBy(after, b, j, a) <==> SecuredBy(book, b, j, a) && !(who == b && j == id) {}
    if who != b && book.LockOf(b) > 0 {
      var j :| SecuredBy(book, b, j, book.LockOf(b));
      assert SecuredBy(after, b, j, book.LockOf(b));
    }
    hide SecuredBy;
  }

  lemma SameLock(book: Lending, after: Lending, b: Account)
    requires after.loanCollateral == book.loanCollateral && after.locks == book.locks
    ensures LockIsMaximum(after, b) <==> LockIsMaximum(book, b)
  {
    forall j: nat, a: nat ensures SecuredBy(after, b, j, a) <==> SecuredBy(book, b, j, a) {}
    hide SecuredBy;
  }

  /** From a state in which the lock is the maximum, a call makes it fall short exactly when it is one
      of those. */
  lemma LockFallsShortExactly(cfg: Config, s: Storage, now: nat, call: Call, b: Account)
    requires LoansSound(s.lending) && LockIsMaximum(s.lending, b)
    ensures !LockIsMaximum(Step(cfg, s, now, call).lending, b) <==> UndercutsLock(cfg, s, call, b)
  {
    hide LoansSound, LockIsMaximum, OtherSecured, Storage.Move;
    if !TouchesLending(call) {
      Frame(cfg, s, now, call);
      hide Dispatch;
    } else if Dispatch(cfg, s, now, call).Ok? {
      match call
      case Request(who, amount, collateral) => RequestMovesLock(s, now, who, amount, collateral, b);
      case Approve(_) => SameLock(s.lending, Step(cfg, s, now, call).lending, b);
      case Cancel(who, id) => ClosingMovesLock(s.lending, Step(cfg, s, now, call).lending, who, id, b);
      case Pay(who, sub, amount) =>
        PaymentClosesExactly(cfg, s, who, sub, amount);
        var id, after := s.lending.activeLoan[who], Step(cfg, s, now, call).lending;
        if s.lending.loans[id].outstanding <= amount {
          ClosingMovesLock(s.lending, after, who, id, b);
        } else {
          SameLock(s.lending, after, b);
        }
    } else if call.Pay? {
      PaymentClosesExactly(cfg, s, call.who, call.sub, call.amount);
    }
  }

  // ================================================================ over runs

  /** A run cut short before its call number `i`. */
  function Before(cfg: Config, s: Storage, calls: seq<Timed>, i: nat): Storage
    requires i <= |calls|
  {
    Run(cfg, s, calls[..i])
  }

  lemma {:induction false} RunAppend(cfg: Config, s: Storage, calls: seq<Timed>, last: Timed)
    ensures Run(cfg, s, calls + [last]) == Step(cfg, Run(cfg, s, calls), last.now, last.call)
    decreases |calls|
  {
    hide Step;
    if calls == [] {
      assert [last][1..] == [];
    } else {
      assert (calls + [last])[1..] == calls[1..] + [last];
      RunAppend(cfg, Step(cfg, s, calls[0].now, calls[0].call), calls[1..], last);
    }
  }

  lemma BeforeNext(cfg: Config, s: Storage, calls: seq<Timed>, i: nat)
    requires i < |calls|
    ensures Before(cfg, s, calls, i + 1) == Step(cfg, Before(cfg, s, calls, i), calls[i].now, calls[i].call)
  {
    hide Step;
    assert calls[..i + 1] == calls[..i] + [calls[i]];
    RunAppend(cfg, s, calls[..i], calls[i]);
  }

  lemma {:induction false} MaximumUpTo(cfg: Config, s: Storage, calls: seq<Timed>, b: Account, n: nat)
    requires LoansSound(s.lending) && LockIsMaximum(s.lending, b) && n <= |calls|
    ensures (forall i :: 0 <= i <= n ==> LockIsMaximum(Before(cfg, s, calls, i).lending, b))
            <==> (forall i :: 0 <= i < n ==> !UndercutsLock(cfg, Before(cfg, s, calls, i), calls[i].call, b))
  {
    if n > 0 {
      MaximumUpTo(cfg, s, calls, b, n - 1);
      BeforeNext(cfg, s, calls, n - 1);
      LoansStaySound(cfg, s, calls[..n - 1]);
      if LockIsMaximum(Before(cfg, s, calls, n - 1).lending, b) {
        LockFallsShortExactly(cfg, Before(cfg, s, calls, n - 1), calls[n - 1].now, calls[n - 1].call, b);
      }
    } else {
      assert calls[..0] == [];
    }
    hide LockIsMaximum, UndercutsLock, LoansSound, Step;
  }

  /** The lock covers the largest collateral after every call of a run exactly when no call of the run
      undercuts it. */
  lemma {:induction false} LockIsMaximumThroughout(cfg: Config, s: Storage, calls: seq<Timed>, b: Account)
    requires LoansSound(s.lending) && LockIsMaximum(s.lending, b)
    ensures (forall i :: 0 <= i <= |calls| ==> LockIsMaximum(Before(cfg, s, calls, i).lending, b))
            <==> (forall i :: 0 <= i < |calls| ==> !UndercutsLock(cfg, Before(cfg, s, calls, i), calls[i].call, b))
  {
    MaximumUpTo(cfg, s, calls, b, |calls|);
    hide LockIsMaximum, UndercutsLock, LoansSound, Before;
  }

  lemma FreshLocks(ledger: Ledger, b: Account)
    ensures LockIsMaximum(Fresh(ledger).lending, b)
  {}

  /** From an empty bank, a borrower's lock covers its largest collateral after every call exactly when
      no call of the run undercuts it. */
  lemma {:induction false} EveryRunFromEmpty(cfg: Config, ledger: Ledger, calls: seq<Timed>, b: Account)
    ensures (forall i :: 0 <= i <= |calls| ==> LockIsMaximum(Before(cfg, Fresh(ledger), calls, i).lending, b))
            <==> (forall i :: 0 <= i < |calls| ==> !UndercutsLock(cfg, Before(cfg, Fresh(ledger), calls, i), calls[i].call, b))
  {
    FreshRecords(cfg, ledger);
    FreshLocks(ledger, b);
    LockIsMaximumThroughout(cfg, Fresh(ledger), calls, b);
  }

  /** It does not in general: a second, smaller request halves the lock on the first loan, and
      cancelling the second lifts it altogether. */
  lemma LockCanFallShort(cfg: Config, ledger: Ledger, b: Account)
    ensures var calls := [At(0, OpenMaster(b, true)), At(0, Request(b, 1, 100)), At(1, Request(b, 1, 50)), At(2, Cancel(b, 1))];
            var s, t, u := Before(cfg, Fresh(ledger), calls, 2), Before(cfg, Fresh(ledger), calls, 3), Before(cfg, Fresh(ledger), calls, 4);
            && SecuredBy(s.lending, b, 0, 100) && s.lending.LockOf(b) == 100
            && SecuredBy(t.lending, b, 0, 100) && t.lending.LockOf(b) == 50
            && SecuredBy(u.lending, b, 0, 100) && u.lending.LockOf(b) == 0
  {
    var calls := [At(0, OpenMaster(b, true)), At(0, Request(b, 1, 100)), At(1, Request(b, 1, 50)), At(2, Cancel(b, 1))];
    assert Before(cfg, Fresh(ledger), calls, 0) == Fresh(ledger);
    BeforeNext(cfg, Fresh(ledger), calls, 0);
    BeforeNext(cfg, Fresh(ledger), calls, 1);
    BeforeNext(cfg, Fresh(ledger), calls, 2);
    BeforeNext(cfg, Fresh(ledger), calls, 3);
    hide Before, Run, Storage.Move, OpenSubAccount, WithdrawFromSavings, PayCredit, ApproveLoan;
    var r, s := Before(cfg, Fresh(ledger), calls, 1), Before(cfg, Fresh(ledger), calls, 2);
    assert b in r.accounts.masters && r.lending == Fresh(ledger).lending;
    assert s.lending.loans == map[0 := Loan(b, 100, 1, 0, Pending, 1)] && s.lending.nextLoan == 1 && b in s.accounts.masters;
  }

  // ================================================================ what the lock protects

  /** No call takes an account's free balance below what the lock holds back. */
  lemma LockedFundsStay(cfg: Config, s: Storage, now: nat, call: Call, a: Account)
    requires Step(cfg, s, now, call).ledger.Free(a) < s.ledger.Free(a)
    ensures Step(cfg, s, now, call).ledger.Free(a) >= s.lending.LockOf(a)
  {
    if TouchesCustody(call) {
      CustodyLeavesLocked(cfg, s, now, call, a);
    } else {
      OtherCallLeavesLocked(cfg, s, now, call, a);
    }
    hide Step;
  }

  lemma CustodyLeavesLocked(cfg: Config, s: Storage, now: nat, call: Call, a: Account)
    requires TouchesCustody(call) && Step(cfg, s, now, call).ledger.Free(a) < s.ledger.Free(a)
    ensures Step(cfg, s, now, call).ledger.Free(a) >= s.lending.LockOf(a)
  {
    hide InterestOn, Storage.Move, Ledger.Free;
    match call
    case Escrowed(who, _, amount, _) => MoveConserves(s, who, cfg.treasury, amount, AllowDeath);
    case Release(_, id) =>
      MoveConserves(s, cfg.treasury, s.custody.escrows[id].counterparty, s.custody.escrows[id].amount, AllowDeath);
    case Refund(_, id) =>
      MoveConserves(s, cfg.treasury, s.custody.escrows[id].depositor, s.custody.escrows[id].amount, AllowDeath);
    case OpenDeposit(who, amount, _, _) => MoveConserves(s, who, cfg.treasury, amount, AllowDeath);
    case Claim(who, id) =>
      var d := s.custody.deposits[id];
      MoveConserves(s, cfg.treasury, who, d.amount + InterestOn(d.amount, d.rateBps, d.openedAt, d.maturity), AllowDeath);
    case Lock(who, amount) => MoveConserves(s, who, cfg.treasury, amount, KeepAlive);
    case Unlock(who, amount, _, _) => MoveConserves(s, cfg.treasury, who, amount, KeepAlive);
    case Advance(who, amount, _, _) => MoveConserves(s, cfg.treasury, who, amount, KeepAlive);
  }

  lemma OtherCallLeavesLocked(cfg: Config, s: Storage, now: nat, call: Call, a: Account)
    requires !TouchesCustody(call) && Step(cfg, s, now, call).ledger.Free(a) < s.ledger.Free(a)
    ensures Step(cfg, s, now, call).ledger.Free(a) >= s.lending.LockOf(a)
  {
    hide Storage.Move, AfterPayment, DropSubAccount;
    match call
    case Withdraw(who, sub, amount) => MoveConserves(s, sub, who, amount, AllowDeath);
    case Pay(who, _, amount) => MoveConserves(s, who, cfg.treasury, amount, KeepAlive);
    case Approve(id) => MoveConserves(s, cfg.treasury, s.lending.loans[id].borrower, s.lending.loans[id].amount, KeepAlive);
    case Fund(who, amount) => MoveConserves(s, who, cfg.treasury, amount, KeepAlive);
    case RepayAdvance(who, amount) => MoveConserves(s, who, cfg.treasury, amount, KeepAlive);
    case Foreign(from, to, amount) => MoveConserves(s, from, to, amount, AllowDeath);
    case _ =>
  }

  /** So a call that spends from a borrower whose lock is the maximum leaves the collateral of every
      one of its open loans in the account. */
  lemma CollateralStaysInPlace(cfg: Config, s: Storage, now: nat, call: Call, b: Account, id: nat, amount: nat)
    requires LockIsMaximum(s.lending, b) && SecuredBy(s.lending, b, id, amount)
    requires Step(cfg, s, now, call).ledger.Free(b) < s.ledger.Free(b)
    ensures Step(cfg, s, now, call).ledger.Free(b) >= amount
  {
    LockedFundsStay(cfg, s, now, call, b);
    hide Step;
  }
}
