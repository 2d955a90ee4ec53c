/** The redundant records of pallet-bank-of-siberia agree in every run: the two sub-account views,
    and the loan table with its active-loan index and collateral map. */
module BankOfSiberiaRecords {
  import opened Prelude
  import opened Currency
  import opened Sums
  import opened BankOfSiberia

  // ================================================================ which records a call can reach

  predicate TouchesAccounts(call: Call) {
    call.OpenMaster? || call.OpenSub? || call.Withdraw? || call.CloseSub?
  }

  predicate TouchesLending(call: Call) {
    call.Request? || call.Approve? || call.Pay? || call.Cancel?
  }

  predicate TouchesCustody(call: Call) {
    call.Escrowed? || call.Release? || call.Refund? || call.OpenDeposit? || call.Claim?
    || call.Lock? || call.Unlock? || call.Advance?
  }

  /** A transfer under the loan lock conserves money like any other, and leaves a sender at least what
      the lock holds back. */
  lemma MoveConserves(s: Storage, from: Account, to: Account, amount: nat, e: Existence)
    requires s.Move(from, to, amount, e).Some?
    ensures var l, r := s.ledger, s.Move(from, to, amount, e).value;
            && r.issuance == l.issuance && r.ed == l.ed && (l.Balanced() ==> r.Balanced())
            && (from != to ==> r.Free(from) == l.Free(from) - amount && r.Free(to) == l.Free(to) + amount)
            && (forall a :: (a != from && a != to) || from == to ==> r.Free(a) == l.Free(a))
            && (forall a :: r.Free(a) < l.Free(a) ==> a == from && r.Free(a) >= s.lending.LockOf(a))
  {
    TransferConserves(s.ledger, from, to, amount, e);
    hide Ledger.Transfer, Ledger.Balanced;
  }

  /** What a transfer does depends on the ledger and the locks alone. */
  lemma MoveReadsLocks(s: Storage, t: Storage, from: Account, to: Account, amount: nat, e: Existence)
    requires t.ledger == s.ledger && t.lending.locks == s.lending.locks
    ensures t.Move(from, to, amount, e) == s.Move(from, to, amount, e)
  {
    hide Ledger.Transfer;
  }

  /** The three groups of records a call may change. */
  ghost predicate Framed(s: Storage, t: Storage, call: Call) {
    && (!TouchesAccounts(call) ==> t.accounts == s.accounts)
    && (!TouchesLending(call) ==> t.lending == s.lending)
    && (!TouchesCustody(call) ==> t.custody == s.custody)
  }

  lemma CustodyCallFramed(cfg: Config, s: Storage, now: nat, call: Call)
    requires TouchesCustody(call)
    ensures Framed(s, Step(cfg, s, now, call), call)
  {
    hide InterestOn, Storage.Move;
  }

  lemma OtherCallFramed(cfg: Config, s: Storage, now: nat, call: Call)
    requires !TouchesCustody(call)
    ensures Framed(s, Step(cfg, s, now, call), call)
  {
    hide Storage.Move, Storage.Burn, Ledger.DepositCreating, Ledger.Lands, AfterPayment, DropSubAccount;
  }

  lemma Frame(cfg: Config, s: Storage, now: nat, call: Call)
    ensures Framed(s, Step(cfg, s, now, call), call)
  {
    hide Step, Framed;
    if TouchesCustody(call) {
      CustodyCallFramed(cfg, s, now, call);
    } else {
      OtherCallFramed(cfg, s, now, call);
    }
  }

  // ================================================================ sub-accounts

  ghost predicate Injective(cfg: Config) {
    forall m, k, n, l :: cfg.derive(m, k) == cfg.derive(n, l) ==> m == n && k == l
  }

  /** The forward and the reverse view hold the same sub-accounts, each at the address derived
      from its master and type, and every master is registered. */
  ghost predicate Paired(cfg: Config, a: Accounts) {
    && (forall m, x :: (m, x) in a.subAccounts ==>
          x in a.subMeta && a.subMeta[x].master == m && a.subMeta[x].kind == a.subAccounts[(m, x)])
    && (forall x :: x in a.subMeta ==>
          var r := a.subMeta[x];
          && (r.master, x) in a.subAccounts
          && x == cfg.derive(r.master, r.kind)
          && r.master in a.masters)
  }

  /** Opening a sub-account keeps the views paired exactly when the derived address is free. */
  lemma OpenSubKeepsPaired(cfg: Config, s: Storage, now: nat, master: Account, kind: AccountType)
    requires Paired(cfg, s.accounts) && OpenSubAccount(cfg, s, now, master, kind).Ok?
    ensures Paired(cfg, OpenSubAccount(cfg, s, now, master, kind).value.accounts)
            <==> cfg.derive(master, kind) !in s.accounts.subMeta
  {
    var t, x := OpenSubAccount(cfg, s, now, master, kind).value.accounts, cfg.derive(master, kind);
    if x in s.accounts.subMeta {
      var other := s.accounts.subMeta[x].master;
      assert (other, x) in t.subAccounts && t.subMeta[x].master == master && other != master;
    }
  }

  /** ... and an injective derivation guarantees that. */
  lemma DerivedAddressIsFree(cfg: Config, s: Storage, now: nat, master: Account, kind: AccountType)
    requires Injective(cfg) && Paired(cfg, s.accounts) && OpenSubAccount(cfg, s, now, master, kind).Ok?
    ensures cfg.derive(master, kind) !in s.accounts.subMeta
  {}

  lemma DropKeepsPaired(cfg: Config, a: Accounts, master: Account, sub: Account)
    requires Paired(cfg, a) && sub in a.subMeta && a.subMeta[sub].master == master
    ensures Paired(cfg, DropSubAccount(a, master, sub))
  {}

  lemma StepKeepsPaired(cfg: Config, s: Storage, now: nat, call: Call)
    requires Injective(cfg) && Paired(cfg, s.accounts)
    ensures Paired(cfg, Step(cfg, s, now, call).accounts)
  {
    if !TouchesAccounts(call) {
      Frame(cfg, s, now, call);
      hide Dispatch;
    } else if Dispatch(cfg, s, now, call).Ok? {
      hide Storage.Move;
      match call
      case OpenSub(who, kind) =>
        DerivedAddressIsFree(cfg, s, now, who, kind);
        OpenSubKeepsPaired(cfg, s, now, who, kind);
      case OpenMaster(who, approved) =>
      case Withdraw(who, sub, _) => DropKeepsPaired(cfg, s.accounts, who, sub);
      case CloseSub(who, sub) => DropKeepsPaired(cfg, s.accounts, who, sub);
    }
  }

  lemma {:induction false} SubAccountViewsStayPaired(cfg: Config, s: Storage, calls: seq<Timed>)
    requires Injective(cfg) && Paired(cfg, s.accounts)
    ensures Paired(cfg, Run(cfg, s, calls).accounts)
    decreases |calls|
  {
    if calls != [] {
      StepKeepsPaired(cfg, s, calls[0].now, calls[0].call);
      SubAccountViewsStayPaired(cfg, Step(cfg, s, calls[0].now, calls[0].call), calls[1..]);
    }
  }

  /** At most one sub-account per master and type, and the duplicate check says exactly whether
      it is open. */
  lemma OneSubAccountPerType(cfg: Config, a: Accounts, m: Account, kind: AccountType)
    requires Injective(cfg) && Paired(cfg, a)
    ensures forall x :: (m, x) in a.subAccounts && a.subAccounts[(m, x)] == kind ==> x == cfg.derive(m, kind)
    ensures (m, cfg.derive(m, kind)) in a.subAccounts
            <==> exists x :: (m, x) in a.subAccounts && a.subAccounts[(m, x)] == kind
  {
    if (m, cfg.derive(m, kind)) in a.subAccounts {
      assert a.subMeta[cfg.derive(m, kind)].kind == kind;
      assert a.subAccounts[(m, cfg.derive(m, kind))] == kind;
    }
  }

  /** Who may use a sub-account: the check passes exactly for a pair in the forward view, and then
      answers the type recorded there and the address derived from it. */
  lemma OwnedExactly(cfg: Config, s: Storage, master: Account, sub: Account)
    requires Paired(cfg, s.accounts)
    ensures OwnedSubAccount(s, master, sub).Ok? <==> (master, sub) in s.accounts.subAccounts
    ensures OwnedSubAccount(s, master, sub).Ok? ==>
              var r := OwnedSubAccount(s, master, sub).value;
              r.master == master && r.kind == s.accounts.subAccounts[(master, sub)] && sub == cfg.derive(master, r.kind)
    ensures OwnedSubAccount(s, master, sub) == Err(NotSubAccountOwner)
            <==> (master, sub) !in s.accounts.subAccounts && exists other :: (other, sub) in s.accounts.subAccounts
  {
    if sub in s.accounts.subMeta {
      assert (s.accounts.subMeta[sub].master, sub) in s.accounts.subAccounts;
    }
  }

  /** A withdrawal moves the amount to the master, and the sub-account stays on record exactly
      while it still holds something. */
  lemma WithdrawalExact(cfg: Config, s: Storage, master: Account, sub: Account, amount: nat)
    requires Paired(cfg, s.accounts) && WithdrawFromSavings(s, master, sub, amount).Ok? && sub != master
    ensures var t := WithdrawFromSavings(s, master, sub, amount).value;
            && t.ledger.Free(sub) == s.ledger.Free(sub) - amount
            && t.ledger.Free(master) == s.ledger.Free(master) + amount
            && (sub in t.accounts.subMeta <==> t.ledger.Free(sub) > 0)
            && ((master, sub) in t.accounts.subAccounts <==> t.ledger.Free(sub) > 0)
  {
    MoveConserves(s, sub, master, amount, AllowDeath);
  }

  // ================================================================ loans

  predicate Open(l: Loan) { l.status == Pending || l.status == Active }

  /** The index holds exactly the Active loans, under their borrowers. */
  ghost predicate Indexed(loans: map<nat, Loan>, index: map<Account, nat>) {
    && (forall b :: b in index ==>
          index[b] in loans && loans[index[b]].borrower == b && loans[index[b]].status == Active)
    && (forall id :: id in loans && loans[id].status == Active ==>
          loans[id].borrower in index && index[loans[id].borrower] == id)
  }

  /** The collateral map holds exactly the collateral of Pending and Active loans. */
  ghost predicate Secured(book: Lending) {
    && (forall b, id :: (b, id) in book.loanCollateral ==>
          && id in book.loans && book.loans[id].borrower == b && Open(book.loans[id])
          && book.loanCollateral[(b, id)] == book.loans[id].collateral)
    && (forall id :: id in book.loans && Open(book.loans[id]) ==> (book.loans[id].borrower, id) in book.loanCollateral)
  }

  ghost predicate DebtSound(l: Loan) {
    && l.amount > 0 && l.outstanding <= l.amount
    && (l.status == Pending ==> l.outstanding == l.amount)
    && (l.status == Active ==> l.outstanding > 0)
    && l.status != Defaulted
  }

  ghost predicate LoansSound(book: Lending) {
    && (forall id :: id in book.loans ==> id < book.nextLoan && DebtSound(book.loans[id]))
    && Indexed(book.loans, book.activeLoan)
    && Secured(book)
  }

  lemma PaymentKeepsSecured(book: Lending, master: Account, id: nat, left: nat)
    requires Secured(book) && id in book.loans && book.loans[id].status == Active && book.loans[id].borrower == master
    ensures Secured(AfterPayment(book, master, id, left))
  {}

  lemma PaymentKeepsIndexed(book: Lending, master: Account, id: nat, left: nat)
    requires Indexed(book.loans, book.activeLoan)
    requires id in book.loans && book.loans[id].status == Active && book.loans[id].borrower == master
    ensures var after := AfterPayment(book, master, id, left); Indexed(after.loans, after.activeLoan)
  {}

  lemma AfterPaymentKeepsLoansSound(book: Lending, master: Account, id: nat, left: nat)
    requires LoansSound(book) && id in book.loans && book.loans[id].status == Active
    requires book.loans[id].borrower == master && left <= book.loans[id].outstanding
    ensures LoansSound(AfterPayment(book, master, id, left))
  {
    PaymentKeepsSecured(book, master, id, left);
    PaymentKeepsIndexed(book, master, id, left);
    hide Secured, Indexed;
  }

  lemma RequestKeepsLoansSound(s: Storage, now: nat, borrower: Account, amount: nat, collateral: nat)
    requires LoansSound(s.lending) && RequestLoan(s, now, borrower, amount, collateral).Ok?
    ensures LoansSound(RequestLoan(s, now, borrower, amount, collateral).value.lending)
  {}

  lemma ActivationKeepsLoansSound(book: Lending, id: nat, l: Loan)
    requires LoansSound(book) && id in book.loans && book.loans[id].status == Pending
    requires l == book.loans[id].(status := Active) && l.borrower !in book.activeLoan
    ensures LoansSound(book.(loans := book.loans[id := l], activeLoan := book.activeLoan[l.borrower := id]))
  {
    var after := book.(loans := book.loans[id := l], activeLoan := book.activeLoan[l.borrower := id]);
    assert Secured(after) by { hide Indexed, DebtSound; }
    assert Indexed(after.loans, after.activeLoan) by { hide Secured, DebtSound; }
    hide Secured, Indexed;
  }

  lemma ApproveKeepsLoansSound(cfg: Config, s: Storage, id: nat)
    requires LoansSound(s.lending) && ApproveLoan(cfg, s, id).Ok?
    ensures LoansSound(ApproveLoan(cfg, s, id).value.lending)
  {
    ActivationKeepsLoansSound(s.lending, id, s.lending.loans[id].(status := Active));
    hide Storage.Move, LoansSound;
  }

  lemma CancelKeepsLoansSound(s: Storage, borrower: Account, id: nat)
    requires LoansSound(s.lending) && CancelLoanRequest(s, borrower, id).Ok?
    ensures LoansSound(CancelLoanRequest(s, borrower, id).value.lending)
  {}

  lemma PayKeepsLoansSound(cfg: Config, s: Storage, master: Account, sub: Account, amount: nat)
    requires LoansSound(s.lending) && PayCredit(cfg, s, master, sub, amount).Ok?
    ensures LoansSound(PayCredit(cfg, s, master, sub, amount).value.lending)
  {
    var id := s.lending.activeLoan[master];
    AfterPaymentKeepsLoansSound(s.lending, master, id, SatSub(s.lending.loans[id].outstanding, amount));
    hide AfterPayment, LoansSound, Storage.Move;
  }

  lemma StepKeepsLoansSound(cfg: Config, s: Storage, now: nat, call: Call)
    requires LoansSound(s.lending)
    ensures LoansSound(Step(cfg, s, now, call).lending)
  {
    hide LoansSound, RequestLoan, ApproveLoan, CancelLoanRequest, PayCredit;
    if !TouchesLending(call) {
      Frame(cfg, s, now, call);
      hide Dispatch;
    } else if Dispatch(cfg, s, now, call).Ok? {
      match call
      case Request(who, amount, collateral) => RequestKeepsLoansSound(s, now, who, amount, collateral);
      case Approve(id) => ApproveKeepsLoansSound(cfg, s, id);
      case Cancel(who, id) => CancelKeepsLoansSound(s, who, id);
      case Pay(who, sub, amount) => PayKeepsLoansSound(cfg, s, who, sub, amount);
    }
  }

  lemma {:induction false} LoansStaySound(cfg: Config, s: Storage, calls: seq<Timed>)
    requires LoansSound(s.lending)
    ensures LoansSound(Run(cfg, s, calls).lending)
    decreases |calls|
  {
    if calls != [] {
      StepKeepsLoansSound(cfg, s, calls[0].now, calls[0].call);
      LoansStaySound(cfg, Step(cfg, s, calls[0].now, calls[0].call), calls[1..]);
    }
  }

  function StageOf(l: Loan): nat {
    match l.status
    case Pending => 0
    case Active => 1
    case Repaid => 2
    case Defaulted => 3
  }

  /** A loan keeps its terms, its status never goes back, its debt never grows, and a closed one is frozen. */
  predicate LoanAhead(l: Loan, m: Loan) {
    && m == l.(status := m.status, outstanding := m.outstanding)
    && StageOf(l) <= StageOf(m) && m.outstanding <= l.outstanding
    && (l.status == Repaid ==> m == l)
  }

  ghost predicate LoansAhead(book: Lending, after: Lending) {
    forall id :: id in book.loans ==> id in after.loans && LoanAhead(book.loans[id], after.loans[id])
  }

  /** What moves a loan on: approval, its borrower's cancellation while Pending, or its borrower's
      payment while Active. */
  ghost predicate LoansMovedBy(book: Lending, after: Lending, call: Call) {
    forall id :: id in book.loans && id in after.loans && after.loans[id].status != book.loans[id].status ==>
      var l, m := book.loans[id], after.loans[id];
      || (l.status == Pending && m.status == Active && call == Approve(id))
      || (l.status == Pending && m.status == Repaid && call == Cancel(l.borrower, id))
      || (l.status == Active && m.status == Repaid && call.Pay? && call.who == l.borrower)
  }

  /** One loan moves on, or a new one is added, and the others stand. */
  lemma OneLoanMoves(book: Lending, after: Lending, call: Call, id: nat, m: Loan)
    requires after.loans == book.loans[id := m]
    requires id in book.loans ==>
               && LoanAhead(book.loans[id], m)
               && var l := book.loans[id];
                  (l.status != m.status ==>
                     || (l.status == Pending && m.status == Active && call == Approve(id))
                     || (l.status == Pending && m.status == Repaid && call == Cancel(l.borrower, id))
                     || (l.status == Active && m.status == Repaid && call.Pay? && call.who == l.borrower))
    ensures LoansAhead(book, after) && LoansMovedBy(book, after, call)
  {}

  lemma StepMovesLoansAhead(cfg: Config, s: Storage, now: nat, call: Call)
    requires LoansSound(s.lending)
    ensures var t := Step(cfg, s, now, call); LoansAhead(s.lending, t.lending) && LoansMovedBy(s.lending, t.lending, call)
  {
    if TouchesLending(call) && Dispatch(cfg, s, now, call).Ok? {
      LendingCallMovesLoansAhead(cfg, s, now, call);
    } else {
      Frame(cfg, s, now, call);
      assert Dispatch(cfg, s, now, call).Err? ==> Step(cfg, s, now, call) == s;
    }
    hide Dispatch, Step, LoansSound;
  }

  lemma LendingCallMovesLoansAhead(cfg: Config, s: Storage, now: nat, call: Call)
    requires LoansSound(s.lending) && TouchesLending(call) && Dispatch(cfg, s, now, call).Ok?
    ensures var t := Step(cfg, s, now, call); LoansAhead(s.lending, t.lending) && LoansMovedBy(s.lending, t.lending, call)
  {
    hide Storage.Move, Secured, LoansAhead, LoansMovedBy;
    var book, after := s.lending, Step(cfg, s, now, call).lending;
    match call
    case Request(_, _, _) => OneLoanMoves(book, after, call, book.nextLoan, after.loans[book.nextLoan]);
    case Approve(id) => OneLoanMoves(book, after, call, id, after.loans[id]);
    case Cancel(_, id) => OneLoanMoves(book, after, call, id, after.loans[id]);
    case Pay(who, _, _) => OneLoanMoves(book, after, call, book.activeLoan[who], after.loans[book.activeLoan[who]]);
  }

  lemma LoansAheadTransitive(a: Lending, b: Lending, c: Lending)
    requires LoansAhead(a, b) && LoansAhead(b, c)
    ensures LoansAhead(a, c)
  {}

  /** Over any run loans only move from Pending to Active to Repaid, and none ends in default. */
  lemma {:induction false} LoansMoveForward(cfg: Config, s: Storage, calls: seq<Timed>)
    requires LoansSound(s.lending)
    ensures LoansAhead(s.lending, Run(cfg, s, calls).lending)
    ensures forall id :: id in Run(cfg, s, calls).lending.loans ==> Run(cfg, s, calls).lending.loans[id].status != Defaulted
    decreases |calls|
  {
    LoansStaySound(cfg, s, calls);
    if calls == [] {
      assert LoansAhead(s.lending, s.lending);
    } else {
      var t := Step(cfg, s, calls[0].now, calls[0].call);
      StepKeepsLoansSound(cfg, s, calls[0].now, calls[0].call);
      StepMovesLoansAhead(cfg, s, calls[0].now, calls[0].call);
      assert Run(cfg, s, calls) == Run(cfg, t, calls[1..]);
      hide Step, LoansSound, LoansAhead, Run;
      LoansMoveForward(cfg, t, calls[1..]);
      LoansAheadTransitive(s.lending, t.lending, Run(cfg, t, calls[1..]).lending);
    }
  }

  /** The linear scan the index replaced: the first Active loan of a borrower in storage order. */
  function Scan(order: seq<nat>, loans: map<nat, Loan>, b: Account): Option<nat>
    requires forall id :: id in order ==> id in loans
  {
    if order == [] then None
    else if loans[order[0]].borrower == b && loans[order[0]].status == Active then Some(order[0])
    else Scan(order[1..], loans, b)
  }

  function Lookup(index: map<Account, nat>, b: Account): Option<nat> {
    if b in index then Some(index[b]) else None
  }

  lemma {:induction false} ScanFindsAnActiveLoan(order: seq<nat>, loans: map<nat, Loan>, b: Account)
    requires forall id :: id in order ==> id in loans
    ensures match Scan(order, loans, b)
            case Some(id) => id in order && loans[id].borrower == b && loans[id].status == Active
            case None => forall id :: id in order ==> loans[id].borrower != b || loans[id].status != Active
  {
    if order != [] {
      ScanFindsAnActiveLoan(order[1..], loans, b);
    }
  }

  /** In every storage order the scan and the index give the same answer. */
  lemma IndexAgreesWithScan(order: seq<nat>, loans: map<nat, Loan>, index: map<Account, nat>, b: Account)
    requires IterationOrder(order, loans) && Indexed(loans, index)
    ensures Lookup(index, b) == Scan(order, loans, b)
  {
    ScanFindsAnActiveLoan(order, loans, b);
  }

  /** A payment from a Credit sub-account is refused for want of a loan exactly when the scan
      finds none: the defensive checks behind the index never fire. */
  lemma PaymentFindsTheDebt(cfg: Config, s: Storage, master: Account, sub: Account, amount: nat, order: seq<nat>)
    requires LoansSound(s.lending) && IterationOrder(order, s.lending.loans) && amount > 0
    requires OwnedSubAccount(s, master, sub).Ok? && s.accounts.subMeta[sub].kind == CreditLine
    ensures PayCredit(cfg, s, master, sub, amount) == Err(LoanNotFound)
            <==> Scan(order, s.lending.loans, master) == None
  {
    IndexAgreesWithScan(order, s.lending.loans, s.lending.activeLoan, master);
  }

  lemma FreshRecords(cfg: Config, ledger: Ledger)
    ensures Paired(cfg, Fresh(ledger).accounts) && LoansSound(Fresh(ledger).lending)
  {}
}
