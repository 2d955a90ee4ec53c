/** pallet-bank-of-siberia: master and keyless sub-accounts, collateral-backed loans with an
    O(1) index, and a treasury that pools escrows, time deposits, card collateral and advances.

    Every dispatchable is a function from storage to storage. `now` is the current block; signed
    origins are passed as the account that signed, privileged origins are already checked. */
module BankOfSiberia {
  import opened Prelude
  import opened Currency

  type Hash = nat
  type Signature = nat

  const ANNUAL_RATE_BPS := 500
  const BLOCKS_PER_YEAR := 5_256_000

  // ---------------------------------------------------------------- storage

  datatype AccountType = Savings | CreditLine | Company

  datatype SubRecord = SubRecord(master: Account, kind: AccountType, openedAt: nat)

  datatype LoanStatus = Pending | Active | Repaid | Defaulted

  datatype Loan = Loan(
    borrower: Account, collateral: nat, amount: nat, submittedAt: nat, status: LoanStatus, outstanding: nat)

  datatype EscrowStatus = Locked | Released | Refunded

  datatype Escrow = Escrow(
    depositor: Account, counterparty: Account, amount: nat, itemHash: Hash, createdAt: nat, status: EscrowStatus)

  datatype DepositStatus = Open | Claimed

  datatype Deposit = Deposit(
    depositor: Account, amount: nat, rateBps: nat, openedAt: nat, maturity: nat, documentHash: Hash,
    status: DepositStatus)

  /** The treasury movements a dispatch reports, with the nonce of a signed payout. */
  datatype Event =
    | TreasuryFunded(amount: nat)
    | LoanApproved(id: nat, amount: nat)
    | RepaymentApplied(id: nat, payment: nat)
    | EscrowReleased(id: nat)
    | EscrowRefunded(id: nat)
    | DepositClaimed(id: nat, interest: nat)
    | AdvanceClaimed(amount: nat, nonce: nat)
    | AdvanceRepaid(amount: nat)
    | CollateralUnlocked(amount: nat, nonce: nat)
    | WholesaleBorrowed(amount: nat)
    | WholesaleRepaid(amount: nat)
    | ForeignTransfer(from: Account, to: Account, amount: nat)

  /** Master accounts, and sub-accounts in a forward and a reverse view. */
  datatype Accounts = Accounts(
    masters: map<Account, nat>,
    subAccounts: map<(Account, Account), AccountType>,
    subMeta: map<Account, SubRecord>)

  /** The loan table, its active-loan index and its collateral map, and the one lock that all requests
      of a borrower share. */
  datatype Lending = Lending(
    loans: map<nat, Loan>, nextLoan: nat,
    activeLoan: map<Account, nat>,
    loanCollateral: map<(Account, nat), nat>,
    locks: map<Account, nat>)
  {
    function LockOf(a: Account): nat { if a in locks then locks[a] else 0 }
  }

  /** What the treasury holds for others, and the nonces already paid out. */
  datatype Custody = Custody(
    escrows: map<nat, Escrow>, nextEscrow: nat,
    deposits: map<nat, Deposit>, nextDeposit: nat,
    collaterals: map<Account, nat>,
    usedNonces: set<nat>)
  {
    function CollateralOf(a: Account): nat { if a in collaterals then collaterals[a] else 0 }
  }

  datatype Storage = Storage(
    accounts: Accounts, lending: Lending, custody: Custody, serverKey: Option<Account>,
    ledger: Ledger, events: seq<Event>)
  {
    /** What leaves an account must leave the amount under the lock behind. */
    predicate Unlocked(from: Account, amount: nat) { ledger.Free(from) >= amount + lending.LockOf(from) }

    /** `Currency::transfer`, as the loan lock restricts it. */
    function Move(from: Account, to: Account, amount: nat, e: Existence): Option<Ledger> {
      if amount != 0 && from != to && !Unlocked(from, amount) then None else ledger.Transfer(from, to, amount, e)
    }

    /** `Currency::withdraw`, likewise. */
    function Burn(from: Account, amount: nat): Option<Ledger> {
      if amount != 0 && !Unlocked(from, amount) then None else ledger.Burn(from, amount)
    }
  }

  /** `derive` hashes a master key and an account type into an address; `verify` checks the bank
      server's signature over (caller, amount, nonce). */
  datatype Config = Config(
    treasury: Account,
    derive: (Account, AccountType) -> Account,
    verify: (Account, Account, nat, nat, Signature) -> bool)

  datatype Error =
    | AccountAlreadyExists | MasterAccountRequired | DuplicateAccountType | SubAccountNotFound
    | NotSubAccountOwner | ZeroLoanAmount | ZeroEscrowAmount | SelfEscrow | ZeroAmount
    | EscrowNotFound | EscrowNotLocked | NotDepositor | NotCounterparty | LoanNotFound
    | LoanNotPending | BorrowerHasActiveLoan | ZeroDepositAmount | ZeroDepositDuration
    | DepositNotFound | DepositorMismatch | DepositNotMatured | DepositAlreadyClaimed
    | TreasuryInsufficientFunds | SubAccountNotEmpty | CitizenNotApproved | NonceAlreadyUsed
    | InvalidSignature | TransferFailed | CentralBankRefused

  // ---------------------------------------------------------------- interest

  /** `Perbill::from_rational`: parts per billion, rounded down, at most one. */
  function PartsPerBillion(n: nat, d: nat): nat
    requires d > 0
  {
    if n >= d then 1_000_000_000 else n * 1_000_000_000 / d
  }

  /** `Perbill * x`: rounded to nearest, ties down. */
  function TimesParts(parts: nat, x: nat): nat { (parts * x + 499_999_999) / 1_000_000_000 }

  function InterestOn(amount: nat, rateBps: nat, openedAt: nat, maturity: nat): nat {
    TimesParts(PartsPerBillion(rateBps * SatSub(maturity, openedAt), 10_000 * BLOCKS_PER_YEAR), amount)
  }

  // ---------------------------------------------------------------- accounts

  function OpenMasterAccount(s: Storage, now: nat, citizen: Account, approved: bool): Outcome<Storage, Error> {
    var _ :- Need(approved, CitizenNotApproved);
    var _ :- Need(citizen !in s.accounts.masters, AccountAlreadyExists);
    Ok(s.(accounts := s.accounts.(masters := s.accounts.masters[citizen := now])))
  }

  function OpenSubAccount(cfg: Config, s: Storage, now: nat, master: Account, kind: AccountType): Outcome<Storage, Error> {
    var _ :- Need(master in s.accounts.masters, MasterAccountRequired);
    var sub := cfg.derive(master, kind);
    var _ :- Need((master, sub) !in s.accounts.subAccounts, DuplicateAccountType);
    Ok(s.(accounts := s.accounts.(
            subAccounts := s.accounts.subAccounts[(master, sub) := kind],
            subMeta := s.accounts.subMeta[sub := SubRecord(master, kind, now)])))
  }

  function OwnedSubAccount(s: Storage, master: Account, sub: Account): Outcome<SubRecord, Error> {
    var _ :- Need(sub in s.accounts.subMeta, SubAccountNotFound);
    var _ :- Need(s.accounts.subMeta[sub].master == master, NotSubAccountOwner);
    Ok(s.accounts.subMeta[sub])
  }

  function DropSubAccount(a: Accounts, master: Account, sub: Account): Accounts {
    a.(subAccounts := a.subAccounts - {(master, sub)}, subMeta := a.subMeta - {sub})
  }

  /** A withdrawal of everything also forgets the sub-account. */
  function WithdrawFromSavings(s: Storage, master: Account, sub: Account, amount: nat): Outcome<Storage, Error> {
    var record :- OwnedSubAccount(s, master, sub);
    var _ :- Need(record.kind == Savings, NotSubAccountOwner);
    var _ :- Need(amount > 0, ZeroAmount);
    var ledger :- s.Move(sub, master, amount, AllowDeath).OrErr(TransferFailed);
    Ok(s.(ledger := ledger,
          accounts := if amount >= s.ledger.Free(sub) then DropSubAccount(s.accounts, master, sub) else s.accounts))
  }

  function CloseSubAccount(s: Storage, master: Account, sub: Account): Outcome<Storage, Error> {
    var _ :- OwnedSubAccount(s, master, sub);
    var _ :- Need(s.ledger.Free(sub) == 0, SubAccountNotEmpty);
    Ok(s.(accounts := DropSubAccount(s.accounts, master, sub)))
  }

  // ---------------------------------------------------------------- loans

  /** `set_lock`: replaces the amount held back, whatever it was; a zero amount is ignored. */
  function SetLock(locks: map<Account, nat>, who: Account, amount: nat): map<Account, nat> {
    if amount > 0 then locks[who := amount] else locks
  }

  function RequestLoan(s: Storage, now: nat, borrower: Account, amount: nat, collateral: nat): Outcome<Storage, Error> {
    var _ :- Need(borrower in s.accounts.masters, MasterAccountRequired);
    var _ :- Need(amount > 0, ZeroLoanAmount);
    var book := s.lending;
    Ok(s.(lending := book.(
            loans := book.loans[book.nextLoan := Loan(borrower, collateral, amount, now, Pending, amount)],
            nextLoan := book.nextLoan + 1,
            loanCollateral := book.loanCollateral[(borrower, book.nextLoan) := collateral],
            locks := SetLock(book.locks, borrower, collateral))))
  }

  function ApproveLoan(cfg: Config, s: Storage, id: nat): Outcome<Storage, Error> {
    var _ :- Need(id in s.lending.loans, LoanNotFound);
    var loan := s.lending.loans[id];
    var _ :- Need(loan.status == Pending, LoanNotPending);
    var _ :- Need(loan.borrower !in s.lending.activeLoan, BorrowerHasActiveLoan);
    var _ :- Need(s.ledger.Free(cfg.treasury) >= loan.amount, TreasuryInsufficientFunds);
    var ledger :- s.Move(cfg.treasury, loan.borrower, loan.amount, KeepAlive).OrErr(TransferFailed);
    Ok(s.(ledger := ledger,
          lending := s.lending.(
            loans := s.lending.loans[id := loan.(status := Active)],
            activeLoan := s.lending.activeLoan[loan.borrower := id]),
          events := s.events + [LoanApproved(id, loan.amount)]))
  }

  /** The whole payment is taken, even beyond the debt. */
  function PayCredit(cfg: Config, s: Storage, master: Account, sub: Account, amount: nat): Outcome<Storage, Error> {
    var record :- OwnedSubAccount(s, master, sub);
    var _ :- Need(record.kind == CreditLine, NotSubAccountOwner);
    var _ :- Need(amount > 0, ZeroAmount);
    var _ :- Need(master in s.lending.activeLoan, LoanNotFound);
    var id := s.lending.activeLoan[master];
    var _ :- Need(id in s.lending.loans, LoanNotFound);
    var loan := s.lending.loans[id];
    var _ :- Need(loan.status == Active, LoanNotFound);
    var ledger :- s.Move(master, cfg.treasury, amount, KeepAlive).OrErr(TransferFailed);
    var left := SatSub(loan.outstanding, amount);
    Ok(s.(ledger := ledger,
          lending := AfterPayment(s.lending, master, id, left),
          events := s.events + [RepaymentApplied(id, amount)]))
  }

  function AfterPayment(book: Lending, master: Account, id: nat, left: nat): Lending
    requires id in book.loans
  {
    var loans := book.loans[id := book.loans[id].(outstanding := left, status := if left == 0 then Repaid else Active)];
    if left > 0 then book.(loans := loans)
    else book.(loans := loans,
               loanCollateral := book.loanCollateral - {(master, id)},
               activeLoan := book.activeLoan - {master},
               locks := book.locks - {master})
  }

  function CancelLoanRequest(s: Storage, borrower: Account, id: nat): Outcome<Storage, Error> {
    var _ :- Need(id in s.lending.loans, LoanNotFound);
    var loan := s.lending.loans[id];
    var _ :- Need(loan.borrower == borrower, NotSubAccountOwner);
    var _ :- Need(loan.status == Pending, LoanNotPending);
    Ok(s.(lending := s.lending.(
            loans := s.lending.loans[id := loan.(status := Repaid)],
            loanCollateral := s.lending.loanCollateral - {(borrower, id)},
            locks := s.lending.locks - {borrower})))
  }

  // ---------------------------------------------------------------- escrow

  function CreateEscrow(cfg: Config, s: Storage, now: nat, depositor: Account, counterparty: Account, amount: nat,
                        itemHash: Hash): Outcome<Storage, Error> {
    var _ :- Need(depositor in s.accounts.masters, MasterAccountRequired);
    var _ :- Need(amount > 0, ZeroEscrowAmount);
    var _ :- Need(depositor != counterparty, SelfEscrow);
    var ledger :- s.Move(depositor, cfg.treasury, amount, AllowDeath).OrErr(TransferFailed);
    Ok(s.(ledger := ledger,
          custody := s.custody.(
            escrows := s.custody.escrows[s.custody.nextEscrow :=
              Escrow(depositor, counterparty, amount, itemHash, now, Locked)],
            nextEscrow := s.custody.nextEscrow + 1)))
  }

  function ReleaseEscrow(cfg: Config, s: Storage, caller: Account, id: nat): Outcome<Storage, Error> {
    var _ :- Need(id in s.custody.escrows, EscrowNotFound);
    var e := s.custody.escrows[id];
    var _ :- Need(e.depositor == caller, NotDepositor);
    var _ :- Need(e.status == Locked, EscrowNotLocked);
    var ledger :- s.Move(cfg.treasury, e.counterparty, e.amount, AllowDeath).OrErr(TransferFailed);
    Ok(s.(ledger := ledger, custody := s.custody.(escrows := s.custody.escrows[id := e.(status := Released)]),
          events := s.events + [EscrowReleased(id)]))
  }

  function RefundEscrow(cfg: Config, s: Storage, caller: Account, id: nat): Outcome<Storage, Error> {
    var _ :- Need(id in s.custody.escrows, EscrowNotFound);
    var e := s.custody.escrows[id];
    var _ :- Need(e.counterparty == caller, NotCounterparty);
    var _ :- Need(e.status == Locked, EscrowNotLocked);
    var ledger :- s.Move(cfg.treasury, e.depositor, e.amount, AllowDeath).OrErr(TransferFailed);
    Ok(s.(ledger := ledger, custody := s.custody.(escrows := s.custody.escrows[id := e.(status := Refunded)]),
          events := s.events + [EscrowRefunded(id)]))
  }

  // ---------------------------------------------------------------- time deposits

  function OpenTimeDeposit(cfg: Config, s: Storage, now: nat, depositor: Account, amount: nat, duration: nat,
                           documentHash: Hash): Outcome<Storage, Error> {
    var _ :- Need(depositor in s.accounts.masters, MasterAccountRequired);
    var _ :- Need(amount > 0, ZeroDepositAmount);
    var _ :- Need(duration > 0, ZeroDepositDuration);
    var maturity := Min(now + duration, U32_MAX);
    var ledger :- s.Move(depositor, cfg.treasury, amount, AllowDeath).OrErr(TransferFailed);
    Ok(s.(ledger := ledger,
          custody := s.custody.(
            deposits := s.custody.deposits[s.custody.nextDeposit :=
              Deposit(depositor, amount, ANNUAL_RATE_BPS, now, maturity, documentHash, Open)],
            nextDeposit := s.custody.nextDeposit + 1)))
  }

  function ClaimTimeDeposit(cfg: Config, s: Storage, now: nat, caller: Account, id: nat): Outcome<Storage, Error> {
    var _ :- Need(id in s.custody.deposits, DepositNotFound);
    var d := s.custody.deposits[id];
    var _ :- Need(d.depositor == caller, DepositorMismatch);
    var _ :- Need(d.status == Open, DepositAlreadyClaimed);
    var _ :- Need(now >= d.maturity, DepositNotMatured);
    var interest := InterestOn(d.amount, d.rateBps, d.openedAt, d.maturity);
    var _ :- Need(s.ledger.Free(cfg.treasury) >= d.amount + interest, TreasuryInsufficientFunds);
    var ledger :- s.Move(cfg.treasury, caller, d.amount + interest, AllowDeath).OrErr(TransferFailed);
    Ok(s.(ledger := ledger, custody := s.custody.(deposits := s.custody.deposits[id := d.(status := Claimed)]),
          events := s.events + [DepositClaimed(id, interest)]))
  }

  // ---------------------------------------------------------------- treasury, cards, advances

  function FundTreasury(cfg: Config, s: Storage, who: Account, amount: nat): Outcome<Storage, Error> {
    var _ :- Need(amount > 0, ZeroAmount);
    var ledger :- s.Move(who, cfg.treasury, amount, KeepAlive).OrErr(TransferFailed);
    Ok(s.(ledger := ledger, events := s.events + [TreasuryFunded(amount)]))
  }

  function LockCollateral(cfg: Config, s: Storage, caller: Account, amount: nat): Outcome<Storage, Error> {
    var _ :- Need(amount > 0, ZeroAmount);
    var ledger :- s.Move(caller, cfg.treasury, amount, KeepAlive).OrErr(TransferFailed);
    Ok(s.(ledger := ledger,
          custody := s.custody.(
            collaterals := s.custody.collaterals[caller := s.custody.CollateralOf(caller) + amount])))
  }

  /** A payout the bank server signed for this caller, amount and nonce. */
  function Authorised(cfg: Config, s: Storage, caller: Account, amount: nat, nonce: nat, signature: Signature): Outcome<(), Error> {
    var _ :- Need(nonce !in s.custody.usedNonces, NonceAlreadyUsed);
    var key :- s.serverKey.OrErr(InvalidSignature);
    Need(cfg.verify(key, caller, amount, nonce, signature), InvalidSignature)
  }

  function UnlockCollateral(cfg: Config, s: Storage, caller: Account, amount: nat, nonce: nat, signature: Signature): Outcome<Storage, Error> {
    var _ :- Need(amount > 0, ZeroAmount);
    var _ :- Authorised(cfg, s, caller, amount, nonce, signature);
    var _ :- Need(s.custody.CollateralOf(caller) >= amount, ZeroAmount);
    var ledger :- s.Move(cfg.treasury, caller, amount, KeepAlive).OrErr(TransferFailed);
    Ok(s.(ledger := ledger,
          custody := s.custody.(
            usedNonces := s.custody.usedNonces + {nonce},
            collaterals := s.custody.collaterals[caller := s.custody.CollateralOf(caller) - amount]),
          events := s.events + [CollateralUnlocked(amount, nonce)]))
  }

  function ClaimCashAdvance(cfg: Config, s: Storage, who: Account, amount: nat, nonce: nat, signature: Signature): Outcome<Storage, Error> {
    var _ :- Authorised(cfg, s, who, amount, nonce, signature);
    var ledger :- s.Move(cfg.treasury, who, amount, KeepAlive).OrErr(TransferFailed);
    Ok(s.(ledger := ledger, custody := s.custody.(usedNonces := s.custody.usedNonces + {nonce}),
          events := s.events + [AdvanceClaimed(amount, nonce)]))
  }

  function RepayCashAdvance(cfg: Config, s: Storage, who: Account, amount: nat): Outcome<Storage, Error> {
    var _ :- Need(amount > 0, ZeroAmount);
    var ledger :- s.Move(who, cfg.treasury, amount, KeepAlive).OrErr(TransferFailed);
    Ok(s.(ledger := ledger, events := s.events + [AdvanceRepaid(amount)]))
  }

  /** The central bank decides; a granted amount is minted to the treasury. */
  function BorrowWholesale(cfg: Config, s: Storage, amount: nat, granted: bool): Outcome<Storage, Error> {
    var _ :- Need(granted && s.ledger.Lands(cfg.treasury, amount), CentralBankRefused);
    Ok(s.(ledger := s.ledger.DepositCreating(cfg.treasury, amount), events := s.events + [WholesaleBorrowed(amount)]))
  }

  /** The central bank decides; an accepted amount is burned from the treasury. */
  function RepayWholesale(cfg: Config, s: Storage, amount: nat, accepted: bool): Outcome<Storage, Error> {
    var _ :- Need(accepted, CentralBankRefused);
    var ledger :- s.Burn(cfg.treasury, amount).OrErr(CentralBankRefused);
    Ok(s.(ledger := ledger, events := s.events + [WholesaleRepaid(amount)]))
  }

  /** A transfer made by any other pallet on the shared currency. */
  function TransferByOthers(s: Storage, from: Account, to: Account, amount: nat): Outcome<Storage, Error> {
    var ledger :- s.Move(from, to, amount, AllowDeath).OrErr(TransferFailed);
    Ok(s.(ledger := ledger, events := s.events + [ForeignTransfer(from, to, amount)]))
  }

  // ---------------------------------------------------------------- runs

  datatype Call =
    | OpenMaster(who: Account, approved: bool)
    | OpenSub(who: Account, kind: AccountType)
    | Withdraw(who: Account, sub: Account, amount: nat)
    | Pay(who: Account, sub: Account, amount: nat)
    | CloseSub(who: Account, sub: Account)
    | Request(who: Account, amount: nat, collateral: nat)
    | Approve(id: nat)
    | Cancel(who: Account, id: nat)
    | Fund(who: Account, amount: nat)
    | Escrowed(who: Account, counterparty: Account, amount: nat, itemHash: Hash)
    | Release(who: Account, id: nat)
    | Refund(who: Account, id: nat)
    | OpenDeposit(who: Account, amount: nat, duration: nat, documentHash: Hash)
    | Claim(who: Account, id: nat)
    | SetServerKey(key: Account)
    | Lock(who: Account, amount: nat)
    | Unlock(who: Account, amount: nat, nonce: nat, signature: Signature)
    | Advance(who: Account, amount: nat, nonce: nat, signature: Signature)
    | RepayAdvance(who: Account, amount: nat)
    | Borrow(amount: nat, granted: bool)
    | RepayCentral(amount: nat, accepted: bool)
    | Foreign(from: Account, to: Account, amount: nat)

  datatype Timed = At(now: nat, call: Call)

  function Dispatch(cfg: Config, s: Storage, now: nat, call: Call): Outcome<Storage, Error> {
    match call
    case OpenMaster(who, approved) => OpenMasterAccount(s, now, who, approved)
    case OpenSub(who, kind) => OpenSubAccount(cfg, s, now, who, kind)
    case Withdraw(who, sub, amount) => WithdrawFromSavings(s, who, sub, amount)
    case Pay(who, sub, amount) => PayCredit(cfg, s, who, sub, amount)
    case CloseSub(who, sub) => CloseSubAccount(s, who, sub)
    case Request(who, amount, collateral) => RequestLoan(s, now, who, amount, collateral)
    case Approve(id) => ApproveLoan(cfg, s, id)
    case Cancel(who, id) => CancelLoanRequest(s, who, id)
    case Fund(who, amount) => FundTreasury(cfg, s, who, amount)
    case Escrowed(who, counterparty, amount, itemHash) => CreateEscrow(cfg, s, now, who, counterparty, amount, itemHash)
    case Release(who, id) => ReleaseEscrow(cfg, s, who, id)
    case Refund(who, id) => RefundEscrow(cfg, s, who, id)
    case OpenDeposit(who, amount, duration, documentHash) =>
      OpenTimeDeposit(cfg, s, now, who, amount, duration, documentHash)
    case Claim(who, id) => ClaimTimeDeposit(cfg, s, now, who, id)
    case SetServerKey(key) => Ok(s.(serverKey := Some(key)))
    case Lock(who, amount) => LockCollateral(cfg, s, who, amount)
    case Unlock(who, amount, nonce, signature) => UnlockCollateral(cfg, s, who, amount, nonce, signature)
    case Advance(who, amount, nonce, signature) => ClaimCashAdvance(cfg, s, who, amount, nonce, signature)
    case RepayAdvance(who, amount) => RepayCashAdvance(cfg, s, who, amount)
    case Borrow(amount, granted) => BorrowWholesale(cfg, s, amount, granted)
    case RepayCentral(amount, accepted) => RepayWholesale(cfg, s, amount, accepted)
    case Foreign(from, to, amount) => TransferByOthers(s, from, to, amount)
  }

  function Step(cfg: Config, s: Storage, now: nat, call: Call): Storage {
    match Dispatch(cfg, s, now, call)
    case Ok(t) => t
    case Err(_) => s
  }

  function Run(cfg: Config, s: Storage, calls: seq<Timed>): Storage
    decreases |calls|
  {
    if calls == [] then s else Run(cfg, Step(cfg, s, calls[0].now, calls[0].call), calls[1..])
  }

  function Fresh(ledger: Ledger): Storage {
    Storage(Accounts(map[], map[], map[]), Lending(map[], 0, map[], map[], map[]),
            Custody(map[], 0, map[], 0, map[], {}), None, ledger, [])
  }

  // ---------------------------------------------------------------- totals over events

  datatype Measure =
    | TreasuryFlow(treasury: Account)
    | Wholesale
    | Disbursed(loan: nat)
    | Collected(loan: nat)
    | Settlements(escrow: nat)
    | Claims(deposit: nat)
    | Payouts(nonce: nat)

  function Reading(m: Measure, e: Event): int {
    match m
    case TreasuryFlow(treasury) => (
      match e
      case TreasuryFunded(amount) => amount
      case LoanApproved(_, amount) => 0 - amount
      case RepaymentApplied(_, payment) => payment
      case EscrowReleased(_) => 0
      case EscrowRefunded(_) => 0
      case DepositClaimed(_, interest) => 0 - interest
      case AdvanceClaimed(amount, _) => 0 - amount
      case AdvanceRepaid(amount) => amount
      case CollateralUnlocked(_, _) => 0
      case WholesaleBorrowed(amount) => amount
      case WholesaleRepaid(amount) => 0 - amount
      case ForeignTransfer(from, to, amount) =>
        (if to == treasury then amount else 0) - (if from == treasury then amount else 0))
    case Wholesale =>
      if e.WholesaleBorrowed? then e.amount else if e.WholesaleRepaid? then 0 - e.amount else 0
    case Disbursed(loan) => if e.LoanApproved? && e.id == loan then e.amount else 0
    case Collected(loan) => if e.RepaymentApplied? && e.id == loan then e.payment else 0
    case Settlements(escrow) => if (e.EscrowReleased? || e.EscrowRefunded?) && e.id == escrow then 1 else 0
    case Claims(deposit) => if e.DepositClaimed? && e.id == deposit then 1 else 0
    case Payouts(nonce) => if (e.AdvanceClaimed? || e.CollateralUnlocked?) && e.nonce == nonce then 1 else 0
  }

  function Total(m: Measure, events: seq<Event>): int {
    if events == [] then 0 else Total(m, events[..|events| - 1]) + Reading(m, events[|events| - 1])
  }

  lemma TotalAppend(m: Measure, events: seq<Event>, e: Event)
    ensures Total(m, events + [e]) == Total(m, events) + Reading(m, e)
  {
    assert (events + [e])[..|events|] == events;
  }
}
