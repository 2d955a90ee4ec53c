/** The dispatchables of pallet-bank-of-siberia as they run: storage items are updated one by one,
    and a failing call leaves none of its writes behind. Each is proved equal to its
    specification in `BankOfSiberia`. */
module BankOfSiberiaPallet {
  import opened Prelude
  import opened Currency
  import opened Sums
  import opened Records = BankOfSiberiaRecords
  import opened Migration = LoanIndexMigration
  import opened Treasury = BankOfSiberiaTreasury
  import opened M = BankOfSiberia

  class Pallet {
    const cfg: Config
    var masters: map<Account, nat>
    var subAccounts: map<(Account, Account), AccountType>
    var subMeta: map<Account, SubRecord>
    var loans: map<nat, Loan>
    var nextLoan: nat
    var activeLoan: map<Account, nat>
    var loanCollateral: map<(Account, nat), nat>
    var locks: map<Account, nat>
    var escrows: map<nat, Escrow>
    var nextEscrow: nat
    var deposits: map<nat, Deposit>
    var nextDeposit: nat
    var collaterals: map<Account, nat>
    var usedNonces: set<nat>
    var serverKey: Option<Account>
    var ledger: Ledger
    ghost var events: seq<Event>

    ghost function Contents(): Storage
      reads this
    {
      Storage(Accounts(masters, subAccounts, subMeta),
              Lending(loans, nextLoan, activeLoan, loanCollateral, locks),
              Custody(escrows, nextEscrow, deposits, nextDeposit, collaterals, usedNonces),
              serverKey, ledger, events)
    }

    constructor (cfg: Config, ledger: Ledger)
      ensures this.cfg == cfg && Contents() == Fresh(ledger)
    {
      this.cfg := cfg;
      this.ledger := ledger;
      masters, subAccounts, subMeta := map[], map[], map[];
      loans, nextLoan, activeLoan, loanCollateral, locks := map[], 0, map[], map[], map[];
      escrows, nextEscrow, deposits, nextDeposit := map[], 0, map[], 0;
      collaterals, usedNonces, serverKey, events := map[], {}, None, [];
    }

    /** The shared currency as the pallet calls it: an account cannot send what its loan lock holds back. */
    function Move(from: Account, to: Account, amount: nat, e: Existence): (moved: Option<Ledger>)
      reads this
      ensures moved == Contents().Move(from, to, amount, e)
    {
      var held := if from in locks then locks[from] else 0;
      if amount != 0 && from != to && ledger.Free(from) < amount + held then None
      else ledger.Transfer(from, to, amount, e)
    }

    // -------------------------------------------------------------- accounts

    method OpenMasterAccount(now: nat, citizen: Account, approved: bool) returns (r: Outcome<(), Error>)
      modifies this
      ensures Atomic(M.OpenMasterAccount(old(Contents()), now, citizen, approved), old(Contents()), Contents(), r)
    {
      if !approved { return Err(CitizenNotApproved); }
      if citizen in masters { return Err(AccountAlreadyExists); }
      masters := masters[citizen := now];
      r := Ok(());
    }

    method OpenSubAccount(now: nat, master: Account, kind: AccountType) returns (r: Outcome<(), Error>)
      modifies this
      ensures Atomic(M.OpenSubAccount(cfg, old(Contents()), now, master, kind), old(Contents()), Contents(), r)
    {
      if master !in masters { return Err(MasterAccountRequired); }
      var sub := cfg.derive(master, kind);
      if (master, sub) in subAccounts { return Err(DuplicateAccountType); }
      subAccounts := subAccounts[(master, sub) := kind];
      subMeta := subMeta[sub := SubRecord(master, kind, now)];
      r := Ok(());
    }

    /** The owner check of every sub-account call. While the two views are paired it passes exactly for
        the pairs of the forward view, with the type recorded there. */
    method EnsureOwner(master: Account, sub: Account) returns (r: Outcome<SubRecord, Error>)
      ensures r == OwnedSubAccount(Contents(), master, sub)
      ensures Paired(cfg, Contents().accounts) ==> (r.Ok? <==> (master, sub) in subAccounts)
      ensures Paired(cfg, Contents().accounts) && r.Ok? ==>
                r.value.kind == subAccounts[(master, sub)] && sub == cfg.derive(master, r.value.kind)
    {
      if Paired(cfg, Contents().accounts) { OwnedExactly(cfg, Contents(), master, sub); }
      hide Paired;
      if sub !in subMeta { return Err(SubAccountNotFound); }
      if subMeta[sub].master != master { return Err(NotSubAccountOwner); }
      r := Ok(subMeta[sub]);
    }

    method WithdrawFromSavings(master: Account, sub: Account, amount: nat) returns (r: Outcome<(), Error>)
      modifies this
      ensures Atomic(M.WithdrawFromSavings(old(Contents()), master, sub, amount), old(Contents()), Contents(), r)
    {
      hide Storage.Move, Paired;
      var owned := EnsureOwner(master, sub);
      if owned.Err? { return Err(owned.error); }
      if owned.value.kind != Savings { return Err(NotSubAccountOwner); }
      if amount == 0 { return Err(ZeroAmount); }
      var subAccountsBefore, subMetaBefore := subAccounts, subMeta;
      if amount >= ledger.Free(sub) {
        subAccounts := subAccounts - {(master, sub)};
        subMeta := subMeta - {sub};
      }
      MoveReadsLocks(old(Contents()), Contents(), sub, master, amount, AllowDeath);
      var moved := Move(sub, master, amount, AllowDeath);
      if moved.None? {
        subAccounts, subMeta := subAccountsBefore, subMetaBefore;
        return Err(TransferFailed);
      }
      ledger := moved.value;
      r := Ok(());
    }

    method CloseSubAccount(master: Account, sub: Account) returns (r: Outcome<(), Error>)
      modifies this
      ensures Atomic(M.CloseSubAccount(old(Contents()), master, sub), old(Contents()), Contents(), r)
    {
      var owned := EnsureOwner(master, sub);
      if owned.Err? { return Err(owned.error); }
      if ledger.Free(sub) != 0 { return Err(SubAccountNotEmpty); }
      subAccounts := subAccounts - {(master, sub)};
      subMeta := subMeta - {sub};
      r := Ok(());
    }

    // -------------------------------------------------------------- loans

    method RequestLoan(now: nat, borrower: Account, amount: nat, collateral: nat) returns (r: Outcome<(), Error>)
      modifies this
      ensures Atomic(M.RequestLoan(old(Contents()), now, borrower, amount, collateral), old(Contents()), Contents(), r)
    {
      if borrower !in masters { return Err(MasterAccountRequired); }
      if amount == 0 { return Err(ZeroLoanAmount); }
      var id := nextLoan;
      nextLoan := id + 1;
      Secure(borrower, id, collateral);
      loans := loans[id := Loan(borrower, collateral, amount, now, Pending, amount)];
      r := Ok(());
    }

    /** Lock the collateral and record it for its loan. */
    method Secure(borrower: Account, id: nat, collateral: nat)
      modifies this`locks, this`loanCollateral
      ensures var book := old(Contents()).lending;
              Contents() == old(Contents()).(lending := book.(
                locks := SetLock(book.locks, borrower, collateral),
                loanCollateral := book.loanCollateral[(borrower, id) := collateral]))
    {
      if collateral > 0 {
        locks := locks[borrower := collateral];
      }
      loanCollateral := loanCollateral[(borrower, id) := collateral];
    }

    method ApproveLoan(id: nat) returns (r: Outcome<(), Error>)
      modifies this
      ensures Atomic(M.ApproveLoan(cfg, old(Contents()), id), old(Contents()), Contents(), r)
    {
      hide Storage.Move;
      if id !in loans { return Err(LoanNotFound); }
      var loan := loans[id];
      if loan.status != Pending { return Err(LoanNotPending); }
      if loan.borrower in activeLoan { return Err(BorrowerHasActiveLoan); }
      if ledger.Free(cfg.treasury) < loan.amount { return Err(TreasuryInsufficientFunds); }
      var moved := Move(cfg.treasury, loan.borrower, loan.amount, KeepAlive);
      if moved.None? { return Err(TransferFailed); }
      ledger := moved.value;
      Activate(id);
      events := events + [LoanApproved(id, loan.amount)];
      r := Ok(());
    }

    method Activate(id: nat)
      requires id in loans
      modifies this`loans, this`activeLoan
      ensures var book := old(Contents()).lending;
              Contents() == old(Contents()).(lending := book.(
                loans := book.loans[id := book.loans[id].(status := Active)],
                activeLoan := book.activeLoan[book.loans[id].borrower := id]))
    {
      var loan := loans[id].(status := Active);
      loans := loans[id := loan];
      activeLoan := activeLoan[loan.borrower := id];
    }

    method PayCredit(master: Account, sub: Account, amount: nat) returns (r: Outcome<(), Error>)
      modifies this
      ensures Atomic(M.PayCredit(cfg, old(Contents()), master, sub, amount), old(Contents()), Contents(), r)
    {
      hide Storage.Move, Paired;
      var owned := EnsureOwner(master, sub);
      if owned.Err? { return Err(owned.error); }
      if owned.value.kind != CreditLine { return Err(NotSubAccountOwner); }
      if amount == 0 { return Err(ZeroAmount); }
      if master !in activeLoan { return Err(LoanNotFound); }
      var id := activeLoan[master];
      if id !in loans { return Err(LoanNotFound); }
      var loan := loans[id];
      if loan.status != Active { return Err(LoanNotFound); }
      var moved := Move(master, cfg.treasury, amount, KeepAlive);
      if moved.None? { return Err(TransferFailed); }
      ledger := moved.value;
      ApplyPayment(master, id, SatSub(loan.outstanding, amount));
      events := events + [RepaymentApplied(id, amount)];
      r := Ok(());
    }

    /** Lower the debt; a loan paid off lifts the lock and leaves the index and the collateral map. */
    method ApplyPayment(master: Account, id: nat, newOutstanding: nat)
      requires id in loans && loans[id].status == Active
      modifies this
      ensures Contents() == old(Contents()).(lending := AfterPayment(old(Contents().lending), master, id, newOutstanding))
    {
      var loan := loans[id].(outstanding := newOutstanding);
      if newOutstanding == 0 {
        loan := loan.(status := Repaid);
        locks := locks - {master};
        loanCollateral := loanCollateral - {(master, id)};
        activeLoan := activeLoan - {master};
      }
      loans := loans[id := loan];
    }

    method CancelLoanRequest(borrower: Account, id: nat) returns (r: Outcome<(), Error>)
      modifies this
      ensures Atomic(M.CancelLoanRequest(old(Contents()), borrower, id), old(Contents()), Contents(), r)
    {
      if id !in loans { return Err(LoanNotFound); }
      var loan := loans[id];
      if loan.borrower != borrower { return Err(NotSubAccountOwner); }
      if loan.status != Pending { return Err(LoanNotPending); }
      locks := locks - {borrower};
      loanCollateral := loanCollateral - {(borrower, id)};
      loan := loan.(status := Repaid);
      loans := loans[id := loan];
      r := Ok(());
    }

    // -------------------------------------------------------------- the index migration

    /** The upgrade loop over the loan table, in whatever order the storage yields. */
    method BackfillActiveLoanIndex(order: seq<nat>)
      requires IterationOrder(order, loans)
      modifies this`activeLoan
      ensures activeLoan == Backfill(order, loans, old(activeLoan))
    {
      for i := 0 to |order|
        invariant Backfill(order[i..], loans, activeLoan) == Backfill(order, loans, old(activeLoan))
      {
        var id := order[i];
        var loan := loans[id];
        assert order[i..][1..] == order[i + 1..];
        if loan.status == Active {
          if loan.borrower !in activeLoan {
            activeLoan := activeLoan[loan.borrower := id];
          }
        }
      }
    }

    /** `pre_upgrade`: how many loans are Active. */
    method CountActiveLoans(order: seq<nat>) returns (count: nat)
      requires IterationOrder(order, loans)
      ensures count == |ActiveLoans(loans)|
    {
      count := 0;
      ghost var seen: set<nat> := {};
      for i := 0 to |order|
        invariant seen == set id | id in order[..i] && loans[id].status == Active
        invariant count == |seen|
      {
        assert order[..i + 1] == order[..i] + [order[i]];
        if loans[order[i]].status == Active {
          count := count + 1;
          seen := seen + {order[i]};
        }
      }
      assert seen == ActiveLoans(loans);
    }

    // -------------------------------------------------------------- escrow

    method CreateEscrow(now: nat, depositor: Account, counterparty: Account, amount: nat, itemHash: Hash)
      returns (r: Outcome<(), Error>)
      modifies this
      ensures Atomic(M.CreateEscrow(cfg, old(Contents()), now, depositor, counterparty, amount, itemHash),
                     old(Contents()), Contents(), r)
    {
      if depositor !in masters { return Err(MasterAccountRequired); }
      if amount == 0 { return Err(ZeroEscrowAmount); }
      if depositor == counterparty { return Err(SelfEscrow); }
      var moved := Move(depositor, cfg.treasury, amount, AllowDeath);
      if moved.None? { return Err(TransferFailed); }
      ledger := moved.value;
      var id := nextEscrow;
      nextEscrow := id + 1;
      escrows := escrows[id := Escrow(depositor, counterparty, amount, itemHash, now, Locked)];
      r := Ok(());
    }

    method ReleaseEscrow(caller: Account, id: nat) returns (r: Outcome<(), Error>)
      modifies this
      ensures Atomic(M.ReleaseEscrow(cfg, old(Contents()), caller, id), old(Contents()), Contents(), r)
    {
      if id !in escrows { return Err(EscrowNotFound); }
      var contract := escrows[id];
      if contract.depositor != caller { return Err(NotDepositor); }
      if contract.status != Locked { return Err(EscrowNotLocked); }
      var moved := Move(cfg.treasury, contract.counterparty, contract.amount, AllowDeath);
      if moved.None? { return Err(TransferFailed); }
      ledger := moved.value;
      contract := contract.(status := Released);
      escrows := escrows[id := contract];
      events := events + [EscrowReleased(id)];
      r := Ok(());
    }

    method RefundEscrow(caller: Account, id: nat) returns (r: Outcome<(), Error>)
      modifies this
      ensures Atomic(M.RefundEscrow(cfg, old(Contents()), caller, id), old(Contents()), Contents(), r)
    {
      if id !in escrows { return Err(EscrowNotFound); }
      var contract := escrows[id];
      if contract.counterparty != caller { return Err(NotCounterparty); }
      if contract.status != Locked { return Err(EscrowNotLocked); }
      var moved := Move(cfg.treasury, contract.depositor, contract.amount, AllowDeath);
      if moved.None? { return Err(TransferFailed); }
      ledger := moved.value;
      contract := contract.(status := Refunded);
      escrows := escrows[id := contract];
      events := events + [EscrowRefunded(id)];
      r := Ok(());
    }

    // -------------------------------------------------------------- time deposits

    method OpenTimeDeposit(now: nat, depositor: Account, amount: nat, duration: nat, documentHash: Hash)
      returns (r: Outcome<(), Error>)
      modifies this
      ensures Atomic(M.OpenTimeDeposit(cfg, old(Contents()), now, depositor, amount, duration, documentHash),
                     old(Contents()), Contents(), r)
    {
      if depositor !in masters { return Err(MasterAccountRequired); }
      if amount == 0 { return Err(ZeroDepositAmount); }
      if duration == 0 { return Err(ZeroDepositDuration); }
      var maturity := Min(now + duration, U32_MAX);
      var moved := Move(depositor, cfg.treasury, amount, AllowDeath);
      if moved.None? { return Err(TransferFailed); }
      ledger := moved.value;
      var id := nextDeposit;
      nextDeposit := id + 1;
      deposits := deposits[id := Deposit(depositor, amount, ANNUAL_RATE_BPS, now, maturity, documentHash, DepositStatus.Open)];
      r := Ok(());
    }

    method ClaimTimeDeposit(now: nat, caller: Account, id: nat) returns (r: Outcome<(), Error>)
      modifies this
      ensures Atomic(M.ClaimTimeDeposit(cfg, old(Contents()), now, caller, id), old(Contents()), Contents(), r)
    {
      if id !in deposits { return Err(DepositNotFound); }
      var deposit := deposits[id];
      if deposit.depositor != caller { return Err(DepositorMismatch); }
      if deposit.status != DepositStatus.Open { return Err(DepositAlreadyClaimed); }
      if now < deposit.maturity { return Err(DepositNotMatured); }
      var interest := InterestOn(deposit.amount, deposit.rateBps, deposit.openedAt, deposit.maturity);
      var total := deposit.amount + interest;
      hide InterestOn;
      if ledger.Free(cfg.treasury) < total { return Err(TreasuryInsufficientFunds); }
      var moved := Move(cfg.treasury, caller, total, AllowDeath);
      if moved.None? { return Err(TransferFailed); }
      ledger := moved.value;
      deposit := deposit.(status := Claimed);
      deposits := deposits[id := deposit];
      events := events + [DepositClaimed(id, interest)];
      r := Ok(());
    }

    // -------------------------------------------------------------- treasury, cards, advances

    method FundTreasury(who: Account, amount: nat) returns (r: Outcome<(), Error>)
      modifies this
      ensures Atomic(M.FundTreasury(cfg, old(Contents()), who, amount), old(Contents()), Contents(), r)
    {
      if amount == 0 { return Err(ZeroAmount); }
      var moved := Move(who, cfg.treasury, amount, KeepAlive);
      if moved.None? { return Err(TransferFailed); }
      ledger := moved.value;
      events := events + [TreasuryFunded(amount)];
      r := Ok(());
    }

    method SetBankServerKey(key: Account)
      modifies this
      ensures Contents() == old(Contents()).(serverKey := Some(key))
    {
      serverKey := Some(key);
    }

    method LockCollateral(caller: Account, amount: nat) returns (r: Outcome<(), Error>)
      modifies this
      ensures Atomic(M.LockCollateral(cfg, old(Contents()), caller, amount), old(Contents()), Contents(), r)
    {
      if amount == 0 { return Err(ZeroAmount); }
      var moved := Move(caller, cfg.treasury, amount, KeepAlive);
      if moved.None? { return Err(TransferFailed); }
      ledger := moved.value;
      var newBalance := (if caller in collaterals then collaterals[caller] else 0) + amount;
      collaterals := collaterals[caller := newBalance];
      r := Ok(());
    }

    /** The bank server's word for a payout, good once: the nonce is fresh and the signature verifies. */
    method Authorise(caller: Account, amount: nat, nonce: nat, signature: Signature) returns (r: Outcome<(), Error>)
      ensures r == Authorised(cfg, Contents(), caller, amount, nonce, signature)
      ensures r.Ok? <==> nonce !in usedNonces && serverKey.Some? && cfg.verify(serverKey.value, caller, amount, nonce, signature)
    {
      if nonce in usedNonces { return Err(NonceAlreadyUsed); }
      if serverKey.None? { return Err(InvalidSignature); }
      if !cfg.verify(serverKey.value, caller, amount, nonce, signature) { return Err(InvalidSignature); }
      r := Ok(());
    }

    /** Card collateral goes back to its owner, or nothing moves. */
    method ReturnCollateral(caller: Account, amount: nat) returns (r: Outcome<(), Error>)
      modifies this`collaterals, this`ledger
      ensures var c := old(Contents());
              if c.custody.CollateralOf(caller) < amount then
                r == Err(ZeroAmount) && Contents() == c
              else match c.Move(cfg.treasury, caller, amount, KeepAlive)
                   case None => r == Err(TransferFailed) && Contents() == c
                   case Some(moved) =>
                     && r == Ok(())
                     && Contents() == c.(ledger := moved, custody := c.custody.(
                                        collaterals := c.custody.collaterals[caller := c.custody.CollateralOf(caller) - amount]))
    {
      hide Storage.Move;
      var currentBalance := if caller in collaterals then collaterals[caller] else 0;
      if currentBalance < amount { return Err(ZeroAmount); }
      var before := collaterals;
      collaterals := collaterals[caller := SatSub(currentBalance, amount)];
      MoveReadsLocks(old(Contents()), Contents(), cfg.treasury, caller, amount, KeepAlive);
      var moved := Move(cfg.treasury, caller, amount, KeepAlive);
      if moved.None? {
        collaterals := before;
        return Err(TransferFailed);
      }
      ledger := moved.value;
      r := Ok(());
    }

    method UnlockCollateral(caller: Account, amount: nat, nonce: nat, signature: Signature) returns (r: Outcome<(), Error>)
      modifies this
      ensures Atomic(M.UnlockCollateral(cfg, old(Contents()), caller, amount, nonce, signature),
                     old(Contents()), Contents(), r)
    {
      hide Storage.Move, Authorised;
      if amount == 0 { return Err(ZeroAmount); }
      var authorised := Authorise(caller, amount, nonce, signature);
      if authorised.Err? { return Err(authorised.error); }
      var noncesBefore := usedNonces;
      usedNonces := usedNonces + {nonce};
      MoveReadsLocks(old(Contents()), Contents(), cfg.treasury, caller, amount, KeepAlive);
      r := ReturnCollateral(caller, amount);
      if r.Err? {
        usedNonces := noncesBefore;
        return;
      }
      events := events + [CollateralUnlocked(amount, nonce)];
    }

    method ClaimCashAdvance(who: Account, amount: nat, nonce: nat, signature: Signature) returns (r: Outcome<(), Error>)
      modifies this
      ensures Atomic(M.ClaimCashAdvance(cfg, old(Contents()), who, amount, nonce, signature),
                     old(Contents()), Contents(), r)
    {
      hide Storage.Move, Authorised;
      var authorised := Authorise(who, amount, nonce, signature);
      if authorised.Err? { return Err(authorised.error); }
      var noncesBefore := usedNonces;
      usedNonces := usedNonces + {nonce};
      MoveReadsLocks(old(Contents()), Contents(), cfg.treasury, who, amount, KeepAlive);
      var moved := Move(cfg.treasury, who, amount, KeepAlive);
      if moved.None? {
        usedNonces := noncesBefore;
        return Err(TransferFailed);
      }
      ledger := moved.value;
      events := events + [AdvanceClaimed(amount, nonce)];
      r := Ok(());
    }

    method RepayCashAdvance(who: Account, amount: nat) returns (r: Outcome<(), Error>)
      modifies this
      ensures Atomic(M.RepayCashAdvance(cfg, old(Contents()), who, amount), old(Contents()), Contents(), r)
    {
      if amount == 0 { return Err(ZeroAmount); }
      var moved := Move(who, cfg.treasury, amount, KeepAlive);
      if moved.None? { return Err(TransferFailed); }
      ledger := moved.value;
      events := events + [AdvanceRepaid(amount)];
      r := Ok(());
    }

    // -------------------------------------------------------------- wholesale credit, other pallets

    /** The central bank decides; a granted amount is minted to the treasury. */
    method BorrowWholesale(amount: nat, granted: bool) returns (r: Outcome<(), Error>)
      modifies this
      ensures Atomic(M.BorrowWholesale(cfg, old(Contents()), amount, granted), old(Contents()), Contents(), r)
    {
      if !granted || !ledger.Lands(cfg.treasury, amount) { return Err(CentralBankRefused); }
      ledger := ledger.DepositCreating(cfg.treasury, amount);
      events := events + [WholesaleBorrowed(amount)];
      r := Ok(());
    }

    /** The central bank decides; an accepted amount is burned from the treasury. */
    method RepayWholesale(amount: nat, accepted: bool) returns (r: Outcome<(), Error>)
      modifies this
      ensures Atomic(M.RepayWholesale(cfg, old(Contents()), amount, accepted), old(Contents()), Contents(), r)
    {
      if !accepted { return Err(CentralBankRefused); }
      var held := if cfg.treasury in locks then locks[cfg.treasury] else 0;
      if amount != 0 && ledger.Free(cfg.treasury) < amount + held { return Err(CentralBankRefused); }
      var burned := ledger.Burn(cfg.treasury, amount);
      if burned.None? { return Err(CentralBankRefused); }
      ledger := burned.value;
      events := events + [WholesaleRepaid(amount)];
      r := Ok(());
    }

    /** A transfer made by any other pallet on the shared currency. */
    method TransferByOthers(from: Account, to: Account, amount: nat) returns (r: Outcome<(), Error>)
      modifies this
      ensures Atomic(M.TransferByOthers(old(Contents()), from, to, amount), old(Contents()), Contents(), r)
    {
      var moved := Move(from, to, amount, AllowDeath);
      if moved.None? { return Err(TransferFailed); }
      ledger := moved.value;
      events := events + [ForeignTransfer(from, to, amount)];
      r := Ok(());
    }

    // -------------------------------------------------------------- runs

    /** One call, routed to its dispatchable. */
    method ExecuteOne(now: nat, call: Call) returns (r: Outcome<(), Error>)
      modifies this
      ensures Atomic(Dispatch(cfg, old(Contents()), now, call), old(Contents()), Contents(), r)
    {
      hide Dispatch;
      if TouchesAccounts(call) || TouchesLending(call) {
        r := ExecuteOnRecords(now, call);
      } else if EscrowCall(call) {
        r := ExecuteOnEscrows(now, call);
      } else if TouchesCustody(call) {
        r := ExecuteOnDeposits(now, call);
      } else {
        r := ExecuteOnTreasury(now, call);
      }
    }

    method ExecuteOnRecords(now: nat, call: Call) returns (r: Outcome<(), Error>)
      requires TouchesAccounts(call) || TouchesLending(call)
      modifies this
      ensures Atomic(Dispatch(cfg, old(Contents()), now, call), old(Contents()), Contents(), r)
    {
      hide M.OpenMasterAccount, M.OpenSubAccount, M.WithdrawFromSavings, M.CloseSubAccount, M.RequestLoan, M.ApproveLoan,
           M.PayCredit, M.CancelLoanRequest;
      match call
      case OpenMaster(who, approved) => r := OpenMasterAccount(now, who, approved);
      case OpenSub(who, kind) => r := OpenSubAccount(now, who, kind);
      case Withdraw(who, sub, amount) => r := WithdrawFromSavings(who, sub, amount);
      case Pay(who, sub, amount) => r := PayCredit(who, sub, amount);
      case CloseSub(who, sub) => r := CloseSubAccount(who, sub);
      case Request(who, amount, collateral) => r := RequestLoan(now, who, amount, collateral);
      case Approve(id) => r := ApproveLoan(id);
      case Cancel(who, id) => r := CancelLoanRequest(who, id);
    }

    method ExecuteOnEscrows(now: nat, call: Call) returns (r: Outcome<(), Error>)
      requires EscrowCall(call)
      modifies this
      ensures Atomic(Dispatch(cfg, old(Contents()), now, call), old(Contents()), Contents(), r)
    {
      hide M.CreateEscrow, M.ReleaseEscrow, M.RefundEscrow;
      match call
      case Escrowed(who, counterparty, amount, itemHash) => r := CreateEscrow(now, who, counterparty, amount, itemHash);
      case Release(who, id) => r := ReleaseEscrow(who, id);
      case Refund(who, id) => r := RefundEscrow(who, id);
    }

    method ExecuteOnDeposits(now: nat, call: Call) returns (r: Outcome<(), Error>)
      requires TouchesCustody(call) && !EscrowCall(call)
      modifies this
      ensures Atomic(Dispatch(cfg, old(Contents()), now, call), old(Contents()), Contents(), r)
    {
      hide M.OpenTimeDeposit, M.ClaimTimeDeposit, M.LockCollateral, M.UnlockCollateral, M.ClaimCashAdvance;
      match call
      case OpenDeposit(who, amount, duration, documentHash) => r := OpenTimeDeposit(now, who, amount, duration, documentHash);
      case Claim(who, id) => r := ClaimTimeDeposit(now, who, id);
      case Lock(who, amount) => r := LockCollateral(who, amount);
      case Unlock(who, amount, nonce, signature) => r := UnlockCollateral(who, amount, nonce, signature);
      case Advance(who, amount, nonce, signature) => r := ClaimCashAdvance(who, amount, nonce, signature);
    }

    method ExecuteOnTreasury(now: nat, call: Call) returns (r: Outcome<(), Error>)
      requires !TouchesAccounts(call) && !TouchesLending(call) && !TouchesCustody(call)
      modifies this
      ensures Atomic(Dispatch(cfg, old(Contents()), now, call), old(Contents()), Contents(), r)
    {
      hide M.FundTreasury, M.RepayCashAdvance, M.BorrowWholesale, M.RepayWholesale, M.TransferByOthers;
      match call
      case Fund(who, amount) => r := FundTreasury(who, amount);
      case SetServerKey(key) => SetBankServerKey(key); r := Ok(());
      case RepayAdvance(who, amount) => r := RepayCashAdvance(who, amount);
      case Borrow(amount, granted) => r := BorrowWholesale(amount, granted);
      case RepayCentral(amount, accepted) => r := RepayWholesale(amount, accepted);
      case Foreign(from, to, amount) => r := TransferByOthers(from, to, amount);
    }

    /** A sequence of calls leaves the storage the run of its transitions ends in. */
    method Execute(calls: seq<Timed>)
      modifies this
      ensures Contents() == Run(cfg, old(Contents()), calls)
    {
      for i := 0 to |calls|
        invariant Run(cfg, Contents(), calls[i..]) == Run(cfg, old(Contents()), calls)
      {
        assert calls[i..][1..] == calls[i + 1..];
        hide Dispatch;
        var _ := ExecuteOne(calls[i].now, calls[i].call);
      }
    }
  }

  /** A chain started from an empty bank: what runs keep holds of the storage it ends with. */
  method ChainFromEmpty(cfg: Config, ledger: Ledger, calls: seq<Timed>) returns (p: Pallet)
    requires ledger.Balanced() && Injective(cfg)
    requires forall i :: 0 <= i < |calls| ==> Keyless(cfg, calls[i].call)
    ensures fresh(p) && p.cfg == cfg && p.Contents() == Run(cfg, Fresh(ledger), calls)
    ensures Paired(cfg, p.Contents().accounts)
    ensures TreasurySound(cfg, p.Contents(), ledger.issuance, ledger.Free(cfg.treasury))
    ensures Once(p.Contents().custody, p.events) && LoanTrail(p.Contents().lending, p.events)
  {
    EveryRunFromEmpty(cfg, ledger, calls);
    FreshTreasury(cfg, ledger);
    TreasuryKeepsDoubleEntry(cfg, Fresh(ledger), ledger.issuance, ledger.Free(cfg.treasury), calls);
    hide Run, TreasurySound, Held, Total, Once, LoanTrail, LoansSound, Paired, Keyless;
    p := new Pallet(cfg, ledger);
    p.Execute(calls);
  }
}
