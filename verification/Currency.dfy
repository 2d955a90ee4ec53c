/** The `Currency` every pallet is wired to: free balances, total issuance and the
    existential deposit. Reserved balances, locks and dust are not modelled here. */
module Currency {
  import opened Prelude
  import opened Sums

  datatype Existence = KeepAlive | AllowDeath

  datatype Ledger = Ledger(free: map<Account, nat>, issuance: nat, ed: nat) {

    function Free(a: Account): nat { if a in free then free[a] else 0 }

    function Credit(a: Account, amount: nat): Ledger {
      this.(free := free[a := Free(a) + amount])
    }

    function Debit(a: Account, amount: nat): Ledger
      requires amount <= Free(a)
    {
      this.(free := free[a := Free(a) - amount])
    }

    /** What the sender must hold to give `amount` away. */
    function Needed(amount: nat, e: Existence): nat { if e.KeepAlive? then amount + ed else amount }

    /** `Currency::transfer`: all or nothing; nothing moves for a zero amount or to oneself,
        and a recipient is never left below the existential deposit. */
    function Transfer(from: Account, to: Account, amount: nat, e: Existence): Option<Ledger> {
      if amount == 0 || from == to then Some(this)
      else if Free(from) < Needed(amount, e) || Free(to) + amount < ed then None
      else Some(Debit(from, amount).Credit(to, amount))
    }

    /** `Currency::withdraw` with the imbalance dropped. */
    function Burn(from: Account, amount: nat): Option<Ledger> {
      if amount == 0 then Some(this)
      else if Free(from) < Needed(amount, KeepAlive) then None
      else Some(Debit(from, amount).(issuance := SatSub(issuance, amount)))
    }

    /** `Currency::deposit_creating` takes effect only then; otherwise it does nothing. */
    predicate Lands(to: Account, amount: nat) {
      Free(to) + amount >= ed && issuance + amount <= U128_MAX
    }

    function DepositCreating(to: Account, amount: nat): Ledger {
      if Lands(to, amount) then Credit(to, amount).(issuance := issuance + amount) else this
    }

    /** Every unit issued is in somebody's balance. */
    ghost predicate Balanced() { Sum(free, AmountOf) == issuance && issuance <= U128_MAX }
  }

  function AmountOf(a: Account, amount: nat): int { amount }

  lemma FreeWithinIssuance(l: Ledger, a: Account)
    requires l.Balanced()
    ensures l.Free(a) <= l.issuance
  {
    SumNonNegative(l.free, AmountOf);
    if a in l.free {
      SumMember(l.free, AmountOf, a);
    }
  }

  lemma CreditAddsToSum(l: Ledger, a: Account, amount: nat)
    ensures Sum(l.Credit(a, amount).free, AmountOf) == Sum(l.free, AmountOf) + amount
  {
    SumUpdate<Account, nat>(l.free, AmountOf, a, l.Free(a) + amount);
  }

  lemma DebitTakesFromSum(l: Ledger, a: Account, amount: nat)
    requires amount <= l.Free(a)
    ensures Sum(l.Debit(a, amount).free, AmountOf) == Sum(l.free, AmountOf) - amount
  {
    SumUpdate<Account, nat>(l.free, AmountOf, a, l.Free(a) - amount);
  }

  /** A transfer conserves money: issuance and the sum of balances stand still, and every
      account changes by exactly what it sent or received. */
  lemma TransferConserves(l: Ledger, from: Account, to: Account, amount: nat, e: Existence)
    requires l.Transfer(from, to, amount, e).Some?
    ensures var r := l.Transfer(from, to, amount, e).value;
            && r.issuance == l.issuance && r.ed == l.ed
            && Sum(r.free, AmountOf) == Sum(l.free, AmountOf)
            && (l.Balanced() ==> r.Balanced())
            && (from != to ==> r.Free(from) == l.Free(from) - amount && r.Free(to) == l.Free(to) + amount)
            && (forall a :: (a != from && a != to) || from == to ==> r.Free(a) == l.Free(a))
  {
    if amount != 0 && from != to {
      DebitTakesFromSum(l, from, amount);
      CreditAddsToSum(l.Debit(from, amount), to, amount);
    }
  }

  /** Burning lowers one balance and the issuance by the same amount. */
  lemma BurnConserves(l: Ledger, from: Account, amount: nat)
    requires l.Balanced() && l.Burn(from, amount).Some?
    ensures var r := l.Burn(from, amount).value;
            && r.issuance == l.issuance - amount && r.ed == l.ed
            && r.Balanced()
            && r.Free(from) == l.Free(from) - amount
            && (forall a :: a != from ==> r.Free(a) == l.Free(a))
  {
    FreeWithinIssuance(l, from);
    if amount != 0 {
      DebitTakesFromSum(l, from, amount);
    }
  }

  /** Minting raises one balance and the issuance by the same amount, or does nothing. */
  lemma DepositConserves(l: Ledger, to: Account, amount: nat)
    ensures var r := l.DepositCreating(to, amount);
            && r.ed == l.ed
            && (l.Balanced() ==> r.Balanced())
            && (forall a :: a != to ==> r.Free(a) == l.Free(a))
            && (l.Lands(to, amount) ==> r.issuance == l.issuance + amount && r.Free(to) == l.Free(to) + amount)
            && (!l.Lands(to, amount) ==> r == l)
  {
    CreditAddsToSum(l, to, amount);
  }
}
