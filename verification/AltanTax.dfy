/** pallet-altan-tax: a transfer with an exclusive fee of 0.03 %, split 54/36/10. */
module AltanTax {
  import opened Prelude
  import opened Arithmetic
  import opened Currency
  import opened FeeRouting

  const FEE_CAP := 1_000_000_000_000_000

  datatype Treasuries = Treasuries(ag: Option<Account>, khural: Option<Account>, validators: Option<Account>)

  datatype Error = TreasuriesNotInitialized | MathOverflow | TransferFailed

  function Fee(amount: nat): nat { Min(amount * 3 / 10_000, FEE_CAP) }

  function AgShare(fee: nat): nat { fee * 36 / 100 }

  function ValidatorShare(fee: nat): nat { fee * 10 / 100 }

  function KhuralShare(fee: nat): nat { fee - AgShare(fee) - ValidatorShare(fee) }

  function Payments(dest: Account, amount: nat, ag: Account, validators: Account, khural: Account): seq<Payment> {
    [Payment(dest, amount), Payment(ag, AgShare(Fee(amount))),
     Payment(validators, ValidatorShare(Fee(amount))), Payment(khural, KhuralShare(Fee(amount)))]
  }

  function TransferWithFee(t: Treasuries, l: Ledger, sender: Account, dest: Account, amount: nat): Outcome<Ledger, Error> {
    var ag :- t.ag.OrErr(TreasuriesNotInitialized);
    var khural :- t.khural.OrErr(TreasuriesNotInitialized);
    var validators :- t.validators.OrErr(TreasuriesNotInitialized);
    var _ :- Need(amount * 3 <= U128_MAX, MathOverflow);
    var _ :- Need(amount + Fee(amount) <= U128_MAX, MathOverflow);
    Route(l, sender, Payments(dest, amount, ag, validators, khural)).OrErr(TransferFailed)
  }

  // ---------------------------------------------------------------- runs

  datatype Call =
    | Taxed(sender: Account, dest: Account, amount: nat)
    | Foreign(from: Account, to: Account, amount: nat)
  {
    function Signer(): Account { if Taxed? then sender else from }
  }

  function Dispatch(t: Treasuries, l: Ledger, call: Call): Outcome<Ledger, Error> {
    match call
    case Taxed(sender, dest, amount) => TransferWithFee(t, l, sender, dest, amount)
    case Foreign(from, to, amount) => l.Transfer(from, to, amount, KeepAlive).OrErr(TransferFailed)
  }

  function Step(t: Treasuries, l: Ledger, call: Call): Ledger {
    match Dispatch(t, l, call)
    case Ok(after) => after
    case Err(_) => l
  }

  function Run(t: Treasuries, l: Ledger, calls: seq<Call>): Ledger
    decreases |calls|
  {
    if calls == [] then l else Run(t, Step(t, l, calls[0]), calls[1..])
  }

  /** The fees a run takes. */
  function Fees(t: Treasuries, l: Ledger, calls: seq<Call>): nat
    decreases |calls|
  {
    if calls == [] then 0
    else (if calls[0].Taxed? && Dispatch(t, l, calls[0]).Ok? then Fee(calls[0].amount) else 0)
         + Fees(t, Step(t, l, calls[0]), calls[1..])
  }

  // ---------------------------------------------------------------- properties

  /** The fee is the floor of 0.03 % of the amount, or the cap once that is reached. */
  lemma FeeExact(amount: nat)
    ensures Fee(amount) < 1_000_000_000_000_000 ==> 10_000 * Fee(amount) <= 3 * amount < 10_000 * Fee(amount) + 10_000
    ensures Fee(amount) == 1_000_000_000_000_000 <==> 3 * amount >= 10_000 * 1_000_000_000_000_000
    ensures Fee(amount) <= 1_000_000_000_000_000
  {}

  /** Splitting a transfer changes the fee by at most one planck upwards, and below the cap never
      raises it. */
  lemma FeeSubadditive(a: nat, b: nat)
    ensures Fee(a + b) <= Fee(a) + Fee(b) + 1
    ensures Fee(a + b) < FEE_CAP ==> Fee(a) + Fee(b) <= Fee(a + b)
  {
    FloorSum(a * 3, b * 3, 10_000);
  }

  /** The shares exhaust the fee: 36 % to the treasury and 10 % to the validators, each rounded down, and
      the rest, at least 54 %, to the Khural. */
  lemma FeeSplit(fee: nat)
    ensures 100 * AgShare(fee) <= 36 * fee < 100 * AgShare(fee) + 100
    ensures 100 * ValidatorShare(fee) <= 10 * fee < 100 * ValidatorShare(fee) + 100
    ensures AgShare(fee) + ValidatorShare(fee) + KhuralShare(fee) == fee
    ensures 54 * fee <= 100 * KhuralShare(fee) < 54 * fee + 200
  {}

  /** A completed transfer conserves issuance, gives the recipient exactly the amount, debits a
      sender who is no recipient exactly amount plus fee, the fee being within its cap, and leaves the
      Khural at least 54 % of the fee better off. */
  lemma TransferWithFeeExact(t: Treasuries, l: Ledger, sender: Account, dest: Account, amount: nat)
    requires TransferWithFee(t, l, sender, dest, amount).Ok?
    ensures t.ag.Some? && t.khural.Some? && t.validators.Some?
    ensures var r, fee := TransferWithFee(t, l, sender, dest, amount).value, Fee(amount);
            && r.issuance == l.issuance && r.ed == l.ed && (l.Balanced() ==> r.Balanced()) && fee <= FEE_CAP
            && (sender !in {dest, t.ag.value, t.khural.value, t.validators.value} ==>
                  && r.Free(sender) == l.Free(sender) - amount - fee
                  && (dest !in {t.ag.value, t.khural.value, t.validators.value} ==> r.Free(dest) == l.Free(dest) + amount))
            && (t.khural.value != sender ==> 100 * (r.Free(t.khural.value) - l.Free(t.khural.value)) >= 54 * fee)
  {
    var p := Payments(dest, amount, t.ag.value, t.validators.value, t.khural.value);
    RouteConserves(l, sender, p);
    FeeSplit(Fee(amount));
    PaymentsUnfold(p);
    ReceivedAtLeast(p, 3);
    hide Route, Paid, ReceivedBy, Fee, AgShare, ValidatorShare, KhuralShare, Ledger.Balanced;
  }

  lemma SharesOf(fee: nat)
    ensures AgShare(fee) == 36 * fee / 100 && ValidatorShare(fee) == 10 * fee / 100
    ensures KhuralShare(fee) == fee - AgShare(fee) - ValidatorShare(fee)
  {}

  /** Where every planck goes: to the recipient the amount, to the treasury 36 % and to the validators
      10 % of the fee, each rounded down, to the Khural the rest, and all of it from the sender. */
  lemma TransferFlows(t: Treasuries, l: Ledger, sender: Account, dest: Account, amount: nat, a: Account)
    requires TransferWithFee(t, l, sender, dest, amount).Ok?
    ensures t.ag.Some? && t.khural.Some? && t.validators.Some?
    ensures var r, fee := TransferWithFee(t, l, sender, dest, amount).value, Fee(amount);
            var ag, validators := 36 * fee / 100, 10 * fee / 100;
            r.Free(a) == l.Free(a) - (if a == sender then amount + fee else 0)
                         + (if a == dest then amount else 0) + (if a == t.ag.value then ag else 0)
                         + (if a == t.validators.value then validators else 0)
                         + (if a == t.khural.value then fee - ag - validators else 0)
  {
    SharesOf(Fee(amount));
    hide Route, Paid, ReceivedBy, Fee, AgShare, ValidatorShare, Ledger.Balanced;
    var p := Payments(dest, amount, t.ag.value, t.validators.value, t.khural.value);
    PaymentsUnfold(p);
    assert Paid(p) == amount + Fee(amount);
    RouteConserves(l, sender, p);
  }

  /** A sender other than the recipients, all of them alive, can transfer exactly when the treasuries are
      set, the sums fit the width, and it holds amount and fee above the existential deposit. */
  lemma AcceptedExactly(t: Treasuries, l: Ledger, sender: Account, dest: Account, amount: nat)
    requires forall a :: a == dest || t.ag == Some(a) || t.validators == Some(a) || t.khural == Some(a) ==> a != sender && l.Free(a) >= l.ed
    ensures TransferWithFee(t, l, sender, dest, amount).Ok?
            <==> && t.ag.Some? && t.khural.Some? && t.validators.Some?
                 && 3 * amount <= U128_MAX && amount + Fee(amount) <= U128_MAX
                 && (amount == 0 || l.Free(sender) >= amount + Fee(amount) + l.ed)
  {
    if t.ag.Some? && t.khural.Some? && t.validators.Some? {
      var p := Payments(dest, amount, t.ag.value, t.validators.value, t.khural.value);
      RouteSucceedsExactly(l, sender, p);
      PaymentsUnfold(p);
      FeeSplit(Fee(amount));
    }
    hide Route, Paid, ReceivedBy;
  }

  /** Over any run in which the Khural signs nothing, money is conserved and the Khural ends better off
      by at least 54 % of all the fees taken. */
  lemma {:induction false} KhuralCollects(t: Treasuries, l: Ledger, calls: seq<Call>, khural: Account)
    requires t.khural == Some(khural)
    requires forall i :: 0 <= i < |calls| ==> calls[i].Signer() != khural
    ensures var r := Run(t, l, calls);
            && r.issuance == l.issuance && r.ed == l.ed && (l.Balanced() ==> r.Balanced())
            && 100 * (r.Free(khural) - l.Free(khural)) >= 54 * Fees(t, l, calls)
    decreases |calls|
  {
    if calls != [] {
      var next := Step(t, l, calls[0]);
      assert && next.issuance == l.issuance && next.ed == l.ed && (l.Balanced() ==> next.Balanced())
             && 100 * (next.Free(khural) - l.Free(khural))
                >= 54 * (if calls[0].Taxed? && Dispatch(t, l, calls[0]).Ok? then Fee(calls[0].amount) else 0)
      by {
        hide Fee, Ledger.Balanced, Ledger.Transfer;
        if Dispatch(t, l, calls[0]).Ok? {
          match calls[0]
          case Taxed(sender, dest, amount) => TransferWithFeeExact(t, l, sender, dest, amount);
          case Foreign(from, to, amount) => TransferConserves(l, from, to, amount, KeepAlive);
        }
        hide TransferWithFee;
      }
      hide Step, Dispatch, Fee, Ledger.Balanced;
      KhuralCollects(t, next, calls[1..], khural);
    }
  }

  lemma PaymentsUnfold(p: seq<Payment>)
    requires |p| == 4
    ensures Paid(p) == p[0].amount + p[1].amount + p[2].amount + p[3].amount
    ensures forall a :: ReceivedBy(p, a) == (if p[0].to == a then p[0].amount else 0) + (if p[1].to == a then p[1].amount else 0)
                                            + (if p[2].to == a then p[2].amount else 0) + (if p[3].to == a then p[3].amount else 0)
  {
    var p1, p2, p3 := p[1..], p[1..][1..], p[1..][1..][1..];
    assert p1[0] == p[1] && p2[0] == p[2] && p3[0] == p[3] && p3[1..] == [];
    assert Paid(p2) == p[2].amount + Paid(p3);
    forall a ensures ReceivedBy(p, a) == (if p[0].to == a then p[0].amount else 0) + (if p[1].to == a then p[1].amount else 0)
                                         + (if p[2].to == a then p[2].amount else 0) + (if p[3].to == a then p[3].amount else 0)
    {
      assert ReceivedBy(p2, a) == (if p[2].to == a then p[2].amount else 0) + ReceivedBy(p3, a);
    }
  }
}

/** The dispatchable as it runs: four ledger transfers in sequence. */
module AltanTaxPallet {
  import opened Prelude
  import opened Currency
  import opened FeeRouting
  import opened M = AltanTax

  class Pallet {
    var agTreasuryAccount: Option<Account>
    var khuralFoundationAccount: Option<Account>
    var validatorPoolAccount: Option<Account>
    var ledger: Ledger

    ghost function Accounts(): Treasuries
      reads this
    {
      Treasuries(agTreasuryAccount, khuralFoundationAccount, validatorPoolAccount)
    }

    constructor (t: Treasuries, ledger: Ledger)
      ensures Accounts() == t && this.ledger == ledger
    {
      agTreasuryAccount, khuralFoundationAccount, validatorPoolAccount := t.ag, t.khural, t.validators;
      this.ledger := ledger;
    }

    method TransferWithFee(sender: Account, dest: Account, amount: nat) returns (r: Outcome<(), Error>)
      modifies this`ledger
      ensures Atomic(M.TransferWithFee(Accounts(), old(ledger), sender, dest, amount), old(ledger), ledger, r)
    {
      hide Ledger.Transfer;
      if agTreasuryAccount.None? || khuralFoundationAccount.None? || validatorPoolAccount.None? {
        return Err(TreasuriesNotInitialized);
      }
      var ag, khural, validators := agTreasuryAccount.value, khuralFoundationAccount.value, validatorPoolAccount.value;
      if amount * 3 > U128_MAX { return Err(MathOverflow); }
      var fee := Min(amount * 3 / 10_000, FEE_CAP);
      if amount + fee > U128_MAX { return Err(MathOverflow); }
      var agShare := fee * 36 / 100;
      var validatorShare := fee * 10 / 100;
      var khuralShare := fee - agShare - validatorShare;
      var before := ledger;
      ghost var all := Payments(dest, amount, ag, validators, khural);
      ghost var afterDest, afterAg, afterValidators := all[1..], all[1..][1..], all[1..][1..][1..];
      assert afterAg[0] == all[2] && afterValidators[0] == all[3] && afterValidators[1..] == [];

      var paid := ledger.Transfer(sender, dest, amount, KeepAlive);
      if paid.None? { return Err(TransferFailed); }
      ledger := paid.value;
      assert Route(before, sender, all) == Route(ledger, sender, afterDest);
      paid := ledger.Transfer(sender, ag, agShare, KeepAlive);
      if paid.None? { ledger := before; return Err(TransferFailed); }
      ledger := paid.value;
      assert Route(before, sender, all) == Route(ledger, sender, afterAg);
      paid := ledger.Transfer(sender, validators, validatorShare, KeepAlive);
      if paid.None? { ledger := before; return Err(TransferFailed); }
      ledger := paid.value;
      assert Route(before, sender, all) == Route(ledger, sender, afterValidators);
      paid := ledger.Transfer(sender, khural, khuralShare, KeepAlive);
      if paid.None? { ledger := before; return Err(TransferFailed); }
      ledger := paid.value;
      assert Route(before, sender, all) == Route(ledger, sender, afterValidators[1..]) == Some(ledger);
      r := Ok(());
    }

    /** A transfer made by any other pallet on the shared currency. */
    method TransferByOthers(from: Account, to: Account, amount: nat) returns (r: Outcome<(), Error>)
      modifies this`ledger
      ensures match old(ledger).Transfer(from, to, amount, KeepAlive)
              case Some(moved) => r == Ok(()) && ledger == moved
              case None => r == Err(TransferFailed) && ledger == old(ledger)
    {
      var moved := ledger.Transfer(from, to, amount, KeepAlive);
      if moved.None? { return Err(TransferFailed); }
      ledger := moved.value;
      r := Ok(());
    }

    // -------------------------------------------------------------- runs

    /** One call, routed to its dispatchable. */
    method ExecuteOne(call: Call) returns (r: Outcome<(), Error>)
      modifies this`ledger
      ensures Atomic(Dispatch(Accounts(), old(ledger), call), old(ledger), ledger, r)
    {
      hide M.TransferWithFee, Ledger.Transfer;
      match call
      case Taxed(sender, dest, amount) => r := TransferWithFee(sender, dest, amount);
      case Foreign(from, to, amount) => r := TransferByOthers(from, to, amount);
    }

    /** A sequence of calls leaves the ledger the run of its transitions ends in. */
    method Execute(calls: seq<Call>)
      modifies this`ledger
      ensures ledger == Run(Accounts(), old(ledger), calls)
    {
      for i := 0 to |calls|
        invariant Run(Accounts(), ledger, calls[i..]) == Run(Accounts(), old(ledger), calls)
      {
        assert calls[i..][1..] == calls[i + 1..];
        hide Dispatch;
        var _ := ExecuteOne(calls[i]);
      }
    }
  }
  /** A chain of taxed and foreign transfers: money is conserved and the Khural collects its part. */
  method ChainFrom(t: Treasuries, ledger: Ledger, khural: Account, calls: seq<Call>) returns (p: Pallet)
    requires t.khural == Some(khural) && ledger.Balanced()
    requires forall i :: 0 <= i < |calls| ==> calls[i].Signer() != khural
    ensures fresh(p) && p.Accounts() == t && p.ledger == Run(t, ledger, calls)
    ensures p.ledger.issuance == ledger.issuance && p.ledger.Balanced()
    ensures 100 * (p.ledger.Free(khural) - ledger.Free(khural)) >= 54 * Fees(t, ledger, calls)
  {
    KhuralCollects(t, ledger, calls, khural);
    hide Run, Fees, Ledger.Balanced;
    p := new Pallet(t, ledger);
    p.Execute(calls);
  }
}
