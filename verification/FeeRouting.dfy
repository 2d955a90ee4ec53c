/** One sender paying a list of recipients in turn, all or nothing: the shape both fee routers share. */
module FeeRouting {
  import opened Prelude
  import opened Currency

  datatype Payment = Payment(to: Account, amount: nat)

  function Route(l: Ledger, from: Account, payments: seq<Payment>): Option<Ledger>
    decreases |payments|
  {
    if payments == [] then Some(l)
    else match l.Transfer(from, payments[0].to, payments[0].amount, KeepAlive)
         case None => None
         case Some(next) => Route(next, from, payments[1..])
  }

  function Paid(payments: seq<Payment>): nat {
    if payments == [] then 0 else payments[0].amount + Paid(payments[1..])
  }

  function ReceivedBy(payments: seq<Payment>, a: Account): nat {
    if payments == [] then 0
    else (if payments[0].to == a then payments[0].amount else 0) + ReceivedBy(payments[1..], a)
  }

  /** Routing conserves money: issuance stands, everyone else gains exactly the payments made to
      them, and the sender loses exactly the payments made to others. */
  lemma {:induction false} RouteConserves(l: Ledger, from: Account, payments: seq<Payment>)
    requires Route(l, from, payments).Some?
    ensures var r := Route(l, from, payments).value;
            && r.issuance == l.issuance && r.ed == l.ed
            && (l.Balanced() ==> r.Balanced())
            && r.Free(from) == l.Free(from) - Paid(payments) + ReceivedBy(payments, from)
            && forall a :: a != from ==> r.Free(a) == l.Free(a) + ReceivedBy(payments, a)
    decreases |payments|
  {
    if payments != [] {
      var p := payments[0];
      TransferConserves(l, from, p.to, p.amount, KeepAlive);
      RouteConserves(l.Transfer(from, p.to, p.amount, KeepAlive).value, from, payments[1..]);
      hide Ledger.Transfer, Ledger.Balanced;
    }
  }

  /** A sender who is none of the recipients is debited exactly the total. */
  lemma {:induction false} DistinctSenderReceivesNothing(payments: seq<Payment>, from: Account)
    requires forall i :: 0 <= i < |payments| ==> payments[i].to != from
    ensures ReceivedBy(payments, from) == 0
    decreases |payments|
  {
    if payments != [] {
      DistinctSenderReceivesNothing(payments[1..], from);
    }
  }

  /** Nobody receives less than any one payment made to them. */
  lemma {:induction false} ReceivedAtLeast(payments: seq<Payment>, i: nat)
    requires i < |payments|
    ensures ReceivedBy(payments, payments[i].to) >= payments[i].amount
    decreases i
  {
    if i > 0 {
      ReceivedAtLeast(payments[1..], i - 1);
    }
  }

  /** A sender can route payments to others exactly when it holds their sum above the existential
      deposit, its recipients being alive already. */
  lemma {:induction false} RouteSucceedsExactly(l: Ledger, from: Account, payments: seq<Payment>)
    requires forall i :: 0 <= i < |payments| ==> payments[i].to != from && l.Free(payments[i].to) >= l.ed
    ensures Route(l, from, payments).Some? <==> Paid(payments) == 0 || l.Free(from) >= Paid(payments) + l.ed
    decreases |payments|
  {
    if payments != [] {
      var p, rest := payments[0], payments[1..];
      if l.Transfer(from, p.to, p.amount, KeepAlive).Some? {
        var next := l.Transfer(from, p.to, p.amount, KeepAlive).value;
        TransferConserves(l, from, p.to, p.amount, KeepAlive);
        forall i | 0 <= i < |rest| ensures rest[i].to != from && next.Free(rest[i].to) >= next.ed {
          assert rest[i] == payments[i + 1];
        }
        RouteSucceedsExactly(next, from, rest);
      }
    }
  }
}
