/** The migration that fills the active-loan index of pallet-bank-of-siberia from the loan table. */
module LoanIndexMigration {
  import opened Prelude
  import opened Sums
  import opened BankOfSiberia
  import opened BankOfSiberiaRecords

  type Loans = map<nat, Loan>
  type Index = map<Account, nat>

  /** One loan visited: an Active loan is indexed unless its borrower already is. */
  function Visit(loans: Loans, index: Index, id: nat): Index
    requires id in loans
  {
    var l := loans[id];
    if l.status == Active && l.borrower !in index then index[l.borrower := id] else index
  }

  function Backfill(order: seq<nat>, loans: Loans, index: Index): Index
    requires forall id :: id in order ==> id in loans
  {
    if order == [] then index else Backfill(order[1..], loans, Visit(loans, index, order[0]))
  }

  /** Every entry names an Active loan of its borrower. */
  ghost predicate SoundIndex(loans: Loans, index: Index) {
    forall b :: b in index ==> index[b] in loans && loans[index[b]].borrower == b && loans[index[b]].status == Active
  }

  /** Every borrower with an Active loan has an entry. */
  ghost predicate CompleteIndex(loans: Loans, index: Index) {
    forall id :: id in loans && loans[id].status == Active ==> loans[id].borrower in index
  }

  /** The backfill keeps every entry it found, and gives every other borrower what the linear scan
      would have found for it in the same order. */
  lemma {:induction false} BackfillIsTheScan(order: seq<nat>, loans: Loans, index: Index, b: Account)
    requires forall id :: id in order ==> id in loans
    ensures Lookup(Backfill(order, loans, index), b) == if b in index then Some(index[b]) else Scan(order, loans, b)
    decreases |order|
  {
    if order != [] {
      BackfillIsTheScan(order[1..], loans, Visit(loans, index, order[0]), b);
    }
  }

  lemma BackfillSoundAndComplete(order: seq<nat>, loans: Loans, index: Index)
    requires IterationOrder(order, loans) && SoundIndex(loans, index)
    ensures var after := Backfill(order, loans, index);
            && SoundIndex(loans, after) && CompleteIndex(loans, after)
            && forall b :: b in index ==> b in after && after[b] == index[b]
  {
    var after := Backfill(order, loans, index);
    forall b ensures b in index ==> b in after && after[b] == index[b]
             ensures b in after ==> after[b] in loans && loans[after[b]].borrower == b && loans[after[b]].status == Active
    {
      BackfillIsTheScan(order, loans, index, b);
      ScanFindsAnActiveLoan(order, loans, b);
    }
    forall id | id in loans && loans[id].status == Active ensures loans[id].borrower in after {
      BackfillIsTheScan(order, loans, index, loans[id].borrower);
      ScanFindsAnActiveLoan(order, loans, loans[id].borrower);
    }
  }

  /** Once complete, the index is a fixed point in every order. */
  lemma {:induction false} CompleteIsFixed(order: seq<nat>, loans: Loans, index: Index)
    requires forall id :: id in order ==> id in loans
    requires CompleteIndex(loans, index)
    ensures Backfill(order, loans, index) == index
    decreases |order|
  {
    if order != [] {
      CompleteIsFixed(order[1..], loans, index);
    }
  }

  /** Running the migration again, in whatever order, changes nothing. */
  lemma BackfillIdempotent(first: seq<nat>, second: seq<nat>, loans: Loans, index: Index)
    requires IterationOrder(first, loans) && IterationOrder(second, loans) && SoundIndex(loans, index)
    ensures Backfill(second, loans, Backfill(first, loans, index)) == Backfill(first, loans, index)
  {
    BackfillSoundAndComplete(first, loans, index);
    CompleteIsFixed(second, loans, Backfill(first, loans, index));
  }

  /** On every state the live pallet reaches, the migration is the identity. */
  lemma BackfillLeavesLiveIndexAlone(order: seq<nat>, book: Lending)
    requires IterationOrder(order, book.loans) && LoansSound(book)
    ensures Backfill(order, book.loans, book.activeLoan) == book.activeLoan
  {
    CompleteIsFixed(order, book.loans, book.activeLoan);
  }

  // ---------------------------------------------------------------- the upgrade check

  ghost function ActiveLoans(loans: Loans): set<nat> {
    set id | id in loans && loans[id].status == Active
  }

  /** Distinct borrowers are indexed to distinct loans, so entries never outnumber Active loans. */
  lemma {:induction false} SoundIndexIsSmall(loans: Loans, index: Index, active: set<nat>)
    requires SoundIndex(loans, index)
    requires forall b :: b in index ==> index[b] in active
    ensures |index| <= |active|
    decreases |index|
  {
    if index != map[] {
      var b :| b in index;
      SoundIndexIsSmall(loans, index - {b}, active - {index[b]});
      assert |index - {b}| == |index| - 1 by { assert (index - {b}).Keys == index.Keys - {b}; }
    }
  }

  /** `post_upgrade`: the number of entries against the number of Active loans counted before. */
  predicate PostUpgrade(index: Index, expectedActive: nat) { |index| <= expectedActive }

  lemma PostUpgradeAlwaysPasses(order: seq<nat>, loans: Loans, index: Index)
    requires IterationOrder(order, loans) && SoundIndex(loans, index)
    ensures PostUpgrade(Backfill(order, loans, index), |ActiveLoans(loans)|)
  {
    BackfillSoundAndComplete(order, loans, index);
    SoundIndexIsSmall(loans, Backfill(order, loans, index), ActiveLoans(loans));
  }

  // ---------------------------------------------------------------- dependence on the storage order

  /** Every borrower not yet indexed has at most one Active loan. */
  ghost predicate AtMostOneActive(loans: Loans, index: Index) {
    forall i, j ::
      (i in loans && j in loans && loans[i].status == Active && loans[j].status == Active
       && loans[i].borrower == loans[j].borrower && loans[i].borrower !in index)
      ==> i == j
  }

  lemma SameInEveryOrder(first: seq<nat>, second: seq<nat>, loans: Loans, index: Index)
    requires IterationOrder(first, loans) && IterationOrder(second, loans) && AtMostOneActive(loans, index)
    ensures Backfill(first, loans, index) == Backfill(second, loans, index)
  {
    var m, n := Backfill(first, loans, index), Backfill(second, loans, index);
    forall b ensures Lookup(m, b) == Lookup(n, b) {
      BackfillIsTheScan(first, loans, index, b);
      BackfillIsTheScan(second, loans, index, b);
      ScanFindsAnActiveLoan(first, loans, b);
      ScanFindsAnActiveLoan(second, loans, b);
    }
    assert forall b :: (b in m <==> b in n) && (b in m ==> m[b] == n[b]) by {
      forall b ensures (b in m <==> b in n) && (b in m ==> m[b] == n[b]) {
        assert Lookup(m, b) == Lookup(n, b);
      }
    }
  }

  lemma {:induction false} SomeOrder(loans: Loans) returns (order: seq<nat>)
    ensures IterationOrder(order, loans)
    decreases |loans|
  {
    if loans == map[] {
      order := [];
    } else {
      var id :| id in loans;
      order := OrderFrom(loans, id);
    }
  }

  lemma {:induction false} OrderFrom(loans: Loans, id: nat) returns (order: seq<nat>)
    requires id in loans
    ensures IterationOrder(order, loans) && order != [] && order[0] == id
    decreases |loans|, 0
  {
    assert |loans - {id}| == |loans| - 1 by { assert (loans - {id}).Keys == loans.Keys - {id}; }
    var rest := SomeOrder(loans - {id});
    order := [id] + rest;
  }

  /** The migrated index is independent of the storage order exactly when no unindexed borrower
      has two Active loans. */
  lemma OrderMattersExactly(loans: Loans, index: Index)
    ensures AtMostOneActive(loans, index)
            <==> forall first, second :: IterationOrder(first, loans) && IterationOrder(second, loans) ==>
                   Backfill(first, loans, index) == Backfill(second, loans, index)
  {
    if AtMostOneActive(loans, index) {
      forall first, second | IterationOrder(first, loans) && IterationOrder(second, loans)
        ensures Backfill(first, loans, index) == Backfill(second, loans, index)
      {
        SameInEveryOrder(first, second, loans, index);
      }
    } else {
      var i, j :| i in loans && j in loans && loans[i].status == Active && loans[j].status == Active
                  && loans[i].borrower == loans[j].borrower && loans[i].borrower !in index && i != j;
      var first := OrderFrom(loans, i);
      var second := OrderFrom(loans, j);
      BackfillIsTheScan(first, loans, index, loans[i].borrower);
      BackfillIsTheScan(second, loans, index, loans[i].borrower);
    }
  }

  /** The documented choice of the highest loan id is not what the code makes: it keeps the first
      Active loan met. */
  lemma FirstNotHighest()
    ensures var l := Loan(7, 0, 5, 0, Active, 5);
            Backfill([0, 1], map[0 := l, 1 := l], map[]) == map[7 := 0]
  {
    var l := Loan(7, 0, 5, 0, Active, 5);
    var loans := map[0 := l, 1 := l];
    assert Backfill([0, 1], loans, map[]) == Backfill([0, 1][1..], loans, map[7 := 0]);
    assert [0, 1][1..] == [1];
    assert Backfill([1], loans, map[7 := 0]) == Backfill([1][1..], loans, map[7 := 0]);
  }

  /** The highest Active loan of an unindexed borrower is registered exactly when the storage
      order visits it before every other Active loan of that borrower. */
  lemma HighestExactlyWhenFirst(order: seq<nat>, loans: Loans, index: Index, b: Account, top: nat)
    requires IterationOrder(order, loans) && b !in index
    requires top in loans && loans[top].borrower == b && loans[top].status == Active
    requires forall id :: id in loans && loans[id].borrower == b && loans[id].status == Active ==> id <= top
    ensures Lookup(Backfill(order, loans, index), b) == Some(top)
            <==> forall i, j ::
                   (0 <= i < |order| && 0 <= j < |order| && order[i] == top
                    && loans[order[j]].borrower == b && loans[order[j]].status == Active)
                   ==> i <= j
  {
    BackfillIsTheScan(order, loans, index, b);
    ScanIsFirst(order, loans, b);
  }

  lemma {:induction false} ScanIsFirst(order: seq<nat>, loans: Loans, b: Account)
    requires forall id :: id in order ==> id in loans
    ensures match Scan(order, loans, b)
            case Some(id) =>
              exists i :: 0 <= i < |order| && order[i] == id && loans[id].borrower == b && loans[id].status == Active
                          && forall j :: 0 <= j < i ==> loans[order[j]].borrower != b || loans[order[j]].status != Active
            case None => forall i :: 0 <= i < |order| ==> loans[order[i]].borrower != b || loans[order[i]].status != Active
    decreases |order|
  {
    if order != [] && !(loans[order[0]].borrower == b && loans[order[0]].status == Active) {
      var rest := order[1..];
      ScanIsFirst(rest, loans, b);
      match Scan(rest, loans, b)
      case Some(id) =>
        var i :| 0 <= i < |rest| && rest[i] == id && loans[id].borrower == b && loans[id].status == Active
                 && forall j :: 0 <= j < i ==> loans[rest[j]].borrower != b || loans[rest[j]].status != Active;
        assert order[i + 1] == id;
        assert forall j :: 0 < j < i + 1 ==> order[j] == rest[j - 1];
      case None =>
        assert forall j :: 0 < j < |order| ==> order[j] == rest[j - 1];
    }
  }
}
