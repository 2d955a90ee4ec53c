/** Sums over finite maps, the "for all stored contracts" totals of the invariants. */
module Sums {

  ghost function Sum<K, V>(m: map<K, V>, f: (K, V) -> int): int
    decreases |m|
  {
    if m == map[] then 0 else
      var k :| k in m;
      f(k, m[k]) + Sum(m - {k}, f)
  }

  /** The sum does not depend on which entry is taken first. */
  lemma {:induction false} SumSplit<K, V>(m: map<K, V>, f: (K, V) -> int, k: K)
    requires k in m
    ensures Sum(m, f) == f(k, m[k]) + Sum(m - {k}, f)
    decreases |m|
  {
    var j :| j in m && Sum(m, f) == f(j, m[j]) + Sum(m - {j}, f);
    if j != k {
      SumSplit(m - {j}, f, k);
      SumSplit(m - {k}, f, j);
      assert m - {j} - {k} == m - {k} - {j};
    }
  }

  /** Writing one entry replaces its contribution. */
  lemma SumUpdate<K, V>(m: map<K, V>, f: (K, V) -> int, k: K, v: V)
    ensures Sum(m[k := v], f) == Sum(m, f) - (if k in m then f(k, m[k]) else 0) + f(k, v)
  {
    var n := m[k := v];
    SumSplit(n, f, k);
    assert n - {k} == m - {k};
    if k in m {
      SumSplit(m, f, k);
    } else {
      assert m - {k} == m;
    }
  }

  lemma {:induction false} SumNonNegative<K(!new), V(!new)>(m: map<K, V>, f: (K, V) -> int)
    requires forall k :: k in m ==> f(k, m[k]) >= 0
    ensures Sum(m, f) >= 0
    decreases |m|
  {
    if m != map[] {
      var k :| k in m;
      SumSplit(m, f, k);
      SumNonNegative(m - {k}, f);
    }
  }

  /** One entry never exceeds a sum of non-negative entries. */
  lemma SumMember<K(!new), V(!new)>(m: map<K, V>, f: (K, V) -> int, k: K)
    requires k in m
    requires forall j :: j in m ==> f(j, m[j]) >= 0
    ensures f(k, m[k]) <= Sum(m, f)
  {
    SumSplit(m, f, k);
    SumNonNegative(m - {k}, f);
  }

  lemma {:induction false} SumMonotone<K(!new), V(!new)>(m: map<K, V>, f: (K, V) -> int, g: (K, V) -> int)
    requires forall k :: k in m ==> f(k, m[k]) <= g(k, m[k])
    ensures Sum(m, f) <= Sum(m, g)
    decreases |m|
  {
    if m != map[] {
      var k :| k in m;
      SumSplit(m, f, k);
      SumSplit(m, g, k);
      SumMonotone(m - {k}, f, g);
    }
  }

  /** Sums of pointwise sums. */
  lemma {:induction false} SumAdd<K(!new), V(!new)>(m: map<K, V>, f: (K, V) -> int, g: (K, V) -> int, h: (K, V) -> int)
    requires forall k :: k in m ==> h(k, m[k]) == f(k, m[k]) + g(k, m[k])
    ensures Sum(m, h) == Sum(m, f) + Sum(m, g)
    decreases |m|
  {
    if m != map[] {
      var k :| k in m;
      SumSplit(m, f, k);
      SumSplit(m, g, k);
      SumSplit(m, h, k);
      SumAdd(m - {k}, f, g, h);
    }
  }

  /** A storage iteration: every key once, in an order the chain chooses. */
  ghost predicate IterationOrder<K(!new), V(!new)>(order: seq<K>, m: map<K, V>) {
    && (forall k :: k in m <==> k in order)
    && (forall i, j :: 0 <= i < j < |order| ==> order[i] != order[j])
  }

  /** The sum accumulated by a loop that walks `order`. */
  ghost function SumAlong<K, V>(order: seq<K>, m: map<K, V>, f: (K, V) -> int): int
    requires forall k :: k in order ==> k in m
  {
    if order == [] then 0 else
      var k := order[|order| - 1];
      SumAlong(order[..|order| - 1], m, f) + f(k, m[k])
  }

  /** Whatever order the chain iterates in, the accumulated sum is the sum over the map. */
  lemma {:induction false} SumAlongIsSum<K(!new), V(!new)>(order: seq<K>, m: map<K, V>, f: (K, V) -> int)
    requires IterationOrder(order, m)
    ensures SumAlong(order, m, f) == Sum(m, f)
    decreases |order|
  {
    if order == [] {
      assert forall k :: k in m ==> k in order;
      assert m.Keys == {};
    } else {
      var n := |order| - 1;
      var k, rest, smaller := order[n], order[..n], m - {order[n]};
      assert order == rest + [k];
      assert IterationOrder(rest, smaller);
      SumAlongIsSum(rest, smaller, f);
      SumAlongSame(rest, smaller, m, f);
      SumSplit(m, f, k);
    }
  }

  lemma {:induction false} SumAlongSame<K(!new), V(!new)>(order: seq<K>, m: map<K, V>, n: map<K, V>, f: (K, V) -> int)
    requires forall k :: k in order ==> k in m && k in n && m[k] == n[k]
    ensures SumAlong(order, m, f) == SumAlong(order, n, f)
    decreases |order|
  {
    if order != [] {
      SumAlongSame(order[..|order| - 1], m, n, f);
    }
  }

  lemma SumAlongStep<K(!new), V(!new)>(order: seq<K>, i: nat, m: map<K, V>, f: (K, V) -> int)
    requires i < |order|
    requires forall k :: k in order ==> k in m
    ensures SumAlong(order[..i + 1], m, f) == SumAlong(order[..i], m, f) + f(order[i], m[order[i]])
  {
    assert order[..i + 1][..i] == order[..i];
  }
}
