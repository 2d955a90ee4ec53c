/** Facts about products and floors that the solver does not find unaided. */
module Arithmetic {

  lemma MulMonotone(a: nat, b: nat, c: nat, d: nat)
    requires a <= b && c <= d
    ensures a * c <= b * d
  {
    calc {
      b * d;
      a * c + a * (d - c) + (b - a) * d;
    }
    MulNonNegative(a, d - c);
    MulNonNegative(b - a, d);
  }

  lemma MulNonNegative(a: nat, b: nat)
    ensures a * b >= 0
  {}

  lemma MulAtLeast(a: nat, b: nat)
    requires b >= 1
    ensures a * b >= a
  {
    assert a * b == a + a * (b - 1);
    MulNonNegative(a, b - 1);
  }

  /** Quotient and remainder are determined by their defining equation. */
  lemma DivisionUnique(n: nat, d: nat, q: nat, r: nat)
    requires d > 0 && n == d * q + r && r < d
    ensures n / d == q && n % d == r
  {
    var p := n / d;
    assert d * (q - p) == n % d - r;
    if q > p {
      MulAtLeast(d, q - p);
    } else if p > q {
      assert d * (p - q) == -(d * (q - p));
      MulAtLeast(d, p - q);
    }
  }

  /** Two floors never exceed the floor of the sum, and fall short of it by at most one:
      by none exactly when the remainders do not carry. */
  lemma FloorSum(a: nat, b: nat, d: nat)
    requires d > 0
    ensures a / d + b / d <= (a + b) / d <= a / d + b / d + 1
    ensures (a + b) / d == a / d + b / d <==> a % d + b % d < d
  {
    FloorSumOf(a, b, d, a / d, a % d, b / d, b % d);
  }

  lemma FloorSumOf(a: nat, b: nat, d: nat, p: nat, r: nat, q: nat, t: nat)
    requires d > 0 && r < d && t < d && a == d * p + r && b == d * q + t
    ensures (a + b) / d == if r + t < d then p + q else p + q + 1
  {
    assert d * (p + q) == d * p + d * q;
    if r + t < d {
      DivisionUnique(a + b, d, p + q, r + t);
    } else {
      assert d * (p + q + 1) == d * (p + q) + d;
      DivisionUnique(a + b, d, p + q + 1, r + t - d);
    }
  }

  lemma DivMonotone(a: nat, b: nat, d: nat)
    requires a <= b && d > 0
    ensures a / d <= b / d
  {
    FloorSum(a, b - a, d);
  }

  lemma MultipleModulo(d: nat, q: int)
    requires d > 0
    ensures (d * q) % d == 0
  {
    var n := d * q;
    var p := n / d;
    assert d * (q - p) == n % d;
    if q > p {
      MulAtLeast(d, q - p);
    } else if p > q {
      assert d * (p - q) == -(d * (q - p));
      MulAtLeast(d, p - q);
    }
  }

  /** Multiples stay multiples when one is added or taken away. */
  lemma MultiplesAdd(x: int, a: int, d: nat)
    requires d > 0 && x % d == 0 && a % d == 0
    ensures (x + a) % d == 0 && (x - a) % d == 0
  {
    var p, q := x / d, a / d;
    assert x == d * p && a == d * q;
    assert x + a == d * (p + q) && x - a == d * (p - q);
    MultipleModulo(d, p + q);
    MultipleModulo(d, p - q);
  }
}
