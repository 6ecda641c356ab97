/** Fractions of integers as real numbers, and the few facts about products of reals that
    the exact-arithmetic proofs use. */
module Rationals {

  ghost function Ratio(n: int, d: int): (x: real)
    requires d != 0
    ensures x * d as real == n as real
  {
    n as real / d as real
  }

  lemma RatioIs(n: int, d: int, x: real)
    requires d != 0 && x * d as real == n as real
    ensures Ratio(n, d) == x
  {}

  lemma ProductSign(x: real, p: real)
    requires p > 0.0
    ensures x > 0.0 <==> x * p > 0.0
    ensures x == 0.0 <==> x * p == 0.0
    ensures x < 0.0 <==> x * p < 0.0
  {}

  lemma ProductOrder(x: real, y: real, p: real)
    requires p > 0.0
    ensures x < y <==> x * p < y * p
    ensures x == y <==> x * p == y * p
  {
    ProductSign(x - y, p);
    assert (x - y) * p == x * p - y * p;
  }

  lemma ProductMonotone(x: real, y: real, p: real)
    requires p >= 0.0 && x <= y
    ensures x * p <= y * p
  {
    if p > 0.0 {
      ProductOrder(x, y, p);
    }
  }

  lemma Associate(x: real, p: real, q: real)
    ensures x * (p * q) == (x * p) * q
  {}

  lemma Distribute(x: real, y: real, p: real)
    ensures (x + y) * p == x * p + y * p
    ensures (x - y) * p == x * p - y * p
  {}

  lemma CastProduct(a: int, b: int)
    ensures (a * b) as real == a as real * b as real
  {}

  /** The quotient of two reals. */
  ghost function Over(x: real, y: real): (q: real)
    requires y != 0.0
    ensures q * y == x
  {
    x / y
  }

  lemma OverIs(x: real, y: real, q: real)
    requires y != 0.0 && q * y == x
    ensures Over(x, y) == q
  {}

  ghost function Scaled(x: real, p: int): real {
    x * p as real
  }

  /** Scaling numerator and denominator alike keeps the fraction. */
  lemma RatioScale(n: int, d: int, k: int)
    requires d != 0 && k != 0
    ensures d * k != 0 && Ratio(n * k, d * k) == Ratio(n, d)
  {
    hide Ratio;
    var x := Ratio(n, d);
    CastProduct(d, k);
    CastProduct(n, k);
    Associate(x, d as real, k as real);
    NonZeroProduct(d, k);
    RatioIs(n * k, d * k, x);
  }

  lemma NonZeroProduct(a: int, b: int)
    requires a != 0 && b != 0
    ensures a * b != 0
  {}

  lemma PositiveProduct(a: int, b: int)
    requires a > 0 && b > 0
    ensures a * b > 0
  {}

  lemma RatioSign(n: int, d: int)
    requires d > 0
    ensures Ratio(n, d) > 0.0 <==> n > 0
    ensures Ratio(n, d) == 0.0 <==> n == 0
    ensures Ratio(n, d) < 0.0 <==> n < 0
  {
    hide Ratio;
    ProductSign(Ratio(n, d), d as real);
  }

  lemma RatioOrder(a: int, b: int, d: int)
    requires d > 0
    ensures Ratio(a, d) < Ratio(b, d) <==> a < b
    ensures Ratio(a, d) == Ratio(b, d) <==> a == b
  {
    hide Ratio;
    ProductOrder(Ratio(a, d), Ratio(b, d), d as real);
  }

  lemma RatioSum(a: int, b: int, d: int)
    requires d != 0
    ensures Ratio(a + b, d) == Ratio(a, d) + Ratio(b, d)
    ensures Ratio(a - b, d) == Ratio(a, d) - Ratio(b, d)
  {
    hide Ratio;
    Distribute(Ratio(a, d), Ratio(b, d), d as real);
    RatioIs(a + b, d, Ratio(a, d) + Ratio(b, d));
    RatioIs(a - b, d, Ratio(a, d) - Ratio(b, d));
  }

  lemma RatioProduct(a: int, d: int, b: int, e: int)
    requires d != 0 && e != 0
    ensures d * e != 0 && Ratio(a * b, d * e) == Ratio(a, d) * Ratio(b, e)
  {
    hide Ratio;
    NonZeroProduct(d, e);
    var x, y := Ratio(a, d), Ratio(b, e);
    var p, q := d as real, e as real;
    CastProduct(d, e);
    CastProduct(a, b);
    calc {
      (x * y) * (p * q);
      { Associate(x * y, p, q); }
      ((x * y) * p) * q;
      { Associate(x, y, p); Associate(x, p, y); assert y * p == p * y; }
      ((x * p) * y) * q;
      { Associate(x * p, y, q); }
      (x * p) * (y * q);
    }
    RatioIs(a * b, d * e, x * y);
  }

  /** The floor of a fraction with a positive denominator is integer division. */
  lemma RatioFloor(n: int, d: int)
    requires d > 0
    ensures Ratio(n, d).Floor == n / d
  {
    hide Ratio;
    var q, r := n / d, n % d;
    assert n == d * q + r;
    CastProduct(d, q);
    var x := Ratio(n, d) - q as real;
    Distribute(Ratio(n, d), q as real, d as real);
    assert d as real * q as real == q as real * d as real;
    assert x * d as real == r as real;
    ProductSign(x, d as real);
    ProductOrder(x, 1.0, d as real);
  }
}
