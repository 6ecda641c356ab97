/** Exact base-10 decimals: an integer coefficient and a number of fractional digits.
    Every operation is tied to the rational number a decimal denotes. */
module Decimals {
  import opened Rationals

  datatype Result<+T> = Ok(value: T) | Err(message: string)

  datatype Decimal = Decimal(coefficient: int, scale: nat)

  const ZERO := Decimal(0, 0)

  function FromInt(n: int): Decimal {
    Decimal(n, 0)
  }

  function Pow10(n: nat): (p: nat)
    ensures p >= 1
  {
    if n == 0 then 1 else 10 * Pow10(n - 1)
  }

  lemma {:induction false} Pow10Add(a: nat, b: nat)
    ensures Pow10(a + b) == Pow10(a) * Pow10(b)
  {
    if a > 0 {
      Pow10Add(a - 1, b);
      assert Pow10(a) * Pow10(b) == 10 * (Pow10(a - 1) * Pow10(b));
    }
  }

  /** The rational number a decimal denotes. */
  ghost function Val(d: Decimal): real {
    Ratio(d.coefficient, Pow10(d.scale))
  }

  // ---------------------------------------------------------------------------
  // Normal form
  // ---------------------------------------------------------------------------

  predicate IsNormal(d: Decimal) {
    if d.coefficient == 0 then d.scale == 0 else d.scale == 0 || d.coefficient % 10 != 0
  }

  /** Strips trailing fractional zeros; zero has scale 0. */
  function Normal(d: Decimal): Decimal
    decreases d.scale
  {
    if d.coefficient == 0 then ZERO
    else if d.scale > 0 && d.coefficient % 10 == 0 then Normal(Decimal(d.coefficient / 10, d.scale - 1))
    else d
  }

  method Normalize(d: Decimal) returns (r: Decimal)
    ensures r == Normal(d)
    ensures IsNormal(r) && Val(r) == Val(d)
  {
    NormalKeepsValue(d);
    if d.coefficient == 0 {
      return ZERO;
    }
    var value, scale := d.coefficient, d.scale;
    while scale > 0
      invariant value != 0
      invariant Normal(Decimal(value, scale)) == Normal(d)
      decreases scale
    {
      if value % 10 != 0 {
        break;
      }
      value, scale := value / 10, scale - 1;
    }
    r := Decimal(value, scale);
  }

  lemma {:induction false} NormalKeepsValue(d: Decimal)
    ensures IsNormal(Normal(d)) && Val(Normal(d)) == Val(d)
    decreases d.scale
  {
    hide Ratio;
    if d.coefficient == 0 {
      RatioSign(0, Pow10(d.scale));
      RatioSign(0, Pow10(0));
    } else if d.scale > 0 && d.coefficient % 10 == 0 {
      var q, p := d.coefficient / 10, Pow10(d.scale - 1);
      RatioScale(q, p, 10);
      assert q * 10 == d.coefficient && p * 10 == Pow10(d.scale);
      NormalKeepsValue(Decimal(q, d.scale - 1));
    }
  }

  lemma NormalIsIdempotent(d: Decimal)
    ensures Normal(Normal(d)) == Normal(d)
    ensures IsNormal(d) ==> Normal(d) == d
  {
    NormalKeepsValue(d);
  }

  /** The coefficient a decimal has at a wider scale. */
  function Widen(d: Decimal, scale: nat): int
    requires d.scale <= scale
  {
    d.coefficient * Pow10(scale - d.scale)
  }

  lemma WidenVal(d: Decimal, scale: nat)
    requires d.scale <= scale
    ensures Val(Decimal(Widen(d, scale), scale)) == Val(d)
    ensures Val(d) == Ratio(Widen(d, scale), Pow10(scale))
  {
    hide Ratio;
    Pow10Add(d.scale, scale - d.scale);
    RatioScale(d.coefficient, Pow10(d.scale), Pow10(scale - d.scale));
  }

  /** Two normal decimals with one value are the same decimal. */
  lemma NormalIsUnique(a: Decimal, b: Decimal)
    requires IsNormal(a) && IsNormal(b) && Val(a) == Val(b)
    ensures a == b
  {
    if a.scale <= b.scale {
      NarrowerIsEqual(a, b);
    } else {
      NarrowerIsEqual(b, a);
    }
  }

  lemma NarrowerIsEqual(a: Decimal, b: Decimal)
    requires IsNormal(a) && IsNormal(b) && Val(a) == Val(b) && a.scale <= b.scale
    ensures a == b
  {
    hide Ratio;
    WidenVal(a, b.scale);
    RatioOrder(Widen(a, b.scale), b.coefficient, Pow10(b.scale));
    assert b.coefficient == Widen(a, b.scale);
    if a.scale < b.scale {
      TrailingZero(a.coefficient, b.scale - a.scale);
    } else {
      assert Pow10(0) == 1;
    }
  }

  lemma TrailingZero(c: int, k: nat)
    requires k > 0
    ensures (c * Pow10(k)) % 10 == 0
    ensures c == 0 ==> c * Pow10(k) == 0
  {
    assert c * Pow10(k) == 10 * (c * Pow10(k - 1));
  }

  // ---------------------------------------------------------------------------
  // Exact operations
  // ---------------------------------------------------------------------------

  function CommonScale(a: Decimal, b: Decimal): nat {
    if Normal(a).scale > Normal(b).scale then Normal(a).scale else Normal(b).scale
  }

  /** Both coefficients at the common scale. */
  function Align(a: Decimal, b: Decimal): (int, int) {
    (Widen(Normal(a), CommonScale(a, b)), Widen(Normal(b), CommonScale(a, b)))
  }

  lemma AlignVal(a: Decimal, b: Decimal)
    ensures Val(a) == Ratio(Align(a, b).0, Pow10(CommonScale(a, b)))
    ensures Val(b) == Ratio(Align(a, b).1, Pow10(CommonScale(a, b)))
  {
    hide Ratio;
    NormalKeepsValue(a);
    NormalKeepsValue(b);
    WidenVal(Normal(a), CommonScale(a, b));
    WidenVal(Normal(b), CommonScale(a, b));
  }

  function Add(a: Decimal, b: Decimal): Decimal {
    Normal(Decimal(Align(a, b).0 + Align(a, b).1, CommonScale(a, b)))
  }

  function Sub(a: Decimal, b: Decimal): Decimal {
    Normal(Decimal(Align(a, b).0 - Align(a, b).1, CommonScale(a, b)))
  }

  function Mul(a: Decimal, b: Decimal): Decimal {
    Normal(Decimal(Normal(a).coefficient * Normal(b).coefficient, Normal(a).scale + Normal(b).scale))
  }

  function Neg(a: Decimal): Decimal {
    Normal(Decimal(-Normal(a).coefficient, Normal(a).scale))
  }

  function Abs(a: Decimal): Decimal {
    if Normal(a).coefficient >= 0 then Normal(a)
    else Normal(Decimal(-Normal(a).coefficient, Normal(a).scale))
  }

  function Cmp(a: Decimal, b: Decimal): int {
    if Align(a, b).0 < Align(a, b).1 then -1 else if Align(a, b).0 == Align(a, b).1 then 0 else 1
  }

  predicate IsPositive(a: Decimal) {
    a.coefficient > 0
  }

  lemma AddIsExact(a: Decimal, b: Decimal)
    ensures Val(Add(a, b)) == Val(a) + Val(b) && IsNormal(Add(a, b))
    ensures Val(Sub(a, b)) == Val(a) - Val(b) && IsNormal(Sub(a, b))
  {
    hide Ratio, Normal, Align;
    var k, l, r := CommonScale(a, b), Align(a, b).0, Align(a, b).1;
    AlignVal(a, b);
    NormalKeepsValue(Decimal(l + r, k));
    NormalKeepsValue(Decimal(l - r, k));
    RatioSum(l, r, Pow10(k));
  }

  lemma MulIsExact(a: Decimal, b: Decimal)
    ensures Val(Mul(a, b)) == Val(a) * Val(b) && IsNormal(Mul(a, b))
  {
    hide Ratio, Normal;
    var x, y := Normal(a), Normal(b);
    NormalKeepsValue(a);
    NormalKeepsValue(b);
    NormalKeepsValue(Decimal(x.coefficient * y.coefficient, x.scale + y.scale));
    Pow10Add(x.scale, y.scale);
    RatioProduct(x.coefficient, Pow10(x.scale), y.coefficient, Pow10(y.scale));
  }

  lemma NegAbsAreExact(a: Decimal)
    ensures Val(Neg(a)) == -Val(a) && IsNormal(Neg(a))
    ensures Val(Abs(a)) == (if Val(a) >= 0.0 then Val(a) else -Val(a)) && IsNormal(Abs(a))
  {
    hide Ratio, Normal;
    var x := Normal(a);
    NormalKeepsValue(a);
    NormalKeepsValue(Decimal(-x.coefficient, x.scale));
    RatioSum(0, x.coefficient, Pow10(x.scale));
    RatioSign(0, Pow10(x.scale));
    RatioSign(x.coefficient, Pow10(x.scale));
  }

  /** Comparison is comparison of the denoted rationals. */
  lemma CmpIsExact(a: Decimal, b: Decimal)
    ensures Cmp(a, b) < 0 <==> Val(a) < Val(b)
    ensures Cmp(a, b) == 0 <==> Val(a) == Val(b)
    ensures Cmp(a, b) > 0 <==> Val(a) > Val(b)
    ensures IsPositive(a) <==> Val(a) > 0.0
  {
    hide Ratio, Align;
    AlignVal(a, b);
    RatioOrder(Align(a, b).0, Align(a, b).1, Pow10(CommonScale(a, b)));
    RatioSign(a.coefficient, Pow10(a.scale));
  }

  // ---------------------------------------------------------------------------
  // Truncating division
  // ---------------------------------------------------------------------------

  /** Integer division rounding toward zero. */
  function Quo(n: int, m: int): int
    requires m != 0
  {
    var q := (if n < 0 then -n else n) / (if m < 0 then -m else m);
    if (n < 0) == (m < 0) then q else -q
  }

  /** x without its fractional part. */
  ghost function Trunc(x: real): int {
    if x >= 0.0 then x.Floor else -((-x).Floor)
  }

  /** x cut toward zero to a multiple of 1/p. */
  ghost function TruncatedAt(x: real, p: int): real
    requires p > 0
  {
    Ratio(Trunc(Scaled(x, p)), p)
  }

  /** x cut toward zero to `scale` fractional digits. */
  ghost function Truncated(x: real, scale: nat): real {
    TruncatedAt(x, Pow10(scale))
  }

  function QuoFloor(d: Decimal, divisor: Decimal, scale: int): Result<Decimal> {
    var n, m := Normal(d), Normal(divisor);
    if m.coefficient == 0 then Err("decimal division by zero")
    else if scale < 0 then Err("decimal scale must be non-negative")
    else
      NonZeroProduct(m.coefficient, Pow10(n.scale));
      Ok(Normal(Decimal(Quo(n.coefficient * Pow10(m.scale + scale), m.coefficient * Pow10(n.scale)), scale)))
  }

  lemma TruncatedIs(x: real, p: int, t: int)
    requires p > 0 && t == Trunc(Scaled(x, p))
    ensures TruncatedAt(x, p) == Ratio(t, p)
  {}

  /** QuoFloor truncates toward zero, for negative quotients too. */
  lemma QuoFloorTruncates(d: Decimal, divisor: Decimal, scale: int)
    ensures QuoFloor(d, divisor, scale).Ok? <==> Val(divisor) != 0.0 && scale >= 0
    ensures QuoFloor(d, divisor, scale).Ok? ==>
              IsNormal(QuoFloor(d, divisor, scale).value)
              && Val(QuoFloor(d, divisor, scale).value) == Truncated(Over(Val(d), Val(divisor)), scale)
  {
    hide Ratio, Normal, Quo, Trunc, Pow10, TruncatedAt;
    var n, m := Normal(d), Normal(divisor);
    NormalKeepsValue(d);
    NormalKeepsValue(divisor);
    RatioSign(m.coefficient, Pow10(m.scale));
    if m.coefficient != 0 && scale >= 0 {
      QuoFloorNormal(n, m, scale);
    }
  }

  lemma QuoFloorNormal(n: Decimal, m: Decimal, scale: nat)
    requires m.coefficient != 0
    ensures m.coefficient * Pow10(n.scale) != 0 && Val(m) != 0.0
    ensures var r := Decimal(Quo(n.coefficient * Pow10(m.scale + scale), m.coefficient * Pow10(n.scale)), scale);
            IsNormal(Normal(r)) && Val(Normal(r)) == Truncated(Over(Val(n), Val(m)), scale)
  {
    hide Ratio, Normal, Quo, Trunc, Pow10, TruncatedAt;
    Pow10Add(m.scale, scale);
    QuoAtScale(n.coefficient, Pow10(n.scale), m.coefficient, Pow10(m.scale), Pow10(scale), Pow10(m.scale + scale));
    hide *;
    NormalKeepsValue(Decimal(Quo(n.coefficient * Pow10(m.scale + scale), m.coefficient * Pow10(n.scale)), scale));
  }

  lemma QuoAtScale(n: int, pn: int, m: int, pm: int, ps: int, p: int)
    requires m != 0 && pn > 0 && pm > 0 && ps > 0 && p == pm * ps
    ensures m * pn != 0 && Ratio(m, pm) != 0.0
    ensures TruncatedAt(Over(Ratio(n, pn), Ratio(m, pm)), ps) == Ratio(Quo(n * p, m * pn), ps)
  {
    hide Ratio, Quo, Trunc, TruncatedAt, Over, Scaled;
    ScaledQuotient(n, pn, m, pm, ps, p);
    QuoIsTrunc(n * p, m * pn);
    TruncatedIs(Over(Ratio(n, pn), Ratio(m, pm)), ps, Quo(n * p, m * pn));
  }

  /** The integer quotient that QuoFloor takes is the real quotient scaled up. */
  lemma ScaledQuotient(n: int, pn: int, m: int, pm: int, ps: int, p: int)
    requires m != 0 && pn > 0 && pm > 0 && ps > 0 && p == pm * ps
    ensures m * pn != 0 && Ratio(m, pm) != 0.0
    ensures Ratio(n * p, m * pn) == Scaled(Over(Ratio(n, pn), Ratio(m, pm)), ps)
  {
    hide Ratio, Over;
    NonZeroProduct(m, pn);
    RatioSign(m, pm);
    var q := Over(Ratio(n, pn), Ratio(m, pm));
    CastProduct(m, pn);
    CastProduct(pm, ps);
    CastProduct(n, p);
    CrossMultiply(q, ps as real, Ratio(m, pm), pm as real, m as real, Ratio(n, pn), pn as real, n as real);
    RatioIs(n * p, m * pn, q * ps as real);
  }

  lemma CrossMultiply(q: real, s: real, y: real, pm: real, m: real, x: real, pn: real, n: real)
    requires y * pm == m && x * pn == n && q * y == x
    ensures q * s * (m * pn) == n * (pm * s)
  {
    calc {
      q * s * ((y * pm) * pn);
      { Shuffle(q, s, y, pm, pn); }
      ((q * y) * pn) * (pm * s);
    }
  }

  lemma Shuffle(q: real, s: real, y: real, m: real, n: real)
    ensures q * s * ((y * m) * n) == ((q * y) * n) * (m * s)
  {}

  lemma QuoIsTrunc(n: int, m: int)
    requires m != 0
    ensures Quo(n, m) == Trunc(Ratio(n, m))
  {
    hide Ratio;
    if m > 0 {
      QuoIsTruncPositive(n, m);
    } else {
      RatioScale(n, m, -1);
      QuoIsTruncPositive(-n, -m);
    }
  }

  lemma QuoIsTruncPositive(n: int, m: int)
    requires m > 0
    ensures Quo(n, m) == Trunc(Ratio(n, m))
  {
    hide Ratio;
    RatioSign(n, m);
    if n >= 0 {
      RatioFloor(n, m);
    } else {
      RatioSum(0, n, m);
      RatioSign(0, m);
      RatioFloor(-n, m);
    }
  }

  /** The truncation lies within one unit of the last digit kept, on the zero side. */
  lemma TruncatedBounds(x: real, scale: nat)
    ensures x >= 0.0 ==> 0.0 <= Truncated(x, scale) <= x < Truncated(x, scale) + Ratio(1, Pow10(scale))
    ensures x <= 0.0 ==> Truncated(x, scale) - Ratio(1, Pow10(scale)) < x <= Truncated(x, scale) <= 0.0
  {
    TruncBounds(x, Pow10(scale));
  }

  lemma TruncBounds(x: real, p: int)
    requires p > 0
    ensures x >= 0.0 ==> 0.0 <= TruncatedAt(x, p) <= x < TruncatedAt(x, p) + Ratio(1, p)
    ensures x <= 0.0 ==> TruncatedAt(x, p) - Ratio(1, p) < x <= TruncatedAt(x, p) <= 0.0
  {
    var y := Scaled(x, p);
    var t := Trunc(y);
    TruncatedIs(x, p, t);
    hide TruncatedAt, Ratio;
    ProductSign(x, p as real);
    TruncNear(y);
    hide Trunc;
    RatioSign(t, p);
    RatioSum(t, 1, p);
    RatioAgainst(x, y, t, p);
    RatioAgainst(x, y, t + 1, p);
    RatioAgainst(x, y, t - 1, p);
  }

  lemma TruncNear(y: real)
    ensures y >= 0.0 ==> 0 <= Trunc(y) && Trunc(y) as real <= y < (Trunc(y) + 1) as real
    ensures y <= 0.0 ==> (Trunc(y) - 1) as real < y <= Trunc(y) as real && Trunc(y) <= 0
  {}

  lemma RatioAgainst(x: real, y: real, t: int, p: int)
    requires p > 0 && y == Scaled(x, p)
    ensures x < Ratio(t, p) <==> y < t as real
    ensures x == Ratio(t, p) <==> y == t as real
  {
    ProductOrder(x, Ratio(t, p), p as real);
  }

  /** A value with no more than `scale` fractional digits is not changed. */
  lemma TruncatedExact(c: int, scale: nat)
    ensures Truncated(Ratio(c, Pow10(scale)), scale) == Ratio(c, Pow10(scale))
  {
    hide Ratio;
    assert Scaled(Ratio(c, Pow10(scale)), Pow10(scale)) == c as real;
    assert Trunc(c as real) == c;
  }

  // ---------------------------------------------------------------------------
  // Flooring to a step
  // ---------------------------------------------------------------------------

  function FloorToStep(d: Decimal, step: Decimal): Result<Decimal> {
    var v, s := Normal(d), Normal(step);
    if s.coefficient <= 0 then Err("decimal step must be greater than zero")
    else if v.coefficient < 0 then Err("decimal floor to step requires a non-negative value")
    else
      var scale := if s.scale > v.scale then s.scale else v.scale;
      NonZeroProduct(s.coefficient, Pow10(scale - s.scale));
      Ok(Normal(Decimal(Quo(Widen(v, scale), Widen(s, scale)) * Widen(s, scale), scale)))
  }

  /** The multiple of step at or below x that lies nearest to it. */
  ghost function StepFloor(x: real, step: real): real
    requires step > 0.0
  {
    Times(Over(x, step).Floor, step)
  }

  ghost predicate IsMultiple(x: real, step: real) {
    exists k: int :: Times(k, step) == x
  }

  ghost function Times(k: int, step: real): real {
    k as real * step
  }

  lemma StepFloorBounds(x: real, step: real)
    requires step > 0.0
    ensures StepFloor(x, step) <= x < StepFloor(x, step) + step
    ensures IsMultiple(StepFloor(x, step), step)
    ensures x >= 0.0 ==> StepFloor(x, step) >= 0.0
  {
    var q := Over(x, step);
    assert StepFloor(x, step) == Times(q.Floor, step);
    hide StepFloor, Over;
    TimesAgainst(q, x, q.Floor, step);
    TimesAgainst(q, x, q.Floor + 1, step);
    TimesNext(q.Floor, step);
    TimesAgainst(q, x, 0, step);
    TimesOrder(0, q.Floor, step);
  }

  lemma TimesNext(k: int, step: real)
    ensures Times(k + 1, step) == Times(k, step) + step
    ensures Times(0, step) == 0.0
  {}

  lemma TimesOrder(j: int, k: int, step: real)
    requires step > 0.0
    ensures j <= k ==> Times(j, step) <= Times(k, step)
  {
    if j <= k {
      ProductMonotone(j as real, k as real, step);
    }
  }

  lemma TimesAgainst(q: real, x: real, k: int, step: real)
    requires step > 0.0 && q == Over(x, step)
    ensures Times(k, step) <= x <==> k as real <= q
    ensures Times(k, step) == x <==> k as real == q
  {
    ProductOrder(k as real, q, step);
    ProductOrder(q, k as real, step);
  }

  /** Any multiple of the step that does not exceed x does not exceed its floor. */
  lemma StepFloorIsGreatest(x: real, step: real, m: real)
    requires step > 0.0 && m <= x && IsMultiple(m, step)
    ensures m <= StepFloor(x, step)
  {
    var k: int :| Times(k, step) == m;
    var q := Over(x, step);
    assert StepFloor(x, step) == Times(q.Floor, step);
    hide StepFloor, Over;
    TimesAgainst(q, x, k, step);
    TimesOrder(k, q.Floor, step);
  }

  /** A multiple of the step is its own floor. */
  lemma StepFloorOfMultiple(x: real, step: real)
    requires step > 0.0
    ensures IsMultiple(x, step) <==> StepFloor(x, step) == x
  {
    StepFloorBounds(x, step);
    if IsMultiple(x, step) {
      StepFloorIsGreatest(x, step, x);
    }
  }

  lemma FloorToStepIsStepFloor(d: Decimal, step: Decimal)
    ensures FloorToStep(d, step).Ok? <==> Val(step) > 0.0 && Val(d) >= 0.0
    ensures FloorToStep(d, step).Ok? ==>
              IsNormal(FloorToStep(d, step).value)
              && Val(FloorToStep(d, step).value) == StepFloor(Val(d), Val(step))
  {
    hide Ratio, Normal;
    var v, s := Normal(d), Normal(step);
    NormalKeepsValue(d);
    NormalKeepsValue(step);
    RatioSign(s.coefficient, Pow10(s.scale));
    RatioSign(v.coefficient, Pow10(v.scale));
    if s.coefficient > 0 && v.coefficient >= 0 {
      var scale := if s.scale > v.scale then s.scale else v.scale;
      WidenVal(v, scale);
      WidenVal(s, scale);
      PositiveProduct(s.coefficient, Pow10(scale - s.scale));
      FlooredCoefficient(Widen(v, scale), Widen(s, scale), Pow10(scale));
      NonNegativeProduct(v.coefficient, Pow10(scale - v.scale));
      NormalKeepsValue(Decimal(Quo(Widen(v, scale), Widen(s, scale)) * Widen(s, scale), scale));
    }
  }

  lemma NonNegativeProduct(a: int, b: int)
    requires a >= 0 && b >= 0
    ensures a * b >= 0
  {}

  lemma FlooredCoefficient(v: int, s: int, p: int)
    requires s > 0 && p > 0
    ensures Ratio(s, p) > 0.0
    ensures v >= 0 ==> Ratio(Quo(v, s) * s, p) == StepFloor(Ratio(v, p), Ratio(s, p))
  {
    hide Ratio;
    RatioSign(s, p);
    if v >= 0 {
      var q := v / s;
      RatioFloor(v, s);
      RatioProduct(v, s, s, p);
      RatioScale(v, p, s);
      assert s * p == p * s;
      OverIs(Ratio(v, p), Ratio(s, p), Ratio(v, s));
      CastProduct(q, s);
      Associate(q as real, Ratio(s, p), p as real);
      RatioIs(q * s, p, q as real * Ratio(s, p));
    }
  }

  // ---------------------------------------------------------------------------
  // Cutting and flooring
  // ---------------------------------------------------------------------------

  /** For x >= 0, cutting to `scale` decimals is flooring to that unit. */
  lemma TruncatedIsGreatest(x: real, scale: nat, m: real)
    requires x >= 0.0 && m <= x && IsMultiple(m, Ratio(1, Pow10(scale)))
    ensures m <= Truncated(x, scale)
  {
    hide Truncated, Pow10, Ratio;
    var unit := Ratio(1, Pow10(scale));
    RatioSign(1, Pow10(scale));
    TruncatedBounds(x, scale);
    TruncatedIsMultiple(x, scale);
    NoMultipleBetween(m, Truncated(x, scale), unit);
  }

  lemma NoMultipleBetween(m: real, t: real, unit: real)
    requires unit > 0.0 && IsMultiple(m, unit) && IsMultiple(t, unit) && m < t + unit
    ensures m <= t
  {
    var j: int :| Times(j, unit) == m;
    var k: int :| Times(k, unit) == t;
    hide Times;
    TimesNext(k, unit);
    if j > k {
      TimesOrder(k + 1, j, unit);
    } else {
      TimesOrder(j, k, unit);
    }
  }

  lemma TruncatedIsMultiple(x: real, scale: nat)
    ensures IsMultiple(Truncated(x, scale), Ratio(1, Pow10(scale)))
  {
    hide Pow10;
    var p := Pow10(scale);
    var t := Trunc(Scaled(x, p));
    assert Truncated(x, scale) == Ratio(t, p);
    UnitTimes(t, p);
  }

  lemma UnitTimes(t: int, p: int)
    requires p > 0
    ensures Times(t, Ratio(1, p)) == Ratio(t, p)
  {
    var unit := Ratio(1, p);
    Associate(t as real, unit, p as real);
    RatioIs(t, p, t as real * unit);
  }

  /** Cutting to a scale floors exactly the non-negative numbers and those that need no cut. */
  lemma TruncatedIsFloorExactly(x: real, scale: nat)
    ensures Ratio(1, Pow10(scale)) > 0.0
    ensures Truncated(x, scale) == StepFloor(x, Ratio(1, Pow10(scale))) <==>
              x >= 0.0 || IsMultiple(x, Ratio(1, Pow10(scale)))
  {
    hide Truncated, Pow10, Ratio, StepFloor, IsMultiple;
    var unit := Ratio(1, Pow10(scale));
    RatioSign(1, Pow10(scale));
    TruncatedBounds(x, scale);
    TruncatedIsMultiple(x, scale);
    StepFloorBounds(x, unit);
    StepFloorOfMultiple(x, unit);
    if x >= 0.0 {
      TruncatedIsGreatest(x, scale, StepFloor(x, unit));
      StepFloorIsGreatest(x, unit, Truncated(x, scale));
    } else if IsMultiple(x, unit) {
      NoMultipleBetween(Truncated(x, scale), x, unit);
    }
  }

  /** Minus one half: cut to zero, though its floor is minus one. */
  lemma NegativeHalfIsCut()
    ensures QuoFloor(Decimal(-1, 0), Decimal(2, 0), 0) == Ok(ZERO)
    ensures StepFloor(Over(Val(Decimal(-1, 0)), Val(Decimal(2, 0))), 1.0) == -1.0
  {
    RatioIs(-1, 1, -1.0);
    RatioIs(2, 1, 2.0);
    OverIs(-1.0, 2.0, -0.5);
    OverIs(-0.5, 1.0, -0.5);
    assert (-0.5).Floor == -1;
    assert Times(-1, 1.0) == -1.0;
  }
}
