/** The scalar helpers of the math library the flight model is written
    against (clamp, min, max, mix, smoothstep, degree/radian conversion), over
    the reals, and the transcendental functions it calls, kept uninterpreted. */
module Scalars {
  import opened Wrappers

  /** min(a, b) of the math library: `b < a ? b : a`. */
  function Min(a: real, b: real): real {
    if b < a then b else a
  }

  /** max(a, b) of the math library: `a < b ? b : a`. */
  function Max(a: real, b: real): real {
    if a < b then b else a
  }

  /** clamp(x, lo, hi) of the math library, `min(max(x, lo), hi)`; when the
      bounds are crossed the upper one wins. */
  function Clamp(x: real, lo: real, hi: real): (r: real)
    ensures lo <= hi ==> lo <= r <= hi
    ensures lo <= x <= hi ==> r == x
    ensures x <= lo <= hi ==> r == lo
    ensures lo <= hi <= x ==> r == hi
    ensures hi < lo ==> r == hi
  {
    Min(Max(x, lo), hi)
  }

  /** Clamping twice is clamping once, whatever the bounds. */
  lemma ClampIdempotent(x: real, lo: real, hi: real)
    ensures Clamp(Clamp(x, lo, hi), lo, hi) == Clamp(x, lo, hi)
  {
  }

  /** Clamp is monotone in its argument. */
  lemma ClampMonotone(x: real, y: real, lo: real, hi: real)
    requires x <= y
    ensures Clamp(x, lo, hi) <= Clamp(y, lo, hi)
  {
  }

  function Abs(x: real): (r: real)
    ensures r >= 0.0 && (r == x || r == -x)
  {
    if x < 0.0 then -x else x
  }

  /** mix(a, b, t) of the math library: `a * (1 - t) + b * t`. */
  function Mix(a: real, b: real, t: real): (r: real)
    ensures t == 0.0 ==> r == a
    ensures t == 1.0 ==> r == b
    ensures 0.0 <= t <= 1.0 ==> Min(a, b) <= r <= Max(a, b)
  {
    if 0.0 <= t <= 1.0 then
      MixBetween(a, b, t);
      a * (1.0 - t) + b * t
    else
      a * (1.0 - t) + b * t
  }

  lemma MixBetween(a: real, b: real, t: real)
    requires 0.0 <= t <= 1.0
    ensures Min(a, b) <= a * (1.0 - t) + b * t <= Max(a, b)
  {
    assert a * (1.0 - t) + b * t == a + t * (b - a);
    if a <= b {
      MulNonNegative(t, b - a);
      MulNonNegative(1.0 - t, b - a);
    } else {
      MulNonNegative(t, a - b);
      MulNonNegative(1.0 - t, a - b);
    }
  }

  lemma MulNonNegative(x: real, y: real)
    requires 0.0 <= x && 0.0 <= y
    ensures 0.0 <= x * y
  {
  }

  lemma SquareNonNegative(a: real)
    ensures 0.0 <= a * a
  {
    if a < 0.0 {
      MulNonNegative(-a, -a);
    } else {
      MulNonNegative(a, a);
    }
  }

  /** The cubic t * t * (3 - 2 * t) used by smoothstep. */
  function Cubic(t: real): real {
    t * t * (3.0 - 2.0 * t)
  }

  lemma CubicInUnit(t: real)
    requires 0.0 <= t <= 1.0
    ensures 0.0 <= Cubic(t) <= 1.0
  {
    MulNonNegative(t, t);
    MulNonNegative(t * t, 3.0 - 2.0 * t);
    assert 1.0 - Cubic(t) == (1.0 - t) * (1.0 - t) * (1.0 + 2.0 * t);
    MulNonNegative(1.0 - t, 1.0 - t);
    MulNonNegative((1.0 - t) * (1.0 - t), 1.0 + 2.0 * t);
  }

  /** smoothstep(edge0, edge1, x) of the math library: the cubic applied to
      clamp((x - edge0) / (edge1 - edge0), 0, 1).  With equal edges the float
      quotient is an infinity (x off the edge), which the clamp saturates, or
      0/0 = NaN (x on the edge), which is `None` here. */
  function Smoothstep(edge0: real, edge1: real, x: real): (r: Option<real>)
    ensures r.None? <==> edge0 == edge1 == x
    ensures r.Some? ==> 0.0 <= r.value <= 1.0
    ensures edge0 <= edge1 && x < edge0 ==> r == Some(0.0)
    ensures edge0 < edge1 && x <= edge0 ==> r == Some(0.0)
    ensures edge0 <= edge1 && edge1 < x ==> r == Some(1.0)
    ensures edge0 < edge1 && edge1 <= x ==> r == Some(1.0)
  {
    if edge1 - edge0 == 0.0 then
      if x < edge0 then Some(0.0) else if x > edge0 then Some(1.0) else None
    else
      var q := (x - edge0) / (edge1 - edge0);
      var t := Clamp(q, 0.0, 1.0);
      CubicInUnit(t);
      QuotientBounds(x - edge0, edge1 - edge0);
      Some(Cubic(t))
  }

  /** Where a quotient with a positive divisor lies relative to 0 and 1. */
  lemma QuotientBounds(n: real, d: real)
    requires d != 0.0
    ensures 0.0 < d && n <= 0.0 ==> n / d <= 0.0
    ensures 0.0 < d && d <= n ==> 1.0 <= n / d
  {
    if 0.0 < d && n <= 0.0 {
      MulNonNegative(-n, 1.0 / d);
      assert n / d == n * (1.0 / d);
    }
    if 0.0 < d && d <= n {
      assert n / d == 1.0 + (n - d) / d;
      MulNonNegative(n - d, 1.0 / d);
      assert (n - d) / d == (n - d) * (1.0 / d);
    }
  }

  /** A quotient times its divisor is the dividend, and it is zero exactly
      when the dividend is. */
  lemma QuotientCancels(n: real, d: real)
    requires d != 0.0
    ensures n / d * d == n
    ensures n / d == 0.0 <==> n == 0.0
  {
    if n / d == 0.0 {
      assert n == n / d * d;
    }
  }

  /** `static_cast<int>(flag)` used as a factor. */
  function Indicator(b: bool): real {
    if b then 1.0 else 0.0
  }

  /** M_PI. */
  const Pi: real := 3.14159265358979323846

  /** radians(deg) of the math library, which multiplies by pi / 180. */
  function Radians(deg: real): real {
    deg * 0.01745329251994329576923690768489
  }

  /** degrees(rad) of the math library, which multiplies by 180 / pi. */
  function Degrees(rad: real): real {
    rad * 57.295779513082320876798154814105
  }

  /** The transcendental functions the flight model calls.  Nothing is
      assumed about them beyond `Lawful`. */
  datatype Transcendentals = Transcendentals(
    cos: real -> real,
    sin: real -> real,
    sqrt: real -> real,
    atan2: (real, real) -> real)

  /** The only facts about the transcendental functions that the proofs use.
      (`sqrt(0) == 0` follows from the first line over the reals, but the
      solver does not find that step, so it is stated.) */
  ghost predicate Lawful(m: Transcendentals) {
    && (forall x :: 0.0 <= x ==> 0.0 <= m.sqrt(x) && m.sqrt(x) * m.sqrt(x) == x)
    && m.sqrt(0.0) == 0.0
    && m.cos(0.0) == 1.0
    && m.sin(0.0) == 0.0
    && m.atan2(0.0, 1.0) == 0.0
  }

  /** Under `Lawful`, a square root is zero exactly at zero and positive
      elsewhere. */
  lemma SqrtZero(m: Transcendentals, x: real)
    requires Lawful(m) && 0.0 <= x
    ensures m.sqrt(x) == 0.0 <==> x == 0.0
    ensures x > 0.0 ==> m.sqrt(x) > 0.0
  {
    assert m.sqrt(x) * m.sqrt(x) == x;
  }
}
