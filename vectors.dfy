/** The vector and quaternion operations of the math library that the flight
    model uses, over the reals.  Square roots, sines and cosines come from a
    `Transcendentals` bundle; a division by zero that the library performs
    without a guard yields `NaN` here. */
module Vectors {
  import opened Wrappers
  import opened Scalars

  datatype Vec3 = Vec3(x: real, y: real, z: real)

  const Zero: Vec3 := Vec3(0.0, 0.0, 0.0)

  function Add(a: Vec3, b: Vec3): Vec3 {
    Vec3(a.x + b.x, a.y + b.y, a.z + b.z)
  }

  function Sub(a: Vec3, b: Vec3): Vec3 {
    Vec3(a.x - b.x, a.y - b.y, a.z - b.z)
  }

  function Neg(a: Vec3): Vec3 {
    Vec3(-a.x, -a.y, -a.z)
  }

  /** `v * k` for a vector and a scalar. */
  function Scale(v: Vec3, k: real): Vec3 {
    Vec3(v.x * k, v.y * k, v.z * k)
  }

  function Dot(a: Vec3, b: Vec3): real {
    a.x * b.x + a.y * b.y + a.z * b.z
  }

  function Cross(a: Vec3, b: Vec3): Vec3 {
    Vec3(a.y * b.z - a.z * b.y, a.z * b.x - a.x * b.z, a.x * b.y - a.y * b.x)
  }

  /** A cross product is orthogonal to both of its factors. */
  lemma CrossOrthogonal(a: Vec3, b: Vec3)
    ensures Dot(Cross(a, b), a) == 0.0
    ensures Dot(Cross(a, b), b) == 0.0
  {
  }

  /** Scaling a vector scales its dot products. */
  lemma DotScale(a: Vec3, b: Vec3, k: real)
    ensures Dot(Scale(a, k), b) == k * Dot(a, b)
  {
  }

  /** A quaternion `(w, x, y, z)`, w first as the library's constructor takes it. */
  datatype Quat = Quat(w: real, x: real, y: real, z: real)

  const Identity: Quat := Quat(1.0, 0.0, 0.0, 0.0)

  function QuatDot(p: Quat, q: Quat): real {
    p.w * q.w + p.x * q.x + p.y * q.y + p.z * q.z
  }

  /** The vector part of a quaternion. */
  function Axis(q: Quat): Vec3 {
    Vec3(q.x, q.y, q.z)
  }

  /** `q * v`, computed as the library does: with `uv = cross(q.xyz, v)` and
      `uuv = cross(q.xyz, uv)`, the result is `v + (uv * w + uuv) * 2`. */
  function Rotate(q: Quat, v: Vec3): Vec3 {
    var uv := Cross(Axis(q), v);
    var uuv := Cross(Axis(q), uv);
    Add(v, Scale(Add(Scale(uv, q.w), uuv), 2.0))
  }

  /** The identity quaternion leaves every vector where it is. */
  lemma RotateIdentity(v: Vec3)
    ensures Rotate(Identity, v) == v
  {
    assert Axis(Identity) == Zero;
    assert Cross(Zero, v) == Zero;
    assert Cross(Zero, Zero) == Zero;
  }

  /** The Hamilton product `p * q`. */
  function QuatMul(p: Quat, q: Quat): Quat {
    Quat(
      p.w * q.w - p.x * q.x - p.y * q.y - p.z * q.z,
      p.w * q.x + p.x * q.w + p.y * q.z - p.z * q.y,
      p.w * q.y + p.y * q.w + p.z * q.x - p.x * q.z,
      p.w * q.z + p.z * q.w + p.x * q.y - p.y * q.x)
  }

  function Conjugate(q: Quat): Quat {
    Quat(q.w, -q.x, -q.y, -q.z)
  }

  /** `inverse(q)`, the conjugate divided by `dot(q, q)`; the library divides
      without a guard, so a zero quaternion has no inverse here. */
  function Inverse(q: Quat): (r: Option<Quat>)
    ensures r.None? <==> QuatDot(q, q) == 0.0
    ensures QuatDot(q, q) == 1.0 ==> r == Some(Conjugate(q))
  {
    var d := QuatDot(q, q);
    if d == 0.0 then None
    else Some(Quat(q.w / d, -q.x / d, -q.y / d, -q.z / d))
  }

  /** `normalize(q)`: the identity when the length is not positive, otherwise
      every component times `1 / length`. */
  function QuatNormalize(q: Quat, m: Transcendentals): (r: Quat)
    ensures m.sqrt(QuatDot(q, q)) <= 0.0 ==> r == Identity
  {
    var len := m.sqrt(QuatDot(q, q));
    if len <= 0.0 then Identity
    else
      var k := 1.0 / len;
      Quat(q.w * k, q.x * k, q.y * k, q.z * k)
  }

  /** Under `Lawful`, a normalised quaternion has unit norm, whatever the
      input (the zero quaternion becomes the identity). */
  lemma QuatNormalizeUnit(q: Quat, m: Transcendentals)
    requires Lawful(m)
    ensures QuatDot(QuatNormalize(q, m), QuatNormalize(q, m)) == 1.0
  {
    var d := QuatDot(q, q);
    SumOfSquaresNonNegative(q.w, q.x, q.y, q.z);
    var len := m.sqrt(d);
    SqrtZero(m, d);
    if len > 0.0 {
      var k := 1.0 / len;
      var r := QuatNormalize(q, m);
      assert QuatDot(r, r) == k * k * d;
      InverseSquare(len, d);
    }
  }

  lemma SumOfSquaresNonNegative(a: real, b: real, c: real, d: real)
    ensures 0.0 <= a * a + b * b + c * c + d * d
  {
    SquareNonNegative(a);
    SquareNonNegative(b);
    SquareNonNegative(c);
    SquareNonNegative(d);
  }

  /** `(1 / l)^2 * d == 1` when `l * l == d` and `l` is not zero. */
  lemma InverseSquare(l: real, d: real)
    requires l != 0.0 && l * l == d
    ensures (1.0 / l) * (1.0 / l) * d == 1.0
  {
  }

  /** `angleAxis(angle, axis)`: `(cos(angle / 2), axis * sin(angle / 2))`. */
  function AngleAxis(angle: real, axis: Vec3, m: Transcendentals): (r: Quat)
    ensures Lawful(m) && angle == 0.0 ==> r == Identity
  {
    var s := m.sin(angle / 2.0);
    Quat(m.cos(angle / 2.0), axis.x * s, axis.y * s, axis.z * s)
  }

  /** A vector that may be NaN, as `normalize` of a zero vector is. */
  datatype NVec = Num(v: Vec3) | NaN

  /** `length(v)`. */
  function Length(v: Vec3, m: Transcendentals): real {
    m.sqrt(Dot(v, v))
  }

  /** `normalize(v)` = `v * inversesqrt(dot(v, v))`; for a zero-length vector
      this multiplies 0 by an infinity and every component is NaN. */
  function Normalize(v: Vec3, m: Transcendentals): NVec {
    var len := Length(v, m);
    if len == 0.0 then NaN else Num(Scale(v, 1.0 / len))
  }

  /** Under `Lawful`, `normalize` is NaN exactly for a zero-length vector and
      otherwise has unit length. */
  lemma NormalizeUnit(v: Vec3, m: Transcendentals)
    requires Lawful(m)
    ensures Normalize(v, m).NaN? <==> Dot(v, v) == 0.0
    ensures Normalize(v, m).Num? ==> Dot(Normalize(v, m).v, Normalize(v, m).v) == 1.0
  {
    var d := Dot(v, v);
    SumOfSquaresNonNegative(v.x, v.y, v.z, 0.0);
    SqrtZero(m, d);
    var len := m.sqrt(d);
    if len != 0.0 {
      var k := 1.0 / len;
      var u := Scale(v, k);
      assert Dot(u, u) == k * k * d;
      InverseSquare(len, d);
    }
  }
}
