// Vectors and scalar helpers of the renderer (the subset of the glm library the
// core relies on), over mathematical reals.
//
// Transcendental routines and IEEE oddities cannot be computed in Dafny, so they
// are kept abstract: a `Maths` value bundles them as plain functions, and
// `Sound(m)` states the only facts about them that the proofs rely on.

module Vectors {

  datatype Vec2 = Vec2(x: real, y: real)
  datatype Vec3 = Vec3(x: real, y: real, z: real)
  datatype Vec4 = Vec4(x: real, y: real, z: real, w: real)

  /** The `f32::consts::PI` constant. */
  const Pi: real := 3.1415927

  /** `f32::EPSILON`, the tolerance of `is_null(v, epsilon())`. */
  const FloatEpsilon: real := 0.00000011920929

  function Abs(x: real): real { if x < 0.0 then -x else x }

  function Min(a: real, b: real): real { if a <= b then a else b }

  function Max(a: real, b: real): real { if a >= b then a else b }

  /** `f32::clamp` (and `glm::clamp` per component); `lo <= hi` at every call site. */
  function Clamp(x: real, lo: real, hi: real): real
  {
    if x < lo then lo else if x > hi then hi else x
  }

  function Zero2(): Vec2 { Vec2(0.0, 0.0) }
  function Zero3(): Vec3 { Vec3(0.0, 0.0, 0.0) }
  function One3(): Vec3 { Vec3(1.0, 1.0, 1.0) }
  function Zero4(): Vec4 { Vec4(0.0, 0.0, 0.0, 0.0) }
  function One4(): Vec4 { Vec4(1.0, 1.0, 1.0, 1.0) }

  function Add3(a: Vec3, b: Vec3): Vec3 { Vec3(a.x + b.x, a.y + b.y, a.z + b.z) }
  function Sub3(a: Vec3, b: Vec3): Vec3 { Vec3(a.x - b.x, a.y - b.y, a.z - b.z) }
  function Neg3(a: Vec3): Vec3 { Vec3(-a.x, -a.y, -a.z) }
  function Scale3(a: Vec3, s: real): Vec3 { Vec3(a.x * s, a.y * s, a.z * s) }
  /** Component-wise product (`component_mul`). */
  function Mul3(a: Vec3, b: Vec3): Vec3 { Vec3(a.x * b.x, a.y * b.y, a.z * b.z) }
  function Dot(a: Vec3, b: Vec3): real { a.x * b.x + a.y * b.y + a.z * b.z }
  function Cross(a: Vec3, b: Vec3): Vec3
  {
    Vec3(a.y * b.z - a.z * b.y, a.z * b.x - a.x * b.z, a.x * b.y - a.y * b.x)
  }
  /** Largest component (`v.max()`). */
  function MaxComp3(a: Vec3): real { Max(a.x, Max(a.y, a.z)) }

  function Add4(a: Vec4, b: Vec4): Vec4 { Vec4(a.x + b.x, a.y + b.y, a.z + b.z, a.w + b.w) }
  function Scale4(a: Vec4, s: real): Vec4 { Vec4(a.x * s, a.y * s, a.z * s, a.w * s) }
  /** Largest of the four components (`v.max()` on a `Vec4`). */
  function MaxComp4(a: Vec4): real { Max(Max(a.x, a.y), Max(a.z, a.w)) }
  /** The `.xyz()` swizzle. */
  function Xyz(a: Vec4): Vec3 { Vec3(a.x, a.y, a.z) }

  /** `glm::is_null(v, epsilon())`: every component within `f32::EPSILON` of zero. */
  predicate IsNull(v: Vec3)
  {
    Abs(v.x) <= FloatEpsilon && Abs(v.y) <= FloatEpsilon && Abs(v.z) <= FloatEpsilon
  }

  /** `glm::reflect_vec(i, n)`: `i - n * (dot(n, i) * 2)`. */
  function Reflect(i: Vec3, n: Vec3): Vec3 { Sub3(i, Scale3(n, Dot(n, i) * 2.0)) }

  lemma DotNeg(a: Vec3, b: Vec3)
    ensures Dot(Neg3(a), b) == -Dot(a, b) && Dot(a, Neg3(b)) == -Dot(a, b)
  {
  }

  lemma DotScale(a: Vec3, b: Vec3, k: real)
    ensures Dot(a, Scale3(b, k)) == k * Dot(a, b) && Dot(Scale3(b, k), a) == k * Dot(a, b)
  {
  }

  lemma DotSub(a: Vec3, b: Vec3, c: Vec3)
    ensures Dot(a, Sub3(b, c)) == Dot(a, b) - Dot(a, c)
  {
  }

  lemma DotAdd(a: Vec3, b: Vec3, c: Vec3)
    ensures Dot(a, Add3(b, c)) == Dot(a, b) + Dot(a, c)
  {
  }

  lemma ScaleScale(a: Vec3, s: real, t: real)
    ensures Scale3(Scale3(a, s), t) == Scale3(a, s * t)
  {
  }

  /** A positive product has factors of the same strict sign. */
  lemma ProductSign(a: real, b: real)
    requires a * b > 0.0
    ensures (a > 0.0 && b > 0.0) || (a < 0.0 && b < 0.0)
  {
  }

  lemma MulPos(a: real, b: real)
    requires a > 0.0 && b > 0.0
    ensures a * b > 0.0
  {
  }

  lemma DivPos(a: real, b: real)
    requires a > 0.0 && b > 0.0
    ensures a / b > 0.0
  {
  }

  lemma MulLeMono(a: real, b: real, c: real)
    requires 0.0 <= a && b <= c
    ensures a * b <= a * c
  {
  }

  /** The routines that are kept abstract. */
  datatype Maths = Maths(
    sqrt: real -> real,
    log: real -> real,
    pow: (real, real) -> real,
    normalize: Vec3 -> Vec3,
    // the IEEE value of `x / 0` (an infinity or NaN), left unspecified
    divByZero: real -> real,
    // `sample_hemisphere_cos(normal, rn)` and `sample_microfacet(roughness, normal, rn, true)`
    sampleHemisphereCos: (Vec3, Vec2) -> Vec3,
    sampleMicrofacet: (real, Vec3, Vec2) -> Vec3,
    // the local direction `(cos 2πu sin πv, sin 2πu sin πv, cos πv)` of a point's sphere normal
    sphereDirection: Vec2 -> Vec3)

  /** Facts about the abstract routines: square roots of non-negative reals, and
      `normalize` as division by the Euclidean length on non-zero vectors. */
  ghost predicate Sound(m: Maths)
  {
    (forall x: real :: 0.0 <= x ==> 0.0 <= m.sqrt(x) && m.sqrt(x) * m.sqrt(x) == x) &&
    (forall v: Vec3 :: 0.0 < Dot(v, v) ==> m.normalize(v) == Scale3(v, 1.0 / m.sqrt(Dot(v, v))))
  }

  /** Division that still yields a value when the divisor is zero. */
  function Div(m: Maths, a: real, b: real): real
  {
    if b != 0.0 then a / b else m.divByZero(a)
  }

  /** `v / s` for a vector and a scalar. */
  function Div3(m: Maths, a: Vec3, s: real): Vec3
  {
    Vec3(Div(m, a.x, s), Div(m, a.y, s), Div(m, a.z, s))
  }

  lemma DivExact(m: Maths, a: real, b: real)
    requires b != 0.0
    ensures Div(m, a, b) * b == a
  {
  }

  /** The facts of `Sound` about `sqrt`, one argument at a time. */
  lemma SqrtFacts(m: Maths, x: real)
    requires Sound(m) && 0.0 <= x
    ensures 0.0 <= m.sqrt(x) && m.sqrt(x) * m.sqrt(x) == x
  {
  }

  /** The square root of a square is the (non-negative) base. */
  lemma SqrtOfSquare(m: Maths, z: real)
    requires Sound(m) && 0.0 <= z
    ensures m.sqrt(z * z) == z
  {
    var q := m.sqrt(z * z);
    SqrtFacts(m, z * z);
    assert (q - z) * (q + z) == 0.0;
    if q + z != 0.0 {
      ZeroFactor(q - z, q + z);
    }
  }

  lemma ZeroFactor(a: real, b: real)
    requires a * b == 0.0 && b != 0.0
    ensures a == 0.0
  {
    assert a == (a * b) / b;
  }

  /** Square roots of reals below one stay below one. */
  lemma SqrtBelowOne(m: Maths, x: real)
    requires Sound(m) && 0.0 <= x < 1.0
    ensures 0.0 <= m.sqrt(x) < 1.0
  {
    SqrtFacts(m, x);
  }
}
