// Geometric helpers of `utils.rs`: element interpolation and affine frames.
//
// The interpolation helpers are generic over the vector type in the source and
// act component-wise, so they are defined once on a single component and lifted
// to 2-, 3- and 4-vectors.

module Geometry {
  import opened Vectors

  // ---------------------------------------------------------------------------
  // Interpolation

  /** `interpolate_line`: `p0 * (1 - u) + p1 * u`. */
  function LerpLine(p0: real, p1: real, u: real): real
  {
    p0 * (1.0 - u) + p1 * u
  }

  /** `interpolate_triangle`: barycentric weights `1 - u - v`, `u` and `v`. */
  function LerpTriangle(p0: real, p1: real, p2: real, uv: Vec2): real
  {
    p0 * (1.0 - uv.x - uv.y) + p1 * uv.x + p2 * uv.y
  }

  /** `interpolate_quad`: the quad is split along the diagonal p1-p3; the lower half
      interpolates (p0, p1, p3) at (u, v), the upper half (p2, p3, p1) at (1-u, 1-v). */
  function LerpQuad(p0: real, p1: real, p2: real, p3: real, uv: Vec2): real
  {
    if uv.x + uv.y <= 1.0 then LerpTriangle(p0, p1, p3, uv)
    else LerpTriangle(p2, p3, p1, Vec2(1.0 - uv.x, 1.0 - uv.y))
  }

  function Line2(p0: Vec2, p1: Vec2, u: real): Vec2
  {
    Vec2(LerpLine(p0.x, p1.x, u), LerpLine(p0.y, p1.y, u))
  }

  function Triangle2(p0: Vec2, p1: Vec2, p2: Vec2, uv: Vec2): Vec2
  {
    Vec2(LerpTriangle(p0.x, p1.x, p2.x, uv), LerpTriangle(p0.y, p1.y, p2.y, uv))
  }

  function Quad2(p0: Vec2, p1: Vec2, p2: Vec2, p3: Vec2, uv: Vec2): Vec2
  {
    Vec2(LerpQuad(p0.x, p1.x, p2.x, p3.x, uv), LerpQuad(p0.y, p1.y, p2.y, p3.y, uv))
  }

  function Line3(p0: Vec3, p1: Vec3, u: real): Vec3
  {
    Vec3(LerpLine(p0.x, p1.x, u), LerpLine(p0.y, p1.y, u), LerpLine(p0.z, p1.z, u))
  }

  function Triangle3(p0: Vec3, p1: Vec3, p2: Vec3, uv: Vec2): Vec3
  {
    Vec3(LerpTriangle(p0.x, p1.x, p2.x, uv), LerpTriangle(p0.y, p1.y, p2.y, uv),
         LerpTriangle(p0.z, p1.z, p2.z, uv))
  }

  function Quad3(p0: Vec3, p1: Vec3, p2: Vec3, p3: Vec3, uv: Vec2): Vec3
  {
    Vec3(LerpQuad(p0.x, p1.x, p2.x, p3.x, uv), LerpQuad(p0.y, p1.y, p2.y, p3.y, uv),
         LerpQuad(p0.z, p1.z, p2.z, p3.z, uv))
  }

  function Line4(p0: Vec4, p1: Vec4, u: real): Vec4
  {
    Vec4(LerpLine(p0.x, p1.x, u), LerpLine(p0.y, p1.y, u), LerpLine(p0.z, p1.z, u),
         LerpLine(p0.w, p1.w, u))
  }

  function Triangle4(p0: Vec4, p1: Vec4, p2: Vec4, uv: Vec2): Vec4
  {
    Vec4(LerpTriangle(p0.x, p1.x, p2.x, uv), LerpTriangle(p0.y, p1.y, p2.y, uv),
         LerpTriangle(p0.z, p1.z, p2.z, uv), LerpTriangle(p0.w, p1.w, p2.w, uv))
  }

  function Quad4(p0: Vec4, p1: Vec4, p2: Vec4, p3: Vec4, uv: Vec2): Vec4
  {
    Vec4(LerpQuad(p0.x, p1.x, p2.x, p3.x, uv), LerpQuad(p0.y, p1.y, p2.y, p3.y, uv),
         LerpQuad(p0.z, p1.z, p2.z, p3.z, uv), LerpQuad(p0.w, p1.w, p2.w, p3.w, uv))
  }

  /** A line is interpolated from its first end point at u = 0 to its second at u = 1. */
  lemma LineEndpoints(p0: real, p1: real)
    ensures LerpLine(p0, p1, 0.0) == p0 && LerpLine(p0, p1, 1.0) == p1
  {
  }

  /** The three barycentric weights sum to one, so interpolating a constant gives
      that constant back, and the corners (0,0), (1,0), (0,1) give p0, p1, p2. */
  lemma TriangleWeights(p0: real, p1: real, p2: real, c: real, uv: Vec2)
    ensures (1.0 - uv.x - uv.y) + uv.x + uv.y == 1.0
    ensures LerpTriangle(c, c, c, uv) == c
    ensures LerpTriangle(p0, p1, p2, Vec2(0.0, 0.0)) == p0
    ensures LerpTriangle(p0, p1, p2, Vec2(1.0, 0.0)) == p1
    ensures LerpTriangle(p0, p1, p2, Vec2(0.0, 1.0)) == p2
  {
  }

  /** The quad corners (0,0), (1,0), (1,1), (0,1) give p0, p1, p2, p3. */
  lemma QuadCorners(p0: real, p1: real, p2: real, p3: real)
    ensures LerpQuad(p0, p1, p2, p3, Vec2(0.0, 0.0)) == p0
    ensures LerpQuad(p0, p1, p2, p3, Vec2(1.0, 0.0)) == p1
    ensures LerpQuad(p0, p1, p2, p3, Vec2(1.0, 1.0)) == p2
    ensures LerpQuad(p0, p1, p2, p3, Vec2(0.0, 1.0)) == p3
  {
  }

  /** On the split diagonal u + v = 1 both halves of the quad give the same value,
      the point `p1 * u + p3 * v` of the shared edge: the interpolant is continuous. */
  lemma QuadDiagonalAgrees(p0: real, p1: real, p2: real, p3: real, uv: Vec2)
    requires uv.x + uv.y == 1.0
    ensures LerpTriangle(p0, p1, p3, uv) == LerpTriangle(p2, p3, p1, Vec2(1.0 - uv.x, 1.0 - uv.y))
    ensures LerpQuad(p0, p1, p2, p3, uv) == p1 * uv.x + p3 * uv.y
  {
    assert 1.0 - uv.x - uv.y == 0.0;
    assert 1.0 - (1.0 - uv.x) - (1.0 - uv.y) == 0.0;
  }

  // ---------------------------------------------------------------------------
  // Frames

  /** A 3x4 affine frame (`Mat3x4`) by columns: the rotation part `x`, `y`, `z`
      and the translation `o`. */
  datatype Frame = Frame(x: Vec3, y: Vec3, z: Vec3, o: Vec3)

  /** `mat3x4(1,0,0,0, 0,1,0,0, 0,0,1,0)`, the identity frame of the defaults. */
  function IdentityFrame(): Frame
  {
    Frame(Vec3(1.0, 0.0, 0.0), Vec3(0.0, 1.0, 0.0), Vec3(0.0, 0.0, 1.0), Zero3())
  }

  /** `transform_vector_frame`: the rotation part applied to `v`. */
  function TransformVector(f: Frame, v: Vec3): Vec3
  {
    Add3(Add3(Scale3(f.x, v.x), Scale3(f.y, v.y)), Scale3(f.z, v.z))
  }

  /** `transform_point`: rotation then translation. */
  function TransformPoint(f: Frame, p: Vec3): Vec3
  {
    Add3(TransformVector(f, p), f.o)
  }

  /** `transform_direction_frame`, and `transform_normal_frame(f, n, false)`, which
      computes the same normalised rotated vector. */
  function TransformDirection(m: Maths, f: Frame, v: Vec3): Vec3
  {
    m.normalize(TransformVector(f, v))
  }

  /** `orthonormalize(a, b)`: `a` with its component along `b` removed, normalised. */
  function Orthonormalize(m: Maths, a: Vec3, b: Vec3): Vec3
  {
    m.normalize(Sub3(a, Scale3(b, Dot(a, b))))
  }

  /** `triangle_normal`: the normalised cross product of two edges. */
  function TriangleNormal(m: Maths, p0: Vec3, p1: Vec3, p2: Vec3): Vec3
  {
    m.normalize(Cross(Sub3(p1, p0), Sub3(p2, p0)))
  }

  /** A rotation part whose columns are unit length and pairwise orthogonal. */
  predicate Orthonormal(f: Frame)
  {
    Dot(f.x, f.x) == 1.0 && Dot(f.y, f.y) == 1.0 && Dot(f.z, f.z) == 1.0 &&
    Dot(f.x, f.y) == 0.0 && Dot(f.x, f.z) == 0.0 && Dot(f.y, f.z) == 0.0
  }

  /** Determinant of the rotation part, the triple product of its columns. */
  function Determinant(f: Frame): real
  {
    Dot(f.x, Cross(f.y, f.z))
  }

  /** A frame whose rotation part is given by its rows `r0`, `r1`, `r2` and whose
      translation is minus that rotation applied to `t`: the shape both branches
      of `inverse_frame` build, `[minv | -(minv * t)]`. */
  function FrameFromRows(r0: Vec3, r1: Vec3, r2: Vec3, t: Vec3): Frame
  {
    Frame(Vec3(r0.x, r1.x, r2.x), Vec3(r0.y, r1.y, r2.y), Vec3(r0.z, r1.z, r2.z),
          Neg3(Vec3(Dot(r0, t), Dot(r1, t), Dot(r2, t))))
  }

  /** `inverse_frame(frame, non_rigid)`. A rigid frame is inverted by transposing its
      rotation part. A non-rigid one uses the matrix inverse, whose rows are the
      cross products of the columns over the determinant; like `glm::inverse`, a
      singular matrix yields the zero matrix. */
  function InverseFrame(f: Frame, nonRigid: bool): Frame
  {
    if !nonRigid then
      FrameFromRows(f.x, f.y, f.z, f.o)
    else
      var det := Determinant(f);
      if det == 0.0 then
        FrameFromRows(Zero3(), Zero3(), Zero3(), f.o)
      else
        FrameFromRows(Scale3(Cross(f.y, f.z), 1.0 / det), Scale3(Cross(f.z, f.x), 1.0 / det),
                      Scale3(Cross(f.x, f.y), 1.0 / det), f.o)
  }

  /** Applying a frame built from rows computes the dot products with the rows. */
  lemma FromRowsApplies(r0: Vec3, r1: Vec3, r2: Vec3, t: Vec3, q: Vec3)
    ensures TransformPoint(FrameFromRows(r0, r1, r2, t), q)
         == Vec3(Dot(r0, q) - Dot(r0, t), Dot(r1, q) - Dot(r1, t), Dot(r2, q) - Dot(r2, t))
  {
    FromRowsRotates(r0, r1, r2, t, q);
  }

  /** The rotation part of a frame built from rows computes the dot products with the rows. */
  lemma FromRowsRotates(r0: Vec3, r1: Vec3, r2: Vec3, t: Vec3, q: Vec3)
    ensures TransformVector(FrameFromRows(r0, r1, r2, t), q) == Vec3(Dot(r0, q), Dot(r1, q), Dot(r2, q))
  {
  }

  /** Dot product of a row with a transformed point. */
  lemma DotTransformed(r: Vec3, f: Frame, p: Vec3)
    ensures Dot(r, TransformPoint(f, p)) - Dot(r, f.o)
         == Dot(r, f.x) * p.x + Dot(r, f.y) * p.y + Dot(r, f.z) * p.z
  {
    DotAdd(r, TransformVector(f, p), f.o);
    DotRotated(r, f, p);
  }

  /** For a rigid (orthonormal) frame, the transposed inverse undoes the frame. */
  lemma RigidInverseRoundTrip(f: Frame, p: Vec3)
    requires Orthonormal(f)
    ensures TransformPoint(InverseFrame(f, false), TransformPoint(f, p)) == p
  {
    var q := TransformPoint(f, p);
    FromRowsApplies(f.x, f.y, f.z, f.o, q);
    DotTransformed(f.x, f, p);
    DotTransformed(f.y, f, p);
    DotTransformed(f.z, f, p);
  }

  /** The triple product is invariant under cyclic permutation. */
  lemma TripleProducts(a: Vec3, b: Vec3, c: Vec3)
    ensures Dot(Cross(b, c), a) == Dot(a, Cross(b, c))
    ensures Dot(Cross(c, a), b) == Dot(a, Cross(b, c))
    ensures Dot(Cross(a, b), c) == Dot(a, Cross(b, c))
  {
    TripleExpanded(a, b, c);
    TripleExpanded(b, c, a);
    TripleExpanded(c, a, b);
  }

  /** The triple product as a polynomial in the coordinates. */
  lemma TripleExpanded(a: Vec3, b: Vec3, c: Vec3)
    ensures Dot(a, Cross(b, c)) == a.x * b.y * c.z - a.x * b.z * c.y + a.y * b.z * c.x - a.y * b.x * c.z
                                   + a.z * b.x * c.y - a.z * b.y * c.x
  {
  }

  /** A cross product is orthogonal to both its factors. */
  lemma CrossOrthogonal(a: Vec3, b: Vec3)
    ensures Dot(Cross(a, b), a) == 0.0 && Dot(Cross(a, b), b) == 0.0
  {
  }

  lemma DotScaled(r: Vec3, s: real, v: Vec3)
    ensures Dot(Scale3(r, s), v) == s * Dot(r, v)
  {
  }

  /** The rows of the non-rigid inverse are dual to the columns of the frame. */
  lemma InverseRowsDual(f: Frame)
    requires Determinant(f) != 0.0
    ensures var s := 1.0 / Determinant(f);
      var r0, r1, r2 := Scale3(Cross(f.y, f.z), s), Scale3(Cross(f.z, f.x), s), Scale3(Cross(f.x, f.y), s);
      Dot(r0, f.x) == 1.0 && Dot(r0, f.y) == 0.0 && Dot(r0, f.z) == 0.0 &&
      Dot(r1, f.x) == 0.0 && Dot(r1, f.y) == 1.0 && Dot(r1, f.z) == 0.0 &&
      Dot(r2, f.x) == 0.0 && Dot(r2, f.y) == 0.0 && Dot(r2, f.z) == 1.0
  {
    var det := Determinant(f);
    var s := 1.0 / det;
    TripleProducts(f.x, f.y, f.z);
    CrossOrthogonal(f.y, f.z);
    CrossOrthogonal(f.z, f.x);
    CrossOrthogonal(f.x, f.y);
    DotScaled(Cross(f.y, f.z), s, f.x);
    DotScaled(Cross(f.y, f.z), s, f.y);
    DotScaled(Cross(f.y, f.z), s, f.z);
    DotScaled(Cross(f.z, f.x), s, f.x);
    DotScaled(Cross(f.z, f.x), s, f.y);
    DotScaled(Cross(f.z, f.x), s, f.z);
    DotScaled(Cross(f.x, f.y), s, f.x);
    DotScaled(Cross(f.x, f.y), s, f.y);
    DotScaled(Cross(f.x, f.y), s, f.z);
    assert s * det == 1.0;
  }

  /** For a non-singular frame, the non-rigid inverse undoes the frame on points ... */
  lemma NonRigidInverseRoundTrip(f: Frame, p: Vec3)
    requires Determinant(f) != 0.0
    ensures TransformPoint(InverseFrame(f, true), TransformPoint(f, p)) == p
  {
    var s := 1.0 / Determinant(f);
    var r0, r1, r2 := Scale3(Cross(f.y, f.z), s), Scale3(Cross(f.z, f.x), s), Scale3(Cross(f.x, f.y), s);
    FromRowsApplies(r0, r1, r2, f.o, TransformPoint(f, p));
    DotTransformed(r0, f, p);
    DotTransformed(r1, f, p);
    DotTransformed(r2, f, p);
    InverseRowsDual(f);
  }

  /** ... and on vectors, where the translation plays no part. */
  lemma NonRigidInverseVector(f: Frame, v: Vec3)
    requires Determinant(f) != 0.0
    ensures TransformVector(InverseFrame(f, true), TransformVector(f, v)) == v
  {
    var s := 1.0 / Determinant(f);
    var r0, r1, r2 := Scale3(Cross(f.y, f.z), s), Scale3(Cross(f.z, f.x), s), Scale3(Cross(f.x, f.y), s);
    var q := TransformVector(f, v);
    FromRowsRotates(r0, r1, r2, f.o, q);
    DotRotated(r0, f, v);
    DotRotated(r1, f, v);
    DotRotated(r2, f, v);
    InverseRowsDual(f);
  }

  lemma DotRotated(r: Vec3, f: Frame, v: Vec3)
    ensures Dot(r, TransformVector(f, v)) == Dot(r, f.x) * v.x + Dot(r, f.y) * v.y + Dot(r, f.z) * v.z
  {
    DotAdd(r, Add3(Scale3(f.x, v.x), Scale3(f.y, v.y)), Scale3(f.z, v.z));
    DotAdd(r, Scale3(f.x, v.x), Scale3(f.y, v.y));
    DotScale(r, f.x, v.x);
    DotScale(r, f.y, v.y);
    DotScale(r, f.z, v.z);
  }
}
