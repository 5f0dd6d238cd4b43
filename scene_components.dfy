// Scene records of `scene_components.rs`: cameras, materials, textures,
// instances, environments and shapes, their defaults, texel lookup, and the
// per-shape position and normal evaluation.

module SceneComponents {
  import opened Vectors
  import opened Geometry
  import Grid

  /** `INVALID = usize::MAX`, the "no reference" index. */
  const Invalid: nat := 18446744073709551615

  datatype Camera = Camera(frame: Frame, orthographic: bool, lens: real, film: real,
                           aspect: real, focus: real, aperture: real)

  /** `Camera::default`: a 50mm lens on a 36mm film with aspect 3:2. */
  function DefaultCamera(): Camera
  {
    Camera(IdentityFrame(), false, 0.050, 0.036, 1.5, 10000.0, 0.0)
  }

  datatype MaterialType = Matte | Glossy | Reflective | Transparent | Refractive
                        | Volumetric | Subsurface | Gltfpbr

  datatype Material = Material(
    mType: MaterialType, emission: Vec3, color: Vec3, roughness: real, metallic: real,
    ior: real, scattering: Vec3, scanisotropy: real, trdepth: real, opacity: real,
    emissionTex: nat, colorTex: nat, roughnessTex: nat, scatteringTex: nat, normalTex: nat)

  /** `Material::default`: black matte, opaque, ior 1.5, no textures. */
  function DefaultMaterial(): Material
  {
    Material(Matte, Zero3(), Zero3(), 0.0, 0.0, 1.5, Zero3(), 0.0, 0.01, 1.0,
             Invalid, Invalid, Invalid, Invalid, Invalid)
  }

  datatype Instance = Instance(frame: Frame, shape: nat, material: nat)

  /** `Instance::default`: identity frame, no shape, no material. */
  function DefaultInstance(): Instance
  {
    Instance(IdentityFrame(), Invalid, Invalid)
  }

  datatype Environment = Environment(frame: Frame, emission: Vec3, emissionTex: nat)

  /** `Environment::default`: identity frame, black, no texture. */
  function DefaultEnvironment(): Environment
  {
    Environment(IdentityFrame(), Zero3(), Invalid)
  }

  /** The defaults refer to no texture, shape or material. */
  lemma DefaultsReferenceNothing()
    ensures var d := DefaultMaterial();
      d.emissionTex == d.colorTex == d.roughnessTex == d.scatteringTex == d.normalTex == Invalid
    ensures DefaultMaterial().opacity == 1.0 && DefaultMaterial().ior == 1.5
    ensures DefaultMaterial().trdepth == 0.01 && DefaultMaterial().mType == Matte
    ensures DefaultInstance().shape == Invalid && DefaultInstance().material == Invalid
    ensures DefaultEnvironment().emissionTex == Invalid && DefaultEnvironment().emission == Zero3()
  {
  }

  // ---------------------------------------------------------------------------
  // Textures

  type Byte = b: int | 0 <= b < 256

  /** One pixel of an 8-bit RGBA image. */
  datatype Rgba8 = Rgba8(r: Byte, g: Byte, b: Byte, a: Byte)

  /** Pixel data is either HDR floats, 8-bit RGBA, or absent; each buffer present
      is stored row-major, `hdr[j * width + i]`. */
  datatype Texture = Texture(width: nat, height: nat, linear: bool,
                             hdr: seq<Vec3>, bytes: seq<Rgba8>, uri: string)

  /** Every pixel buffer present holds exactly `width * height` pixels. */
  predicate TextureOk(t: Texture)
  {
    (|t.hdr| == 0 || |t.hdr| == t.width * t.height) &&
    (|t.bytes| == 0 || |t.bytes| == t.width * t.height)
  }

  /** One channel of `srgb_to_rgb` (`utils.rs`); `pow` is kept abstract. */
  function SrgbChannelToLinear(m: Maths, c: real): real
  {
    if c <= 0.04045 then c / 12.92 else m.pow((c + 0.055) / (1.0 + 0.055), 2.4)
  }

  /** `srgb_to_rgb`, applied to all four channels, alpha included. */
  function SrgbToRgb(m: Maths, c: Vec4): Vec4
  {
    Vec4(SrgbChannelToLinear(m, c.x), SrgbChannelToLinear(m, c.y),
         SrgbChannelToLinear(m, c.z), SrgbChannelToLinear(m, c.w))
  }

  /** The stored colour of texel (i, j) before any colour-space conversion. */
  function StoredTexel(t: Texture, i: nat, j: nat): Vec4
    requires TextureOk(t) && i < t.width && j < t.height
  {
    Grid.SlotInBuffer(i, j, t.width, t.height);
    if |t.hdr| > 0 then
      var c := t.hdr[Grid.SlotOf(i, j, t.width)];
      Vec4(c.x, c.y, c.z, 1.0)
    else if |t.bytes| > 0 then
      var p := t.bytes[Grid.SlotOf(i, j, t.width)];
      Vec4(p.r as real / 255.0, p.g as real / 255.0, p.b as real / 255.0, p.a as real / 255.0)
    else
      One4()
  }

  /** `Texture::lookup`: the stored texel, taken from sRGB to linear when a linear
      value is asked of a texture that is not stored linear. */
  function Lookup(m: Maths, t: Texture, i: nat, j: nat, asLinear: bool): Vec4
    requires TextureOk(t) && i < t.width && j < t.height
  {
    var c := StoredTexel(t, i, j);
    if asLinear && !t.linear then SrgbToRgb(m, c) else c
  }

  /** The buffer a texel comes from: HDR first, with alpha 1; then the bytes,
      every channel scaled into [0, 1]; opaque white when there is no pixel data.
      The colour-space conversion is applied exactly when `asLinear && !linear`. */
  lemma LookupSources(m: Maths, t: Texture, i: nat, j: nat, asLinear: bool)
    requires TextureOk(t) && i < t.width && j < t.height
    ensures |t.hdr| > 0 ==>
      j * t.width + i < |t.hdr| &&
      StoredTexel(t, i, j) == Vec4(t.hdr[j * t.width + i].x, t.hdr[j * t.width + i].y, t.hdr[j * t.width + i].z, 1.0)
    ensures |t.hdr| == 0 && |t.bytes| > 0 ==>
      j * t.width + i < |t.bytes| &&
      var p := t.bytes[j * t.width + i];
      StoredTexel(t, i, j) == Vec4(p.r as real / 255.0, p.g as real / 255.0, p.b as real / 255.0, p.a as real / 255.0)
    ensures |t.hdr| == 0 && |t.bytes| > 0 ==>
      var c := StoredTexel(t, i, j);
      0.0 <= c.x <= 1.0 && 0.0 <= c.y <= 1.0 && 0.0 <= c.z <= 1.0 && 0.0 <= c.w <= 1.0
    ensures |t.hdr| == 0 && |t.bytes| == 0 ==> StoredTexel(t, i, j) == One4()
    ensures Lookup(m, t, i, j, asLinear)
         == if asLinear && !t.linear then SrgbToRgb(m, StoredTexel(t, i, j)) else StoredTexel(t, i, j)
  {
    Grid.SlotInBuffer(i, j, t.width, t.height);
  }

  // ---------------------------------------------------------------------------
  // Shapes

  datatype Int2 = Int2(x: int, y: int)
  datatype Int3 = Int3(x: int, y: int, z: int)
  datatype Int4 = Int4(x: int, y: int, z: int, w: int)

  /** Element arrays index into the vertex arrays; normally only one element kind
      is non-empty, and lookups try them in the order triangles, quads, lines, points. */
  datatype Shape = Shape(
    points: seq<int>, lines: seq<Int2>, triangles: seq<Int3>, quads: seq<Int4>,
    positions: seq<Vec3>, normals: seq<Vec3>, texcoords: seq<Vec2>, colors: seq<Vec4>,
    radius: seq<real>, tangents: seq<Vec4>, uri: string)

  predicate VertexOk(s: Shape, k: int) { 0 <= k < |s.positions| }

  /** Every element refers to existing vertices, and every per-vertex array present
      has one entry per position. */
  predicate ShapeOk(s: Shape)
  {
    (forall e :: 0 <= e < |s.triangles| ==>
       VertexOk(s, s.triangles[e].x) && VertexOk(s, s.triangles[e].y) && VertexOk(s, s.triangles[e].z)) &&
    (forall e :: 0 <= e < |s.quads| ==>
       VertexOk(s, s.quads[e].x) && VertexOk(s, s.quads[e].y) &&
       VertexOk(s, s.quads[e].z) && VertexOk(s, s.quads[e].w)) &&
    (forall e :: 0 <= e < |s.lines| ==> VertexOk(s, s.lines[e].x) && VertexOk(s, s.lines[e].y)) &&
    (forall e :: 0 <= e < |s.points| ==> VertexOk(s, s.points[e])) &&
    (|s.normals| == 0 || |s.normals| == |s.positions|) &&
    (|s.texcoords| == 0 || |s.texcoords| == |s.positions|) &&
    (|s.colors| == 0 || |s.colors| == |s.positions|)
  }

  /** The element kind that the dispatch order selects. */
  datatype ElementKind = Triangles | Quads | Lines | Points | NoElements

  function KindOf(s: Shape): (k: ElementKind)
    ensures k == Triangles <==> |s.triangles| > 0
    ensures k == Quads <==> |s.triangles| == 0 && |s.quads| > 0
    ensures k == Lines <==> |s.triangles| == 0 && |s.quads| == 0 && |s.lines| > 0
    ensures k == Points <==> |s.triangles| == 0 && |s.quads| == 0 && |s.lines| == 0 && |s.points| > 0
  {
    if |s.triangles| > 0 then Triangles
    else if |s.quads| > 0 then Quads
    else if |s.lines| > 0 then Lines
    else if |s.points| > 0 then Points
    else NoElements
  }

  /** `element` names an element of the selected kind. */
  predicate ElementOk(s: Shape, element: nat)
  {
    match KindOf(s)
    case Triangles => element < |s.triangles|
    case Quads => element < |s.quads|
    case Lines => element < |s.lines|
    case Points => element < |s.points|
    case NoElements => true
  }

  /** `Shape::eval_position`: the interpolated object-space position on the element. */
  function ShapeEvalPosition(s: Shape, element: nat, uv: Vec2): Vec3
    requires ShapeOk(s) && ElementOk(s, element)
  {
    var p := s.positions;
    match KindOf(s)
    case Triangles =>
      var t := s.triangles[element];
      Triangle3(p[t.x], p[t.y], p[t.z], uv)
    case Quads =>
      var q := s.quads[element];
      Quad3(p[q.x], p[q.y], p[q.z], p[q.w], uv)
    case Lines =>
      var l := s.lines[element];
      Line3(p[l.x], p[l.y], uv.x)
    case Points => p[s.points[element]]
    case NoElements => Zero3()
  }

  /** The position dispatch: the first non-empty element kind wins, and a shape
      without elements evaluates to the origin. */
  lemma ShapePositionDispatch(s: Shape, element: nat, uv: Vec2)
    requires ShapeOk(s) && ElementOk(s, element)
    ensures |s.triangles| > 0 ==>
      var t := s.triangles[element];
      ShapeEvalPosition(s, element, uv) == Triangle3(s.positions[t.x], s.positions[t.y], s.positions[t.z], uv)
    ensures |s.triangles| == 0 && |s.quads| > 0 ==>
      var q := s.quads[element];
      ShapeEvalPosition(s, element, uv)
        == Quad3(s.positions[q.x], s.positions[q.y], s.positions[q.z], s.positions[q.w], uv)
    ensures |s.triangles| == 0 && |s.quads| == 0 && |s.lines| > 0 ==>
      var l := s.lines[element];
      ShapeEvalPosition(s, element, uv) == Line3(s.positions[l.x], s.positions[l.y], uv.x)
    ensures |s.triangles| == 0 && |s.quads| == 0 && |s.lines| == 0 && |s.points| > 0 ==>
      ShapeEvalPosition(s, element, uv) == s.positions[s.points[element]]
    ensures |s.triangles| == 0 && |s.quads| == 0 && |s.lines| == 0 && |s.points| == 0 ==>
      ShapeEvalPosition(s, element, uv) == Zero3()
  {
  }

  /** The geometric normal of a triangle, quad or line element, in world space. A
      line uses `positions[y] - normalize(positions[x])`: the method call binds
      tighter than the subtraction, so only the first end point is normalised. */
  function ElementNormal(m: Maths, s: Shape, instance: Instance, element: nat): Vec3
    requires ShapeOk(s) && ElementOk(s, element)
    requires KindOf(s) in {Triangles, Quads, Lines}
  {
    var p := s.positions;
    match KindOf(s)
    case Triangles =>
      var t := s.triangles[element];
      TransformDirection(m, instance.frame, TriangleNormal(m, p[t.x], p[t.y], p[t.z]))
    case Quads =>
      var q := s.quads[element];
      var n := m.normalize(Add3(TriangleNormal(m, p[q.x], p[q.y], p[q.w]),
                                TriangleNormal(m, p[q.z], p[q.w], p[q.y])));
      TransformDirection(m, instance.frame, n)
    case Lines =>
      // Kept as written: the end point minus the normalized start point
      // (`p1 - normalize(p0)`), not the normalized difference `normalize(p1 - p0)`.
      var l := s.lines[element];
      TransformDirection(m, instance.frame, Sub3(p[l.y], m.normalize(p[l.x])))
  }

  /** `Shape::eval_normal` as written: after lines it tests `points.is_empty()`, so a
      shape with no elements gets (0, 0, 1) and a point shape gets the zero vector. */
  function ShapeEvalNormalAsWritten(m: Maths, s: Shape, instance: Instance, element: nat): Vec3
    requires ShapeOk(s) && ElementOk(s, element)
  {
    if KindOf(s) in {Triangles, Quads, Lines} then ElementNormal(m, s, instance, element)
    else if |s.points| == 0 then Vec3(0.0, 0.0, 1.0)
    else Zero3()
  }

  /** A point shape gets no usable normal from the code as written. */
  lemma PointNormalAsWrittenIsZero(m: Maths, s: Shape, instance: Instance, element: nat)
    requires ShapeOk(s) && ElementOk(s, element) && KindOf(s) == Points
    ensures ShapeEvalNormalAsWritten(m, s, instance, element) == Zero3()
  {
  }

  /** `Shape::eval_normal` with the point test the right way round: a point faces
      the fixed up vector (0, 0, 1), and a shape with no elements has no normal. */
  function ShapeEvalNormal(m: Maths, s: Shape, instance: Instance, element: nat): Vec3
    requires ShapeOk(s) && ElementOk(s, element)
  {
    if KindOf(s) in {Triangles, Quads, Lines} then ElementNormal(m, s, instance, element)
    else if |s.points| > 0 then Vec3(0.0, 0.0, 1.0)
    else Zero3()
  }

  /** The normal dispatch: elements with area or length get their geometric normal,
      points the up vector, and an empty shape the zero vector. The two versions
      differ exactly on shapes without triangles, quads or lines. */
  lemma ShapeNormalDispatch(m: Maths, s: Shape, instance: Instance, element: nat)
    requires ShapeOk(s) && ElementOk(s, element)
    ensures KindOf(s) == Points ==> ShapeEvalNormal(m, s, instance, element) == Vec3(0.0, 0.0, 1.0)
    ensures KindOf(s) == NoElements ==> ShapeEvalNormal(m, s, instance, element) == Zero3()
    ensures KindOf(s) in {Triangles, Quads, Lines} ==>
      ShapeEvalNormal(m, s, instance, element) == ShapeEvalNormalAsWritten(m, s, instance, element)
    ensures KindOf(s) in {Points, NoElements} ==>
      ShapeEvalNormal(m, s, instance, element) != ShapeEvalNormalAsWritten(m, s, instance, element)
  {
  }
}
