// The scene queries of `scene.rs` that the integrators use at a hit: texture
// evaluation with tiling or clamping and bilinear filtering, vertex attribute
// interpolation, shading position and normal, and the material point with its
// roughness fix-up and volume density.

module Scenes {
  import opened Vectors
  import opened Geometry
  import opened SceneComponents
  import opened Shading
  import opened Bvh
  import opened Utils

  /** `MIN_ROUGHNESS = 0.03 * 0.03`. */
  const MinRoughness: real := 0.0009

  datatype Scene = Scene(
    cameras: seq<Camera>, instances: seq<Instance>, environments: seq<Environment>,
    shapes: seq<Shape>, textures: seq<Texture>, materials: seq<Material>)

  // ---------------------------------------------------------------------------
  // Textures

  /** A texture reference is `INVALID` or names a well-formed texture. */
  predicate TextureRefOk(scene: Scene, idx: nat)
  {
    idx == Invalid || (idx < |scene.textures| && TextureOk(scene.textures[idx]))
  }

  /** Float `x % 1.0`: the remainder keeps the sign of `x`. */
  function FMod1(x: real): real
  {
    if x >= 0.0 then x - x.Floor as real else x + (-x).Floor as real
  }

  /** The texel-space coordinate with tiling: the fractional part, scaled, and
      moved up by one period when negative. */
  function TileCoord(x: real, size: nat): real
  {
    var s := FMod1(x) * size as real;
    if s < 0.0 then s + size as real else s
  }

  /** The texel-space coordinate with clamping to the edge. */
  function EdgeCoord(x: real, size: nat): real
  {
    Clamp(x, 0.0, 1.0) * size as real
  }

  const U32Max: nat := 4294967295

  /** The float-to-`u32` cast: towards zero, negative values become 0, large ones saturate. */
  function CastU32(x: real): nat
  {
    if x <= 0.0 then 0 else if x.Floor > U32Max then U32Max else x.Floor
  }

  /** The texel a coordinate falls in, clamped to `[0, size - 1]`. */
  function TexelIndex(s: real, size: nat): (k: nat)
    requires size > 0
    ensures k < size
  {
    var c := CastU32(s);
    if c > size - 1 then size - 1 else c
  }

  /** The texel indices `(i, j)`, their wrap-around neighbours `(ii, jj)` and the
      bilinear residuals `(u, v)`. */
  datatype TexelCoords = TexelCoords(i: nat, j: nat, ii: nat, jj: nat, u: real, v: real)

  function TexelCoordsOf(t: Texture, uv: Vec2, clampToEdge: bool): (c: TexelCoords)
    requires t.width > 0 && t.height > 0
    ensures c.i < t.width && c.ii < t.width && c.j < t.height && c.jj < t.height
  {
    var s := if clampToEdge then EdgeCoord(uv.x, t.width) else TileCoord(uv.x, t.width);
    var q := if clampToEdge then EdgeCoord(uv.y, t.height) else TileCoord(uv.y, t.height);
    var i := TexelIndex(s, t.width);
    var j := TexelIndex(q, t.height);
    TexelCoords(i, j, (i + 1) % t.width, (j + 1) % t.height, s - i as real, q - j as real)
  }

  /** The bilinear blend of four texels with residuals `u`, `v`. */
  function Bilinear(c00: Vec4, c01: Vec4, c10: Vec4, c11: Vec4, u: real, v: real): Vec4
  {
    Add4(Add4(Scale4(Scale4(c00, 1.0 - u), 1.0 - v), Scale4(Scale4(c01, 1.0 - u), v)),
         Add4(Scale4(Scale4(c10, u), 1.0 - v), Scale4(Scale4(c11, u), v)))
  }

  /** `eval_texture`: white for no texture, black for an empty one, otherwise the
      texel at `uv`, filtered bilinearly unless `noInterpolation`. */
  function EvalTexture(m: Maths, scene: Scene, idx: nat, uv: Vec2, asLinear: bool,
                       noInterpolation: bool, clampToEdge: bool): Vec4
    requires TextureRefOk(scene, idx)
  {
    if idx == Invalid then One4()
    else
      var t := scene.textures[idx];
      if t.width == 0 || t.height == 0 then Zero4()
      else
        var c := TexelCoordsOf(t, uv, clampToEdge);
        if noInterpolation then Lookup(m, t, c.i, c.j, asLinear)
        else Bilinear(Lookup(m, t, c.i, c.j, asLinear), Lookup(m, t, c.i, c.jj, asLinear),
                      Lookup(m, t, c.ii, c.j, asLinear), Lookup(m, t, c.ii, c.jj, asLinear), c.u, c.v)
  }

  /** The guards of `eval_texture`: no texture reads as white and an empty one as
      black (so `width - 1` is never taken of 0); without interpolation the result is
      the texel the coordinates fall in. */
  lemma TextureGuards(m: Maths, scene: Scene, idx: nat, uv: Vec2, asLinear: bool, clampToEdge: bool)
    requires TextureRefOk(scene, idx)
    ensures idx == Invalid ==> EvalTexture(m, scene, idx, uv, asLinear, false, clampToEdge) == One4()
    ensures idx != Invalid && (scene.textures[idx].width == 0 || scene.textures[idx].height == 0) ==>
      EvalTexture(m, scene, idx, uv, asLinear, false, clampToEdge) == Zero4()
    ensures idx != Invalid && scene.textures[idx].width > 0 && scene.textures[idx].height > 0 ==>
      var t := scene.textures[idx];
      var c := TexelCoordsOf(t, uv, clampToEdge);
      EvalTexture(m, scene, idx, uv, asLinear, true, clampToEdge) == Lookup(m, t, c.i, c.j, asLinear)
  {
  }

  /** The four bilinear weights sum to one, so blending one colour gives it back. */
  lemma BilinearOfConstant(c: Vec4, u: real, v: real)
    ensures Bilinear(c, c, c, c, u, v) == c
  {
    assert (1.0 - u) * (1.0 - v) + (1.0 - u) * v + u * (1.0 - v) + u * v == 1.0;
    assert c.x * (1.0 - u) * (1.0 - v) + c.x * (1.0 - u) * v + c.x * u * (1.0 - v) + c.x * u * v == c.x;
    assert c.y * (1.0 - u) * (1.0 - v) + c.y * (1.0 - u) * v + c.y * u * (1.0 - v) + c.y * u * v == c.y;
    assert c.z * (1.0 - u) * (1.0 - v) + c.z * (1.0 - u) * v + c.z * u * (1.0 - v) + c.z * u * v == c.z;
    assert c.w * (1.0 - u) * (1.0 - v) + c.w * (1.0 - u) * v + c.w * u * (1.0 - v) + c.w * u * v == c.w;
  }

  /** A texture whose texels all look the same evaluates to that colour everywhere,
      filtered or not. */
  lemma ConstantTexture(m: Maths, scene: Scene, idx: nat, uv: Vec2, asLinear: bool,
                        noInterpolation: bool, clampToEdge: bool, c: Vec4)
    requires idx != Invalid && TextureRefOk(scene, idx)
    requires scene.textures[idx].width > 0 && scene.textures[idx].height > 0
    requires forall i: nat, j: nat :: i < scene.textures[idx].width && j < scene.textures[idx].height ==>
      Lookup(m, scene.textures[idx], i, j, asLinear) == c
    ensures EvalTexture(m, scene, idx, uv, asLinear, noInterpolation, clampToEdge) == c
  {
    var t := scene.textures[idx];
    var k := TexelCoordsOf(t, uv, clampToEdge);
    BilinearOfConstant(c, k.u, k.v);
  }

  /** The remainder of `x % 1.0` lies strictly between -1 and 1. */
  lemma FMod1Range(x: real)
    ensures -1.0 < FMod1(x) < 1.0
    ensures x >= 0.0 ==> FMod1(x) >= 0.0
  {
  }

  /** With tiling, the texel-space coordinate lies in `[0, size)`. */
  lemma TileCoordInRange(x: real, size: nat)
    requires size > 0
    ensures 0.0 <= TileCoord(x, size) < size as real
  {
    FMod1Range(x);
    var f := FMod1(x);
    var w := size as real;
    if f >= 0.0 {
      assert f * w < 1.0 * w;
    } else {
      assert f * w > -1.0 * w;
    }
  }

  /** The remainder of `x % 1.0` moves by one period, or not at all, when `x` does. */
  lemma FMod1Shift(x: real)
    ensures FMod1(x + 1.0) == FMod1(x) || FMod1(x + 1.0) == FMod1(x) + 1.0
    ensures FMod1(x + 1.0) == FMod1(x) + 1.0 ==> FMod1(x) < 0.0
    ensures FMod1(x + 1.0) == FMod1(x) ==> (FMod1(x) < 0.0 <==> FMod1(x + 1.0) < 0.0)
  {
    if x >= 0.0 {
      assert (x + 1.0).Floor == x.Floor + 1;
    } else if x + 1.0 >= 0.0 {
      if x > -1.0 {
        assert (-x).Floor == 0;
        assert (x + 1.0).Floor == 0;
      } else {
        assert (-x).Floor == 1;
      }
    } else {
      assert (-x).Floor == (-(x + 1.0)).Floor + 1;
    }
  }

  lemma ScaleShift(f: real, w: real)
    ensures (f + 1.0) * w == f * w + w
  {
  }

  /** Tiling repeats with period one in texture space. */
  lemma TileCoordPeriodic(x: real, size: nat)
    ensures TileCoord(x + 1.0, size) == TileCoord(x, size)
  {
    FMod1Shift(x);
    FMod1Range(x);
    FMod1Range(x + 1.0);
    var w := size as real;
    if FMod1(x + 1.0) == FMod1(x) + 1.0 {
      ScaleShift(FMod1(x), w);
      if size > 0 {
        assert FMod1(x) * w < 0.0;
        assert FMod1(x + 1.0) * w >= 0.0;
      }
    } else if size > 0 {
      assert FMod1(x) * w < 0.0 <==> FMod1(x + 1.0) * w < 0.0;
    }
  }

  /** A tiled texture reads the same one period further along either axis. */
  lemma TextureTiles(m: Maths, scene: Scene, idx: nat, uv: Vec2, asLinear: bool, noInterpolation: bool)
    requires TextureRefOk(scene, idx)
    ensures EvalTexture(m, scene, idx, Vec2(uv.x + 1.0, uv.y), asLinear, noInterpolation, false)
         == EvalTexture(m, scene, idx, uv, asLinear, noInterpolation, false)
    ensures EvalTexture(m, scene, idx, Vec2(uv.x, uv.y + 1.0), asLinear, noInterpolation, false)
         == EvalTexture(m, scene, idx, uv, asLinear, noInterpolation, false)
  {
    if idx != Invalid {
      var t := scene.textures[idx];
      if t.width > 0 && t.height > 0 {
        TexelCoordsTile(t, uv);
      }
    }
  }

  /** With tiling, the texels and residuals repeat one period further along either axis. */
  lemma TexelCoordsTile(t: Texture, uv: Vec2)
    requires t.width > 0 && t.height > 0
    ensures TexelCoordsOf(t, Vec2(uv.x + 1.0, uv.y), false) == TexelCoordsOf(t, uv, false)
    ensures TexelCoordsOf(t, Vec2(uv.x, uv.y + 1.0), false) == TexelCoordsOf(t, uv, false)
  {
    TileCoordPeriodic(uv.x, t.width);
    TileCoordPeriodic(uv.y, t.height);
  }

  // ---------------------------------------------------------------------------
  // Vertex attributes

  /** The element hit lies on a shape of an instance of the scene. */
  predicate HitOk(scene: Scene, bi: BvhIntersection)
  {
    bi.instance < |scene.instances| &&
    scene.instances[bi.instance].shape < |scene.shapes| &&
    ShapeOk(scene.shapes[scene.instances[bi.instance].shape]) &&
    ElementOk(scene.shapes[scene.instances[bi.instance].shape], bi.element)
  }

  function ShapeOf(scene: Scene, bi: BvhIntersection): Shape
    requires HitOk(scene, bi)
  {
    scene.shapes[scene.instances[bi.instance].shape]
  }

  /** `eval_texcoord`: the interpolated vertex texture coordinates, or the hit's
      own `uv` when the shape has none. */
  function EvalTexcoord(s: Shape, element: nat, uv: Vec2): Vec2
    requires ShapeOk(s) && ElementOk(s, element)
  {
    var tc := s.texcoords;
    if |tc| == 0 then uv
    else match KindOf(s)
      case Triangles =>
        var t := s.triangles[element];
        Triangle2(tc[t.x], tc[t.y], tc[t.z], uv)
      case Quads =>
        var q := s.quads[element];
        Quad2(tc[q.x], tc[q.y], tc[q.z], tc[q.w], uv)
      case Lines =>
        var l := s.lines[element];
        Line2(tc[l.x], tc[l.y], uv.x)
      case Points => tc[s.points[element]]
      case NoElements => Zero2()
  }

  /** `eval_color`: the interpolated vertex colours, or opaque white when the shape
      has none. */
  function EvalColor(s: Shape, element: nat, uv: Vec2): Vec4
    requires ShapeOk(s) && ElementOk(s, element)
  {
    var cs := s.colors;
    if |cs| == 0 then One4()
    else match KindOf(s)
      case Triangles =>
        var t := s.triangles[element];
        Triangle4(cs[t.x], cs[t.y], cs[t.z], uv)
      case Quads =>
        var q := s.quads[element];
        Quad4(cs[q.x], cs[q.y], cs[q.z], cs[q.w], uv)
      case Lines =>
        var l := s.lines[element];
        Line4(cs[l.x], cs[l.y], uv.x)
      case Points => cs[s.points[element]]
      case NoElements => Zero4()
  }

  /** Without per-vertex data the hit's `uv` and opaque white are used; with it, a
      triangle's corners reproduce its vertices' texture coordinates and colours. */
  lemma AttributeDefaults(s: Shape, element: nat, uv: Vec2)
    requires ShapeOk(s) && ElementOk(s, element)
    ensures |s.texcoords| == 0 ==> EvalTexcoord(s, element, uv) == uv
    ensures |s.colors| == 0 ==> EvalColor(s, element, uv) == One4()
    ensures |s.texcoords| > 0 && KindOf(s) == Triangles ==>
      var t := s.triangles[element];
      EvalTexcoord(s, element, Vec2(0.0, 0.0)) == s.texcoords[t.x]
      && EvalTexcoord(s, element, Vec2(1.0, 0.0)) == s.texcoords[t.y]
      && EvalTexcoord(s, element, Vec2(0.0, 1.0)) == s.texcoords[t.z]
    ensures |s.colors| > 0 && KindOf(s) == Triangles ==>
      var t := s.triangles[element];
      EvalColor(s, element, Vec2(0.0, 0.0)) == s.colors[t.x]
      && EvalColor(s, element, Vec2(1.0, 0.0)) == s.colors[t.y]
      && EvalColor(s, element, Vec2(0.0, 1.0)) == s.colors[t.z]
  {
  }

  // ---------------------------------------------------------------------------
  // Shading position and normal

  /** `Scene::eval_position`: the element position taken into world space. */
  function EvalPosition(s: Shape, instance: Instance, element: nat, uv: Vec2): Vec3
    requires ShapeOk(s) && ElementOk(s, element)
  {
    if KindOf(s) == NoElements then Zero3()
    else TransformPoint(instance.frame, ShapeEvalPosition(s, element, uv))
  }

  /** `eval_shading_position`: surfaces and lines in world space; a point shape
      returns its vertex as stored, without the instance frame. */
  function EvalShadingPosition(scene: Scene, bi: BvhIntersection): Vec3
    requires HitOk(scene, bi)
  {
    var instance := scene.instances[bi.instance];
    var s := ShapeOf(scene, bi);
    match KindOf(s)
      case Triangles => EvalPosition(s, instance, bi.element, bi.uv)
      case Quads => EvalPosition(s, instance, bi.element, bi.uv)
      case Lines => EvalPosition(s, instance, bi.element, bi.uv)
      case Points => ShapeEvalPosition(s, bi.element, bi.uv)
      case NoElements => Zero3()
  }

  /** The shading position is the object-space position through the instance
      frame, except on point shapes, where it is the object-space position itself. */
  lemma ShadingPositionFrames(scene: Scene, bi: BvhIntersection)
    requires HitOk(scene, bi)
    ensures KindOf(ShapeOf(scene, bi)) in {Triangles, Quads, Lines} ==>
      EvalShadingPosition(scene, bi)
        == TransformPoint(scene.instances[bi.instance].frame, ShapeEvalPosition(ShapeOf(scene, bi), bi.element, bi.uv))
    ensures KindOf(ShapeOf(scene, bi)) == Points ==>
      EvalShadingPosition(scene, bi) == ShapeEvalPosition(ShapeOf(scene, bi), bi.element, bi.uv)
  {
  }

  /** `eval_normal` of `scene.rs`: the interpolated vertex normals, normalised and
      taken into world space, or the geometric normal when the shape has none
      (the corrected `ShapeEvalNormal`, whose points get the up vector). */
  function EvalNormal(m: Maths, s: Shape, instance: Instance, element: nat, uv: Vec2): Vec3
    requires ShapeOk(s) && ElementOk(s, element)
  {
    var ns := s.normals;
    if |ns| == 0 then ShapeEvalNormal(m, s, instance, element)
    else match KindOf(s)
      case Triangles =>
        var t := s.triangles[element];
        TransformDirection(m, instance.frame, m.normalize(Triangle3(ns[t.x], ns[t.y], ns[t.z], uv)))
      case Quads =>
        var q := s.quads[element];
        TransformDirection(m, instance.frame, m.normalize(Quad3(ns[q.x], ns[q.y], ns[q.z], ns[q.w], uv)))
      case Lines =>
        var l := s.lines[element];
        TransformDirection(m, instance.frame, m.normalize(Line3(ns[l.x], ns[l.y], uv.x)))
      case Points =>
        TransformDirection(m, instance.frame, m.normalize(ns[s.points[element]]))
      case NoElements => Zero3()
  }

  /** What `eval_shading_normal` needs: the instance's material exists, and a
      surface's material has no normal map (normal mapping is unimplemented and
      panics). */
  predicate ShadingNormalOk(scene: Scene, bi: BvhIntersection)
  {
    HitOk(scene, bi) && scene.instances[bi.instance].material < |scene.materials| &&
    (KindOf(ShapeOf(scene, bi)) in {Triangles, Quads} ==>
       scene.materials[scene.instances[bi.instance].material].normalTex == Invalid)
  }

  /** `eval_shading_normal`: a surface normal turned towards the viewer unless the
      material is refractive; a line's normal made orthogonal to the view
      direction; a point's sphere normal from the hit's `uv`. */
  function EvalShadingNormal(m: Maths, scene: Scene, bi: BvhIntersection, outgoing: Vec3): Vec3
    requires ShadingNormalOk(scene, bi)
  {
    var instance := scene.instances[bi.instance];
    var s := ShapeOf(scene, bi);
    var material := scene.materials[instance.material];
    match KindOf(s)
      case Triangles => FaceViewer(EvalNormal(m, s, instance, bi.element, bi.uv), outgoing, material.mType)
      case Quads => FaceViewer(EvalNormal(m, s, instance, bi.element, bi.uv), outgoing, material.mType)
      case Lines => Orthonormalize(m, outgoing, EvalNormal(m, s, instance, bi.element, bi.uv))
      case Points => TransformDirection(m, instance.frame, m.sphereDirection(bi.uv))
      case NoElements => Zero3()
  }

  /** The flip of a surface normal towards the outgoing direction. */
  function FaceViewer(normal: Vec3, outgoing: Vec3, mType: MaterialType): Vec3
  {
    if Dot(normal, outgoing) >= 0.0 || mType == Refractive then normal else Neg3(normal)
  }

  /** On triangles and quads the shading normal faces the viewer, except for
      refractive materials, which keep the unflipped normal; either way it is the
      interpolated normal up to sign. */
  lemma ShadingNormalFacesViewer(m: Maths, scene: Scene, bi: BvhIntersection, outgoing: Vec3)
    requires ShadingNormalOk(scene, bi) && KindOf(ShapeOf(scene, bi)) in {Triangles, Quads}
    ensures var material := scene.materials[scene.instances[bi.instance].material];
      var n := EvalNormal(m, ShapeOf(scene, bi), scene.instances[bi.instance], bi.element, bi.uv);
      var sn := EvalShadingNormal(m, scene, bi, outgoing);
      (material.mType != Refractive ==> Dot(sn, outgoing) >= 0.0)
      && (material.mType == Refractive ==> sn == n)
      && (sn == n || sn == Neg3(n))
  {
    var n := EvalNormal(m, ShapeOf(scene, bi), scene.instances[bi.instance], bi.element, bi.uv);
    DotNeg(n, outgoing);
  }

  // ---------------------------------------------------------------------------
  // Material point

  /** The per-family fix-up of the squared roughness: matte, glTF PBR and glossy
      are clamped into `[MIN_ROUGHNESS, 1]`; volumetric has none; any other family
      loses a roughness below `MIN_ROUGHNESS`. */
  function FixRoughness(mType: MaterialType, roughness: real): real
  {
    if mType == Matte || mType == Gltfpbr || mType == Glossy then Clamp(roughness, MinRoughness, 1.0)
    else if mType == Volumetric then 0.0
    else if roughness < MinRoughness then 0.0
    else roughness
  }

  /** The fixed roughness: clamped families land in `[MIN_ROUGHNESS, 1]`; the others
      are either 0 or at least `MIN_ROUGHNESS`, and keep any roughness of at least
      `MIN_ROUGHNESS` unchanged. The fix-up is idempotent. */
  lemma FixRoughnessRange(mType: MaterialType, roughness: real)
    ensures mType in {Matte, Gltfpbr, Glossy} ==> MinRoughness <= FixRoughness(mType, roughness) <= 1.0
    ensures mType == Volumetric ==> FixRoughness(mType, roughness) == 0.0
    ensures mType !in {Matte, Gltfpbr, Glossy, Volumetric} ==>
      (FixRoughness(mType, roughness) == 0.0 <==> roughness < MinRoughness)
      && (roughness >= MinRoughness ==> FixRoughness(mType, roughness) == roughness)
    ensures FixRoughness(mType, FixRoughness(mType, roughness)) == FixRoughness(mType, roughness)
  {
  }

  /** What `eval_material` needs: the hit's material exists and its textures are
      absent or well formed. */
  predicate MaterialOk(scene: Scene, bi: BvhIntersection)
  {
    HitOk(scene, bi) && scene.instances[bi.instance].material < |scene.materials| &&
    var mat := scene.materials[scene.instances[bi.instance].material];
    TextureRefOk(scene, mat.emissionTex) && TextureRefOk(scene, mat.colorTex) &&
    TextureRefOk(scene, mat.roughnessTex) && TextureRefOk(scene, mat.scatteringTex)
  }

  /** The volume density `-log(clamp(color, 0.0001, 1)) / trdepth` of the volumetric families. */
  function Density(m: Maths, mType: MaterialType, color: Vec3, trdepth: real): Vec3
  {
    if mType == Refractive || mType == Volumetric || mType == Subsurface then
      Vec3(Div(m, -m.log(Clamp(color.x, 0.0001, 1.0)), trdepth),
           Div(m, -m.log(Clamp(color.y, 0.0001, 1.0)), trdepth),
           Div(m, -m.log(Clamp(color.z, 0.0001, 1.0)), trdepth))
    else Zero3()
  }

  /** `eval_material`: the material's factors times the textures at the hit's
      texture coordinates and the vertex colour, with the roughness squared and then
      fixed up per family. */
  function EvalMaterial(m: Maths, scene: Scene, bi: BvhIntersection): MaterialPoint
    requires MaterialOk(scene, bi)
  {
    var instance := scene.instances[bi.instance];
    var mat := scene.materials[instance.material];
    var s := ShapeOf(scene, bi);
    var texcoord := EvalTexcoord(s, bi.element, bi.uv);
    var emissionTex := EvalTexture(m, scene, mat.emissionTex, texcoord, true, false, false);
    var colorTex := EvalTexture(m, scene, mat.colorTex, texcoord, true, false, false);
    var roughnessTex := EvalTexture(m, scene, mat.roughnessTex, texcoord, false, false, false);
    var scatteringTex := EvalTexture(m, scene, mat.scatteringTex, texcoord, true, false, false);
    var colorShp := EvalColor(s, bi.element, bi.uv);
    var color := Mul3(Mul3(mat.color, Xyz(colorShp)), Xyz(colorTex));
    var roughness := mat.roughness * roughnessTex.y;
    MaterialPoint(
      mat.mType,
      Mul3(mat.emission, Xyz(emissionTex)),
      color,
      FixRoughness(mat.mType, roughness * roughness),
      mat.metallic * roughnessTex.z,
      mat.ior,
      Density(m, mat.mType, color, mat.trdepth),
      Mul3(mat.scattering, Xyz(scatteringTex)),
      mat.scanisotropy,
      mat.trdepth,
      Attenuate(mat.opacity, colorTex.w, colorShp.w))
  }

  /** The opacity scaled by the two alphas. */
  function Attenuate(opacity: real, a: real, b: real): real { opacity * a * b }

  /** An untextured material on a shape without vertex colours is evaluated to its
      own factors, with the squared, fixed-up roughness. */
  lemma UntexturedMaterial(m: Maths, scene: Scene, bi: BvhIntersection)
    requires MaterialOk(scene, bi)
    requires var mat := scene.materials[scene.instances[bi.instance].material];
      mat.emissionTex == Invalid && mat.colorTex == Invalid && mat.roughnessTex == Invalid
      && mat.scatteringTex == Invalid
    requires |ShapeOf(scene, bi).colors| == 0
    ensures var mat := scene.materials[scene.instances[bi.instance].material];
      var mp := EvalMaterial(m, scene, bi);
      mp.mType == mat.mType && mp.emission == mat.emission && mp.color == mat.color
      && mp.opacity == mat.opacity && mp.metallic == mat.metallic && mp.ior == mat.ior
      && mp.scattering == mat.scattering
      && mp.roughness == FixRoughness(mat.mType, mat.roughness * mat.roughness)
  {
  }

  /** The opacity of the material is attenuated by the alpha of the colour texture
      and of the vertex colour: with both alphas in [0, 1] it stays between 0 and
      the material's opacity, a transparent texel or vertex makes the point fully
      transparent, and opaque ones keep the material's opacity. */
  lemma OpacityAttenuated(m: Maths, scene: Scene, bi: BvhIntersection)
    requires MaterialOk(scene, bi)
    ensures var mat := scene.materials[scene.instances[bi.instance].material];
      var a := EvalTexture(m, scene, mat.colorTex, EvalTexcoord(ShapeOf(scene, bi), bi.element, bi.uv),
                           true, false, false).w;
      var b := EvalColor(ShapeOf(scene, bi), bi.element, bi.uv).w;
      var mp := EvalMaterial(m, scene, bi);
      (0.0 <= mat.opacity && 0.0 <= a <= 1.0 && 0.0 <= b <= 1.0 ==> 0.0 <= mp.opacity <= mat.opacity)
      && (a == 0.0 || b == 0.0 ==> mp.opacity == 0.0)
      && (a == 1.0 && b == 1.0 ==> mp.opacity == mat.opacity)
  {
    var mat := scene.materials[scene.instances[bi.instance].material];
    var a := EvalTexture(m, scene, mat.colorTex, EvalTexcoord(ShapeOf(scene, bi), bi.element, bi.uv),
                         true, false, false).w;
    var b := EvalColor(ShapeOf(scene, bi), bi.element, bi.uv).w;
    assert EvalMaterial(m, scene, bi).opacity == Attenuate(mat.opacity, a, b);
    AttenuatedProduct(mat.opacity, a, b);
  }

  lemma AttenuatedProduct(o: real, a: real, b: real)
    ensures 0.0 <= o && 0.0 <= a <= 1.0 && 0.0 <= b <= 1.0 ==> 0.0 <= Attenuate(o, a, b) <= o
    ensures a == 0.0 || b == 0.0 ==> Attenuate(o, a, b) == 0.0
    ensures a == 1.0 && b == 1.0 ==> Attenuate(o, a, b) == o
  {
    var oa := o * a;
    assert Attenuate(o, a, b) == oa * b;
    if 0.0 <= o && 0.0 <= a <= 1.0 && 0.0 <= b <= 1.0 {
      ScaledDown(o, a);
      ScaledDown(oa, b);
    }
  }

  lemma ScaledDown(r: real, a: real)
    requires 0.0 <= r && 0.0 <= a <= 1.0
    ensures 0.0 <= r * a <= r
  {
    MulLeMono(r, a, 1.0);
    MulLeMono(r, 0.0, a);
  }

  /** The material point's family decides its path: matte and glossy points always
      have a usable roughness and are never delta, volumetric points always are, and
      the other families are delta exactly when their squared roughness falls below
      `MIN_ROUGHNESS`. Only the volumetric families get a density. */
  lemma MaterialPointClass(m: Maths, scene: Scene, bi: BvhIntersection)
    requires MaterialOk(scene, bi)
    ensures var mp := EvalMaterial(m, scene, bi);
      (mp.mType in {Matte, Glossy, Gltfpbr} ==> mp.roughness > 0.0 && !IsDelta(mp))
      && (mp.mType == Volumetric ==> IsDelta(mp))
      && (mp.mType in {Reflective, Refractive, Transparent} ==>
            (IsDelta(mp) <==> FixRoughness(mp.mType, mp.roughness) == 0.0))
      && (!IsVolumetric(mp) ==> mp.density == Zero3())
  {
    var mp := EvalMaterial(m, scene, bi);
    var mat := scene.materials[scene.instances[bi.instance].material];
    var r := mat.roughness * EvalTexture(m, scene, mat.roughnessTex,
                                         EvalTexcoord(ShapeOf(scene, bi), bi.element, bi.uv),
                                         false, false, false).y;
    FixRoughnessRange(mat.mType, r * r);
  }
}
