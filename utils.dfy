// The render parameters and render state of `utils.rs`, the classification of
// material points used by the integrators, the shader-name table and the
// random-number streams.

module Utils {
  import opened Vectors
  import opened SceneComponents
  import opened Shading

  // ---------------------------------------------------------------------------
  // Material classification

  /** `is_delta`: perfect reflective, refractive and transparent surfaces, and
      every volumetric material, take the delta path of the integrators. */
  predicate IsDelta(mp: MaterialPoint)
  {
    (mp.mType == Reflective && mp.roughness == 0.0)
    || (mp.mType == Refractive && mp.roughness == 0.0)
    || (mp.mType == Transparent && mp.roughness == 0.0)
    || mp.mType == Volumetric
  }

  /** `is_volumetric`: the families whose interior is a participating medium. */
  predicate IsVolumetric(mp: MaterialPoint)
  {
    mp.mType == Refractive || mp.mType == Volumetric || mp.mType == Subsurface
  }

  /** The classification per family: matte, glossy, subsurface and glTF PBR are
      never delta and volumetric always is; the other three are delta exactly when
      they have no roughness. */
  lemma DeltaByFamily(mp: MaterialPoint)
    ensures mp.mType in {Matte, Glossy, Subsurface, Gltfpbr} ==> !IsDelta(mp)
    ensures mp.mType == Volumetric ==> IsDelta(mp)
    ensures mp.mType in {Reflective, Refractive, Transparent} ==> (IsDelta(mp) <==> mp.roughness == 0.0)
    ensures IsVolumetric(mp) <==> mp.mType in {Refractive, Volumetric, Subsurface}
  {
  }

  /** The integrators' choice of path agrees with the BSDF: a delta material
      carries nothing on the continuous path, and a rough member of the families
      the BSDF supports carries nothing on the delta path. */
  lemma DeltaPathAgreesWithBsdf(m: Maths, mp: MaterialPoint, n: Vec3, o: Vec3, i: Vec3, rnl: real)
    ensures IsDelta(mp) ==>
      EvalBsdfcos(m, mp, n, o, i) == Zero3() && SampleBsdfcosPdf(m, mp, n, o, i) == 0.0
    ensures !IsDelta(mp) && mp.mType in {Matte, Glossy, Reflective} ==>
      SampleDelta(mp, n, o, rnl) == Zero3() && EvalDelta(m, mp, n, o, i) == Zero3()
      && SampleDeltaPdf(mp, n, o, i) == 0.0
  {
  }

  // ---------------------------------------------------------------------------
  // Shaders and parameters

  /** The shader functions a render can use. */
  datatype Shader = ColorShader | EyelightShader | NormalShader | PositionShader
                  | NaiveShader | RaytraceShader

  /** The `--shader` names `from_args` recognises. */
  function ShaderName(s: Shader): string
  {
    match s
      case ColorShader => "color"
      case EyelightShader => "eyelight"
      case NormalShader => "normal"
      case PositionShader => "position"
      case NaiveShader => "naive"
      case RaytraceShader => "raytrace"
  }

  /** The shader-name table of `from_args`; an unknown name selects the path tracer. */
  function ShaderFromName(name: string): Shader
  {
    match name
      case "color" => ColorShader
      case "eyelight" => EyelightShader
      case "normal" => NormalShader
      case "position" => PositionShader
      case "naive" => NaiveShader
      case "raytrace" => RaytraceShader
      case _ => RaytraceShader
  }

  /** Every shader is selected by its own name, and every other name selects the
      path tracer. */
  lemma ShaderTable(s: Shader, name: string)
    ensures ShaderFromName(ShaderName(s)) == s
    ensures (forall t: Shader :: name != ShaderName(t)) ==> ShaderFromName(name) == RaytraceShader
  {
    if forall t: Shader :: name != ShaderName(t) {
      assert name != ShaderName(ColorShader) && name != ShaderName(EyelightShader);
      assert name != ShaderName(NormalShader) && name != ShaderName(PositionShader);
      assert name != ShaderName(NaiveShader);
    }
  }

  datatype RaytraceParams = RaytraceParams(
    camera: nat, resolution: nat, shader: Shader, samples: int, bounces: int,
    noparallel: bool, pratio: int, exposure: real, filmic: bool, clamp: real)

  /** `RaytraceParams::default`: 720 pixels, 256 samples of the path tracer with
      8 bounces, radiance clamped at 10. */
  function DefaultParams(): RaytraceParams
  {
    RaytraceParams(0, 720, RaytraceShader, 256, 8, false, 8, 0.0, false, 10.0)
  }

  /** `from_args`: the parsed options over the defaults. */
  function ParamsFromArgs(shaderName: string, resolution: nat, samples: int, bounces: int,
                          clamp: real, noparallel: bool): (p: RaytraceParams)
    ensures p.shader == ShaderFromName(shaderName)
    ensures p.resolution == resolution && p.samples == samples && p.bounces == bounces
    ensures p.clamp == clamp && p.noparallel == noparallel
    ensures p.camera == DefaultParams().camera && p.pratio == DefaultParams().pratio
    ensures p.exposure == DefaultParams().exposure && p.filmic == DefaultParams().filmic
  {
    DefaultParams().(shader := ShaderFromName(shaderName), resolution := resolution,
                     samples := samples, bounces := bounces, clamp := clamp,
                     noparallel := noparallel)
  }

  // ---------------------------------------------------------------------------
  // Image size

  /** `usize::MAX`. */
  const UsizeMax: nat := 18446744073709551615

  /** `f32::round`: to the nearest integer, halves away from zero. */
  function RoundHalfAway(x: real): int
  {
    if x >= 0.0 then (x + 0.5).Floor else -((-x + 0.5).Floor)
  }

  /** The float-to-`usize` cast: negative values become 0, large ones saturate. */
  function SaturateUsize(k: int): nat
  {
    if k < 0 then 0 else if k > UsizeMax then UsizeMax else k
  }

  /** Rounding moves a value by at most one half. */
  lemma RoundHalfAwayIsNearest(x: real)
    ensures -0.5 <= x - RoundHalfAway(x) as real <= 0.5
    ensures x >= 0.0 ==> RoundHalfAway(x) >= 0
  {
  }

  /** The image size of `from_scene`: the resolution along the longer side, the
      other side scaled by the camera aspect and rounded. */
  function ImageSize(resolution: nat, aspect: real): (wh: (nat, nat))
  {
    if aspect >= 1.0 then (resolution, SaturateUsize(RoundHalfAway(resolution as real / aspect)))
    else (SaturateUsize(RoundHalfAway(Scaled(resolution, aspect))), resolution)
  }

  /** The resolution times the aspect. */
  function Scaled(resolution: nat, aspect: real): real
  {
    resolution as real * aspect
  }

  /** A non-negative value up to `r` is rounded and cast to at most `r`, within one half. */
  lemma RoundedSideBounds(x: real, r: nat)
    requires 0.0 <= x <= r as real && r <= UsizeMax
    ensures SaturateUsize(RoundHalfAway(x)) <= r
    ensures -0.5 <= x - SaturateUsize(RoundHalfAway(x)) as real <= 0.5
  {
    RoundHalfAwayIsNearest(x);
  }

  /** A resolution divided by an aspect of at least one stays within `[0, resolution]`. */
  lemma DivAtMost(resolution: nat, a: real)
    requires a >= 1.0
    ensures 0.0 <= resolution as real / a <= resolution as real
  {
  }

  lemma MulAtMost(r: real, a: real)
    requires 0.0 <= r && 0.0 <= a < 1.0
    ensures 0.0 <= r * a <= r
  {
  }

  /** A resolution scaled by an aspect below one stays within `[0, resolution]`. */
  lemma ScaledAtMost(resolution: nat, a: real)
    requires 0.0 <= a < 1.0
    ensures 0.0 <= Scaled(resolution, a) <= resolution as real
  {
    MulAtMost(resolution as real, a);
  }

  /** The longer side gets the resolution and the shorter side at most the
      resolution, within one half of `resolution / aspect` (or `* aspect`). */
  lemma ImageSizeBounds(resolution: nat, aspect: real)
    requires resolution <= UsizeMax
    ensures aspect >= 1.0 ==>
      ImageSize(resolution, aspect).0 == resolution && ImageSize(resolution, aspect).1 <= resolution
      && -0.5 <= resolution as real / aspect - ImageSize(resolution, aspect).1 as real <= 0.5
    ensures 0.0 <= aspect < 1.0 ==>
      ImageSize(resolution, aspect).1 == resolution && ImageSize(resolution, aspect).0 <= resolution
      && -0.5 <= Scaled(resolution, aspect) - ImageSize(resolution, aspect).0 as real <= 0.5
  {
    if aspect >= 1.0 {
      DivAtMost(resolution, aspect);
      RoundedSideBounds(resolution as real / aspect, resolution);
    } else if aspect >= 0.0 {
      ScaledAtMost(resolution, aspect);
      RoundedSideBounds(Scaled(resolution, aspect), resolution);
    }
  }

  // ---------------------------------------------------------------------------
  // Random numbers

  /** A per-pixel random stream: the seed it was created with and the number of
      values drawn from it so far. */
  datatype Rng = Rng(seed: nat, drawn: nat)

  /** The values of all streams: `Source(seed, k)` is the `k`-th value of the
      stream seeded with `seed`. */
  type Source = (nat, nat) -> real

  /** Every value a source yields lies in [0, 1), as `gen::<f32>()` promises. */
  ghost predicate SourceOk(src: Source)
  {
    forall seed: nat, k: nat :: 0.0 <= src(seed, k) < 1.0
  }

  /** `rand1`: the next value of the stream. */
  function Rand1(src: Source, rng: Rng): (r: (real, Rng))
    ensures r.1 == rng.(drawn := rng.drawn + 1)
    ensures SourceOk(src) ==> 0.0 <= r.0 < 1.0
  {
    (src(rng.seed, rng.drawn), rng.(drawn := rng.drawn + 1))
  }

  /** `rand2`: the next two values, in order. */
  function Rand2(src: Source, rng: Rng): (r: (Vec2, Rng))
    ensures r.1 == rng.(drawn := rng.drawn + 2)
    ensures SourceOk(src) ==> 0.0 <= r.0.x < 1.0 && 0.0 <= r.0.y < 1.0
  {
    var (x, r1) := Rand1(src, rng);
    var (y, r2) := Rand1(src, r1);
    (Vec2(x, y), r2)
  }

  // ---------------------------------------------------------------------------
  // Render state

  /** `RaytraceState`: the image being accumulated with one radiance sum per
      pixel, the number of samples taken, and one random stream per pixel. */
  class RaytraceState {
    var width: nat
    var height: nat
    var samples: int
    var image: seq<Vec4>
    var rngs: seq<Rng>

    /** One image slot and one stream per pixel. */
    ghost predicate Valid()
      reads this
    {
      |image| == width * height && |rngs| == width * height
    }

    /** `from_scene`: the size from the chosen camera's aspect, no samples, a black
        image and a fresh stream per pixel, seeded from `entropy`. */
    constructor FromScene(cameras: seq<Camera>, params: RaytraceParams, entropy: nat -> nat)
      requires params.camera < |cameras|
      ensures (width, height) == ImageSize(params.resolution, cameras[params.camera].aspect)
      ensures samples == 0
      ensures Valid()
      ensures forall k :: 0 <= k < |image| ==> image[k] == Zero4()
      ensures forall k :: 0 <= k < |rngs| ==> rngs[k] == Rng(entropy(k), 0)
    {
      var wh := ImageSize(params.resolution, cameras[params.camera].aspect);
      width := wh.0;
      height := wh.1;
      samples := 0;
      image := seq(wh.0 * wh.1, _ => Zero4());
      rngs := seq(wh.0 * wh.1, k requires 0 <= k => Rng(entropy(k), 0));
    }
  }
}
