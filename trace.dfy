// The integrators of `trace.rs`: the progressive sampling pass over the image,
// the radiance clamp, the debug shaders, and the bounce loops of the naive and
// the full path tracer with opacity skipping, `hit_alpha`, the volume stack and
// Russian roulette. The scene queries come from `Scenes`; everything the model
// does not define (the ray-tracing kernel, the environment, light and medium
// sampling, the camera) is a field of a `Tracer`.

module Trace {
  import opened Vectors
  import opened Grid
  import opened Rays
  import opened SceneComponents
  import opened Shading
  import opened Utils
  import opened Bvh
  import opened Scenes
  import ShadingFacts

  // ---------------------------------------------------------------------------
  // Loop control of the bounce loops

  /** What one pass of a bounce loop met: a miss, an opacity-skipped surface, a
      shaded surface or a scattering event inside a medium; `stop` says that the
      pass ended the loop (no direction, a null weight, or Russian roulette). */
  datatype Event = Miss | Skip | Surface(stop: bool) | Medium(stop: bool)

  /** The loop variables that decide control: the bounce counter, `hit_alpha`,
      and whether the loop is over. */
  datatype Control = Control(bounce: int, alpha: real, done: bool)

  function Start(bounces: int): Control
  {
    Control(0, 0.0, bounces <= 0)
  }

  /** One pass of the loop. An opacity skip leaves the bounce counter as it is
      (`asWritten` instead runs the `bounce -= 1` of the source, which with the
      `continue` bypassing `bounce += 1` nets one bounce less). */
  function Step(c: Control, e: Event, bounces: int, asWritten: bool): Control
  {
    if c.done then c
    else match e
      case Miss => c.(done := true)
      case Skip =>
        var b := if asWritten then c.bounce - 1 else c.bounce;
        Control(b, c.alpha, b >= bounces)
      case Surface(stop) =>
        var a := if c.bounce == 0 then 1.0 else c.alpha;
        if stop then Control(c.bounce, a, true) else Control(c.bounce + 1, a, c.bounce + 1 >= bounces)
      case Medium(stop) =>
        if stop then c.(done := true) else Control(c.bounce + 1, c.alpha, c.bounce + 1 >= bounces)
  }

  /** The control state after a sequence of passes. */
  function Run(events: seq<Event>, bounces: int, asWritten: bool): Control
  {
    if |events| == 0 then Start(bounces)
    else Step(Run(events[..|events| - 1], bounces, asWritten), events[|events| - 1], bounces, asWritten)
  }

  /** Every pass of the sequence happened while the loop was still running. */
  ghost predicate Live(events: seq<Event>, bounces: int, asWritten: bool)
  {
    forall k :: 0 <= k < |events| ==> !Run(events[..k], bounces, asWritten).done
  }

  /** The passes that went on to the next bounce. */
  function Scatters(events: seq<Event>): (n: nat)
    ensures n <= |events|
  {
    if |events| == 0 then 0
    else Scatters(events[..|events| - 1])
         + (if events[|events| - 1] in {Surface(false), Medium(false)} then 1 else 0)
  }

  /** No pass of the sequence scattered in a medium. */
  predicate MediumFree(events: seq<Event>)
  {
    |events| == 0 || (MediumFree(events[..|events| - 1]) && !events[|events| - 1].Medium?)
  }

  /** A medium-free sequence has no medium pass at any position. */
  lemma {:induction false} MediumFreeAt(events: seq<Event>, k: nat)
    requires MediumFree(events) && k < |events|
    ensures !events[k].Medium?
    decreases |events|
  {
    if k < |events| - 1 {
      var init := events[..|events| - 1];
      MediumFreeAt(init, k);
      assert init[k] == events[k];
    }
  }

  /** Appending a pass runs one more step, and a live sequence stays live when the
      loop had not ended. */
  lemma Extend(events: seq<Event>, e: Event, bounces: int, asWritten: bool)
    ensures Run(events + [e], bounces, asWritten) == Step(Run(events, bounces, asWritten), e, bounces, asWritten)
    ensures Scatters(events + [e]) == Scatters(events) + (if e in {Surface(false), Medium(false)} then 1 else 0)
    ensures MediumFree(events + [e]) <==> MediumFree(events) && !e.Medium?
    ensures Live(events, bounces, asWritten) && !Run(events, bounces, asWritten).done ==>
      Live(events + [e], bounces, asWritten)
  {
    var ext := events + [e];
    assert ext[..|events|] == events;
    if Live(events, bounces, asWritten) && !Run(events, bounces, asWritten).done {
      forall k | 0 <= k < |ext|
        ensures !Run(ext[..k], bounces, asWritten).done
      {
        assert ext[..k] == events[..k] || k == |events|;
        if k < |events| {
          assert ext[..k] == events[..k];
        }
      }
    }
  }

  /** Only opacity skips before it. */
  predicate AllSkips(events: seq<Event>)
  {
    forall j :: 0 <= j < |events| ==> events[j] == Skip
  }

  /** The camera ray, past any opacity-skipped surfaces, hits a surface that is
      shaded. */
  predicate CameraHit(events: seq<Event>)
  {
    exists k :: 0 <= k < |events| && events[k].Surface? && AllSkips(events[..k])
  }

  lemma CameraHitSnoc(events: seq<Event>, e: Event)
    ensures CameraHit(events + [e]) <==> CameraHit(events) || (AllSkips(events) && e.Surface?)
    ensures AllSkips(events + [e]) <==> AllSkips(events) && e == Skip
  {
    var ext := events + [e];
    if CameraHit(ext) {
      var k :| 0 <= k < |ext| && ext[k].Surface? && AllSkips(ext[..k]);
      if k < |events| {
        assert ext[..k] == events[..k];
        assert CameraHit(events);
      } else {
        assert ext[..k] == events;
      }
    }
    if CameraHit(events) {
      var k :| 0 <= k < |events| && events[k].Surface? && AllSkips(events[..k]);
      assert ext[..k] == events[..k];
      assert ext[k].Surface? && AllSkips(ext[..k]);
    }
    if AllSkips(events) && e.Surface? {
      assert ext[..|events|] == events;
      assert ext[|events|].Surface? && AllSkips(ext[..|events|]);
    }
    if AllSkips(ext) {
      assert ext[|events|] == e;
      forall j | 0 <= j < |events| ensures events[j] == Skip {
        assert ext[j] == events[j];
      }
    }
  }

  /** The bounce counter of the corrected loop: it stays at 0 through opacity
      skips, moves on or ends the loop at the first other pass, never drops below
      0, and stays below `bounces` while the loop runs. */
  lemma {:induction false} ControlCounter(events: seq<Event>, bounces: int)
    ensures AllSkips(events) ==> Run(events, bounces, false) == Start(bounces)
    ensures !AllSkips(events) ==> Run(events, bounces, false).done || Run(events, bounces, false).bounce >= 1
    ensures 0 <= Run(events, bounces, false).bounce
    ensures !Run(events, bounces, false).done ==> Run(events, bounces, false).bounce < bounces
  {
    if |events| > 0 {
      var prefix := events[..|events| - 1];
      var e := events[|events| - 1];
      assert events == prefix + [e];
      ControlCounter(prefix, bounces);
      CameraHitSnoc(prefix, e);
      Extend(prefix, e, bounces, false);
      StepCounter(Run(prefix, bounces, false), e, bounces);
    }
  }

  /** One pass of the corrected loop keeps the counter bounds, leaves the start
      state in place on an opacity skip and leaves it on any other pass. */
  lemma StepCounter(c: Control, e: Event, bounces: int)
    requires 0 <= c.bounce && (!c.done ==> c.bounce < bounces)
    ensures 0 <= Step(c, e, bounces, false).bounce
    ensures !Step(c, e, bounces, false).done ==> Step(c, e, bounces, false).bounce < bounces
    ensures c == Start(bounces) && e == Skip ==> Step(c, e, bounces, false) == Start(bounces)
    ensures c == Start(bounces) && e != Skip ==> Step(c, e, bounces, false).done || Step(c, e, bounces, false).bounce >= 1
    ensures c.done || c.bounce >= 1 ==> Step(c, e, bounces, false).done || Step(c, e, bounces, false).bounce >= 1
  {
  }

  /** `hit_alpha` of the corrected loop is 0 or 1, and it is 1 exactly when the
      camera ray, past opacity-skipped surfaces, hits a shaded surface while there
      is a bounce to take. */
  lemma {:induction false} ControlAlpha(events: seq<Event>, bounces: int)
    ensures Run(events, bounces, false).alpha == 0.0 || Run(events, bounces, false).alpha == 1.0
    ensures Run(events, bounces, false).alpha == 1.0 <==> bounces > 0 && CameraHit(events)
  {
    if |events| > 0 {
      var prefix := events[..|events| - 1];
      var e := events[|events| - 1];
      assert events == prefix + [e];
      ControlAlpha(prefix, bounces);
      ControlCounter(prefix, bounces);
      CameraHitSnoc(prefix, e);
      Extend(prefix, e, bounces, false);
      StepAlpha(Run(prefix, bounces, false), e, bounces, AllSkips(prefix), CameraHit(prefix));
    } else {
      assert !CameraHit(events);
    }
  }

  /** One pass of the corrected loop sets `hit_alpha` to 1 exactly at the first
      shaded surface after opacity skips, while a bounce is left. */
  lemma StepAlpha(c: Control, e: Event, bounces: int, skips: bool, hit: bool)
    requires c.alpha == 0.0 || c.alpha == 1.0
    requires c.alpha == 1.0 <==> bounces > 0 && hit
    requires skips ==> c == Start(bounces)
    requires !skips ==> c.done || c.bounce >= 1
    ensures Step(c, e, bounces, false).alpha == 0.0 || Step(c, e, bounces, false).alpha == 1.0
    ensures Step(c, e, bounces, false).alpha == 1.0 <==> bounces > 0 && (hit || (skips && e.Surface?))
  {
  }

  /** On a live run of the corrected loop the bounce counter is the number of
      passes that went on to the next bounce. */
  lemma {:induction false} ControlScatters(events: seq<Event>, bounces: int)
    ensures Live(events, bounces, false) ==> Run(events, bounces, false).bounce == Scatters(events)
  {
    if |events| > 0 && Live(events, bounces, false) {
      var prefix := events[..|events| - 1];
      var e := events[|events| - 1];
      assert events == prefix + [e];
      assert Live(prefix, bounces, false) by {
        forall k | 0 <= k < |prefix| ensures !Run(prefix[..k], bounces, false).done {
          assert prefix[..k] == events[..k];
        }
      }
      assert events[..|prefix|] == prefix;
      ControlScatters(prefix, bounces);
      Extend(prefix, e, bounces, false);
    }
  }

  /** The loop as corrected, all facts together. */
  lemma ControlFacts(events: seq<Event>, bounces: int)
    ensures Run(events, bounces, false).alpha == 0.0 || Run(events, bounces, false).alpha == 1.0
    ensures Run(events, bounces, false).alpha == 1.0 <==> bounces > 0 && CameraHit(events)
    ensures AllSkips(events) ==> Run(events, bounces, false) == Start(bounces)
    ensures !AllSkips(events) ==> Run(events, bounces, false).done || Run(events, bounces, false).bounce >= 1
    ensures 0 <= Run(events, bounces, false).bounce
    ensures !Run(events, bounces, false).done ==> Run(events, bounces, false).bounce < bounces
    ensures Live(events, bounces, false) ==> Run(events, bounces, false).bounce == Scatters(events)
  {
    ControlCounter(events, bounces);
    ControlAlpha(events, bounces);
    ControlScatters(events, bounces);
  }

  /** On a live run the corrected loop takes at most `bounces` bounces. */
  lemma BouncesBounded(events: seq<Event>, bounces: int)
    requires Live(events, bounces, false)
    ensures Scatters(events) <= (if bounces > 0 then bounces else 0)
  {
    ControlFacts(events, bounces);
  }

  /** The loop as written: skipping a transparent surface while `bounce == 0`
      sends the counter to -1. The surface shaded next is then not at bounce 0,
      so `hit_alpha` stays 0 although the camera ray hit it, and the loop takes
      one bounce more than `bounces`. The corrected loop sets `hit_alpha` and
      stops after the one bounce. */
  lemma OpacitySkipAsWritten()
    ensures var events := [Skip, Surface(false), Miss];
      Live(events, 1, true) && CameraHit(events) && Run(events, 1, true).alpha == 0.0
    ensures var events := [Skip, Surface(false), Surface(false)];
      Live(events, 1, true) && Scatters(events) == 2
    ensures var events := [Skip, Surface(false)];
      Live(events, 1, false) && Run(events, 1, false) == Control(1, 1.0, true)
  {
    var e1 := [Skip];
    var e2 := [Skip, Surface(false)];
    var miss := [Skip, Surface(false), Miss];
    var twice := [Skip, Surface(false), Surface(false)];
    assert e1[..0] == [] && e2[..1] == e1;
    assert miss[..0] == [] && miss[..1] == e1 && miss[..2] == e2;
    assert twice[..0] == [] && twice[..1] == e1 && twice[..2] == e2;
    assert Run(e1, 1, true) == Control(-1, 0.0, false);
    assert Run(e2, 1, true) == Control(0, 0.0, false);
    assert Run(e1, 1, false) == Control(0, 0.0, false);
    assert miss[1].Surface? && AllSkips(miss[..1]);
  }

  // ---------------------------------------------------------------------------
  // Collaborators

  /** What the integrators call but the model does not define: the kernel's
      scene query, `eval_environment`, light sampling, the medium's transmittance
      and phase function, the camera and `sample_disk`. */
  datatype Tracer = Tracer(
    m: Maths,
    kernel: Ray -> RayHit,
    environment: Vec3 -> Vec3,
    sampleLights: (Vec3, real, real, Vec2) -> Vec3,
    sampleLightsPdf: (Vec3, Vec3) -> real,
    sampleTransmittance: (MaterialPoint, real, real, real) -> real,
    evalTransmittance: (MaterialPoint, real) -> Vec3,
    sampleTransmittancePdf: (MaterialPoint, real, real) -> real,
    sampleScattering: (MaterialPoint, Vec3, Vec2) -> Vec3,
    evalScattering: (MaterialPoint, Vec3, Vec3) -> Vec3,
    sampleScatteringPdf: (MaterialPoint, Vec3, Vec3) -> real,
    cameraRay: (Camera, Vec2, Vec2) -> Ray,
    sampleDisk: Vec2 -> Vec2)

  /** Every hit the kernel reports can be shaded: it lies on an element of the scene
      whose material exists and is well formed. */
  ghost predicate TracerOk(t: Tracer, scene: Scene)
  {
    (forall ray {:trigger ShadingNormalOk(scene, Intersect(t.kernel, ray))} {:trigger HitOk(scene, Intersect(t.kernel, ray))} ::
       Intersect(t.kernel, ray).hit ==> ShadingNormalOk(scene, Intersect(t.kernel, ray)))
    && (forall ray {:trigger MaterialOk(scene, Intersect(t.kernel, ray))} ::
          Intersect(t.kernel, ray).hit ==> MaterialOk(scene, Intersect(t.kernel, ray)))
  }

  function Vec4Of(v: Vec3, w: real): Vec4 { Vec4(v.x, v.y, v.z, w) }

  // ---------------------------------------------------------------------------
  // Debug shaders

  /** `shade_color`: the material colour at the first hit. */
  function ShadeColor(t: Tracer, scene: Scene, ray: Ray): (r: Vec4)
    requires TracerOk(t, scene)
    ensures !Intersect(t.kernel, ray).hit ==> r == Zero4()
    ensures r.w == 0.0
  {
    var bi := Intersect(t.kernel, ray);
    if !bi.hit then Zero4() else Vec4Of(EvalMaterial(t.m, scene, bi).color, 0.0)
  }

  /** `(v * 0.5).add_scalar(0.5)`: a unit vector mapped into the colour cube. */
  function ToColorCube(v: Vec3): Vec3
  {
    Vec3(v.x * 0.5 + 0.5, v.y * 0.5 + 0.5, v.z * 0.5 + 0.5)
  }

  /** The mapping takes `[-1, 1]` onto `[0, 1]` in each component. */
  lemma ColorCubeRange(v: Vec3)
    requires -1.0 <= v.x <= 1.0 && -1.0 <= v.y <= 1.0 && -1.0 <= v.z <= 1.0
    ensures var c := ToColorCube(v);
      0.0 <= c.x <= 1.0 && 0.0 <= c.y <= 1.0 && 0.0 <= c.z <= 1.0
  {
  }

  /** `shade_normals`: the shading normal at the first hit, as a colour. */
  function ShadeNormals(t: Tracer, scene: Scene, ray: Ray): (r: Vec4)
    requires TracerOk(t, scene)
    ensures !Intersect(t.kernel, ray).hit ==> r == Zero4()
    ensures r.w == 0.0
  {
    var bi := Intersect(t.kernel, ray);
    if !bi.hit then Zero4()
    else Vec4Of(ToColorCube(EvalShadingNormal(t.m, scene, bi, Neg3(ray.direction))), 0.0)
  }

  /** `shade_position`: the shading position at the first hit, as a colour. */
  function ShadePosition(t: Tracer, scene: Scene, ray: Ray): (r: Vec4)
    requires TracerOk(t, scene)
    ensures !Intersect(t.kernel, ray).hit ==> r == Zero4()
    ensures r.w == 0.0
  {
    var bi := Intersect(t.kernel, ray);
    if !bi.hit then Zero4() else Vec4Of(ToColorCube(EvalShadingPosition(scene, bi)), 0.0)
  }

  /** `shade_eyelight`: emission plus the BSDF lit from the eye. */
  function ShadeEyelight(t: Tracer, scene: Scene, ray: Ray): (r: Vec4)
    requires TracerOk(t, scene)
    ensures !Intersect(t.kernel, ray).hit ==> r == Zero4()
    ensures r.w == 0.0
  {
    var bi := Intersect(t.kernel, ray);
    if !bi.hit then Zero4()
    else
      var outgoing := Neg3(ray.direction);
      var normal := EvalShadingNormal(t.m, scene, bi, outgoing);
      var mp := EvalMaterial(t.m, scene, bi);
      Vec4Of(Add3(EvalEmission(mp, normal, outgoing), EvalBsdfcos(t.m, mp, normal, outgoing, outgoing)), 0.0)
  }

  /** The shaders that draw nothing and show one quantity at the first hit. */
  predicate IsDebugShader(shader: Shader)
  {
    shader !in {NaiveShader, RaytraceShader}
  }

  /** The debug shader `shader` at `ray`. */
  function DebugShade(t: Tracer, scene: Scene, ray: Ray, shader: Shader): Vec4
    requires TracerOk(t, scene) && IsDebugShader(shader)
  {
    match shader
    case ColorShader => ShadeColor(t, scene, ray)
    case EyelightShader => ShadeEyelight(t, scene, ray)
    case NormalShader => ShadeNormals(t, scene, ray)
    case PositionShader => ShadePosition(t, scene, ray)
  }

  // ---------------------------------------------------------------------------
  // Bounce loops

  /** `min(max(weight), 0.99)`, the survival probability of Russian roulette. */
  function SurvivalProbability(weight: Vec3): (p: real)
    ensures p <= 0.99
    ensures p == 0.99 || p == MaxComp3(weight)
    ensures MaxComp3(weight) <= 0.99 ==> p == MaxComp3(weight)
  {
    Min(MaxComp3(weight), 0.99)
  }

  /** The weight of a path that survives Russian roulette: divided by the
      survival probability after three bounces, unchanged before. (A probability
      that is not positive never lets a path survive, since every draw is at
      least 0, so the weight is then left as it is.) */
  function Survived(weight: Vec3, bounce: int): Vec3
  {
    var p := SurvivalProbability(weight);
    if bounce > 3 && p > 0.0 then Scale3(weight, 1.0 / p) else weight
  }

  /** Russian roulette keeps the estimate unbiased: the survivor's weight times
      the probability of surviving is the weight before the draw; when that
      probability is the largest component itself, the survivor's largest
      component is exactly 1. */
  lemma RouletteUnbiased(weight: Vec3, bounce: int)
    requires bounce > 3 && SurvivalProbability(weight) > 0.0
    ensures Scale3(Survived(weight, bounce), SurvivalProbability(weight)) == weight
    ensures MaxComp3(weight) <= 0.99 ==> MaxComp3(Survived(weight, bounce)) == 1.0
  {
    var p := SurvivalProbability(weight);
    assert Survived(weight, bounce) == Scale3(weight, 1.0 / p);
    ScaleInverse(weight, p);
    if MaxComp3(weight) <= 0.99 {
      ScaledToOne(weight, p);
    }
  }

  lemma ScaleInverse(v: Vec3, p: real)
    requires p != 0.0
    ensures Scale3(Scale3(v, 1.0 / p), p) == v
  {
    ScaleScale(v, 1.0 / p, p);
    assert 1.0 / p * p == 1.0;
  }

  lemma ScaledToOne(v: Vec3, p: real)
    requires p > 0.0 && MaxComp3(v) == p
    ensures MaxComp3(Scale3(v, 1.0 / p)) == 1.0
  {
    ScaleMax(v, 1.0 / p);
  }

  /** The end of a pass: a null weight ends the path; after three bounces the path
      survives with probability `min(max(weight), 0.99)`, one draw of the stream,
      and a survivor's weight is divided by that probability. */
  method Roulette(weight: Vec3, bounce: int, src: Source, rng: Rng)
    returns (survive: bool, next: Vec3, rngOut: Rng)
    requires SourceOk(src)
    ensures IsNull(weight) ==> !survive && rngOut == rng
    ensures !IsNull(weight) && bounce <= 3 ==> survive && rngOut == rng
    ensures !IsNull(weight) && bounce > 3 ==>
      rngOut == Rand1(src, rng).1
      && (survive <==> Rand1(src, rng).0 < SurvivalProbability(weight))
    ensures survive ==> next == Survived(weight, bounce)
    ensures survive && bounce > 3 ==> SurvivalProbability(weight) > 0.0
    ensures rngOut.seed == rng.seed && rngOut.drawn >= rng.drawn
  {
    survive, next, rngOut := false, weight, rng;
    if IsNull(weight) {
      return;
    }
    if bounce > 3 {
      var p := SurvivalProbability(weight);
      var d := Rand1(src, rng);
      rngOut := d.1;
      if d.0 >= p {
        return;
      }
      next := Scale3(weight, 1.0 / p);
    }
    survive := true;
  }

  // ---------------------------------------------------------------------------
  // Sampled directions and their weights

  /** The weight factor of a BSDF sample: `eval_bsdfcos / sample_bsdfcos_pdf`. */
  function BsdfFactor(m: Maths, mp: MaterialPoint, normal: Vec3, outgoing: Vec3, incoming: Vec3): Vec3
  {
    Div3(m, EvalBsdfcos(m, mp, normal, outgoing, incoming), SampleBsdfcosPdf(m, mp, normal, outgoing, incoming))
  }

  /** The weight factor of a delta sample: `eval_delta / sample_delta_pdf`. */
  function DeltaFactor(m: Maths, mp: MaterialPoint, normal: Vec3, outgoing: Vec3, incoming: Vec3): Vec3
  {
    Div3(m, EvalDelta(m, mp, normal, outgoing, incoming), SampleDeltaPdf(mp, normal, outgoing, incoming))
  }

  /** The density of a direction drawn with even odds from a lobe of density
      `pdf` or from the lights. */
  function MixturePdf(pdf: real, lightsPdf: real): real
  {
    0.5 * pdf + 0.5 * lightsPdf
  }

  /** The weight factor of the surface mixture of `shade_raytrace`: the BSDF over
      the mixture density. */
  function MisFactor(t: Tracer, mp: MaterialPoint, position: Vec3, normal: Vec3, outgoing: Vec3, incoming: Vec3): Vec3
  {
    Div3(t.m, EvalBsdfcos(t.m, mp, normal, outgoing, incoming),
         MixturePdf(SampleBsdfcosPdf(t.m, mp, normal, outgoing, incoming), t.sampleLightsPdf(position, incoming)))
  }

  /** The weight factor of the medium mixture: the phase function over the
      mixture density. */
  function MediumFactor(t: Tracer, vol: MaterialPoint, position: Vec3, outgoing: Vec3, incoming: Vec3): Vec3
  {
    Div3(t.m, t.evalScattering(vol, outgoing, incoming),
         MixturePdf(t.sampleScatteringPdf(vol, outgoing, incoming), t.sampleLightsPdf(position, incoming)))
  }

  /** The weight factor of a free-flight distance: transmittance over its density. */
  function TransmittanceFactor(t: Tracer, extinction: MaterialPoint, sampled: real, distance: real): Vec3
  {
    Div3(t.m, t.evalTransmittance(extinction, sampled), t.sampleTransmittancePdf(extinction, sampled, distance))
  }

  /** A value over a non-zero density, times that density, is the value. */
  lemma OverDensity(m: Maths, value: Vec3, pdf: real)
    requires pdf != 0.0
    ensures Scale3(Div3(m, value, pdf), pdf) == value
  {
    DivExact(m, value.x, pdf);
    DivExact(m, value.y, pdf);
    DivExact(m, value.z, pdf);
  }

  /** Every weight factor is an importance-sampling estimate: where the density the
      direction (or distance) was drawn with is not zero, the factor times that
      density is the value being estimated. */
  lemma FactorsEstimate(t: Tracer, mp: MaterialPoint, position: Vec3, normal: Vec3, outgoing: Vec3,
                        incoming: Vec3, sampled: real, distance: real)
    ensures SampleBsdfcosPdf(t.m, mp, normal, outgoing, incoming) != 0.0 ==>
      Scale3(BsdfFactor(t.m, mp, normal, outgoing, incoming), SampleBsdfcosPdf(t.m, mp, normal, outgoing, incoming))
      == EvalBsdfcos(t.m, mp, normal, outgoing, incoming)
    ensures SampleDeltaPdf(mp, normal, outgoing, incoming) != 0.0 ==>
      Scale3(DeltaFactor(t.m, mp, normal, outgoing, incoming), SampleDeltaPdf(mp, normal, outgoing, incoming))
      == EvalDelta(t.m, mp, normal, outgoing, incoming)
    ensures
      var pdf := MixturePdf(SampleBsdfcosPdf(t.m, mp, normal, outgoing, incoming), t.sampleLightsPdf(position, incoming));
      pdf != 0.0 ==> Scale3(MisFactor(t, mp, position, normal, outgoing, incoming), pdf)
                     == EvalBsdfcos(t.m, mp, normal, outgoing, incoming)
    ensures
      var pdf := MixturePdf(t.sampleScatteringPdf(mp, outgoing, incoming), t.sampleLightsPdf(position, incoming));
      pdf != 0.0 ==> Scale3(MediumFactor(t, mp, position, outgoing, incoming), pdf)
                     == t.evalScattering(mp, outgoing, incoming)
    ensures t.sampleTransmittancePdf(mp, sampled, distance) != 0.0 ==>
      Scale3(TransmittanceFactor(t, mp, sampled, distance), t.sampleTransmittancePdf(mp, sampled, distance))
      == t.evalTransmittance(mp, sampled)
  {
    var bsdfPdf := SampleBsdfcosPdf(t.m, mp, normal, outgoing, incoming);
    if bsdfPdf != 0.0 {
      OverDensity(t.m, EvalBsdfcos(t.m, mp, normal, outgoing, incoming), bsdfPdf);
    }
    var deltaPdf := SampleDeltaPdf(mp, normal, outgoing, incoming);
    if deltaPdf != 0.0 {
      OverDensity(t.m, EvalDelta(t.m, mp, normal, outgoing, incoming), deltaPdf);
    }
    var misPdf := MixturePdf(bsdfPdf, t.sampleLightsPdf(position, incoming));
    if misPdf != 0.0 {
      OverDensity(t.m, EvalBsdfcos(t.m, mp, normal, outgoing, incoming), misPdf);
    }
    var mediumPdf := MixturePdf(t.sampleScatteringPdf(mp, outgoing, incoming), t.sampleLightsPdf(position, incoming));
    if mediumPdf != 0.0 {
      OverDensity(t.m, t.evalScattering(mp, outgoing, incoming), mediumPdf);
    }
    var flightPdf := t.sampleTransmittancePdf(mp, sampled, distance);
    if flightPdf != 0.0 {
      OverDensity(t.m, t.evalTransmittance(mp, sampled), flightPdf);
    }
  }

  /** Dividing a non-negative value by a larger positive number gives less. */
  lemma DivLeDiv(v: real, small: real, big: real)
    requires v >= 0.0 && 0.0 < small <= big
    ensures 0.0 <= v / big <= v / small
  {
  }

  /** For a value of `v / (0.5 * p + 0.5 * l)` with `v >= 0`, `p > 0` and `l >= 0`:
      at most twice `v / p`, and exactly twice when `l` is zero. */
  lemma HalfMixture(m: Maths, v: real, pdf: real, lightsPdf: real)
    requires v >= 0.0 && pdf > 0.0 && lightsPdf >= 0.0
    ensures 0.0 <= Div(m, v, MixturePdf(pdf, lightsPdf)) <= 2.0 * Div(m, v, pdf)
    ensures lightsPdf == 0.0 ==> Div(m, v, MixturePdf(pdf, lightsPdf)) == 2.0 * Div(m, v, pdf)
  {
    var q := MixturePdf(pdf, lightsPdf);
    var half := 0.5 * pdf;
    assert 0.0 < half <= q;
    DivLeDiv(v, half, q);
    assert v / half == 2.0 * (v / pdf);
  }

  /** A direction on the other side of the surface carries no weight: wherever its
      density, as `sample_bsdfcos_pdf` computes it, is not zero, both surface
      factors are zero, so the weight becomes null and the path ends there. */
  lemma OppositeSidesEndPath(t: Tracer, mp: MaterialPoint, position: Vec3, normal: Vec3, outgoing: Vec3,
                             incoming: Vec3, weight: Vec3)
    requires OppositeSides(normal, outgoing, incoming)
    ensures SampleBsdfcosPdf(t.m, mp, normal, outgoing, incoming) != 0.0 ==>
      BsdfFactor(t.m, mp, normal, outgoing, incoming) == Zero3()
      && IsNull(Mul3(weight, BsdfFactor(t.m, mp, normal, outgoing, incoming)))
    ensures MixturePdf(SampleBsdfcosPdf(t.m, mp, normal, outgoing, incoming), t.sampleLightsPdf(position, incoming)) != 0.0 ==>
      MisFactor(t, mp, position, normal, outgoing, incoming) == Zero3()
      && IsNull(Mul3(weight, MisFactor(t, mp, position, normal, outgoing, incoming)))
  {
    ShadingFacts.OppositeSidesCarryNothing(t.m, mp, normal, outgoing, incoming);
  }

  /** The light mixture of `shade_raytrace` never more than doubles the BSDF-only
      weight of `shade_naive`, and doubles it exactly when the lights cannot yield
      the direction: half the samples go to the lights. */
  lemma MisAgainstBsdf(t: Tracer, mp: MaterialPoint, position: Vec3, normal: Vec3, outgoing: Vec3, incoming: Vec3)
    requires SampleBsdfcosPdf(t.m, mp, normal, outgoing, incoming) > 0.0 && t.sampleLightsPdf(position, incoming) >= 0.0
    requires var e := EvalBsdfcos(t.m, mp, normal, outgoing, incoming); e.x >= 0.0 && e.y >= 0.0 && e.z >= 0.0
    ensures var mis := MisFactor(t, mp, position, normal, outgoing, incoming);
      var naive := BsdfFactor(t.m, mp, normal, outgoing, incoming);
      0.0 <= mis.x <= 2.0 * naive.x && 0.0 <= mis.y <= 2.0 * naive.y && 0.0 <= mis.z <= 2.0 * naive.z
    ensures t.sampleLightsPdf(position, incoming) == 0.0 ==>
      MisFactor(t, mp, position, normal, outgoing, incoming) == Scale3(BsdfFactor(t.m, mp, normal, outgoing, incoming), 2.0)
  {
    var e := EvalBsdfcos(t.m, mp, normal, outgoing, incoming);
    var pdf := SampleBsdfcosPdf(t.m, mp, normal, outgoing, incoming);
    var l := t.sampleLightsPdf(position, incoming);
    HalfMixture(t.m, e.x, pdf, l);
    HalfMixture(t.m, e.y, pdf, l);
    HalfMixture(t.m, e.z, pdf, l);
  }

  /** The continuous lobe of `shade_naive`: a direction from `sample_bsdfcos` (one
      draw and a pair) and the factor `eval_bsdfcos / sample_bsdfcos_pdf`. */
  method SampleBsdfLobe(m: Maths, mp: MaterialPoint, normal: Vec3, outgoing: Vec3, src: Source, rng: Rng)
    returns (incoming: Vec3, factor: Vec3, rngOut: Rng)
    ensures rngOut == rng.(drawn := rng.drawn + 3)
    ensures incoming == SampleBsdfcos(m, mp, normal, outgoing, src(rng.seed, rng.drawn),
                                      Vec2(src(rng.seed, rng.drawn + 1), src(rng.seed, rng.drawn + 2)))
    ensures factor == BsdfFactor(m, mp, normal, outgoing, incoming)
  {
    var d1 := Rand1(src, rng);
    var d2 := Rand2(src, d1.1);
    rngOut := d2.1;
    incoming := SampleBsdfcos(m, mp, normal, outgoing, d1.0, d2.0);
    factor := BsdfFactor(m, mp, normal, outgoing, incoming);
  }

  /** The delta lobe: a direction from `sample_delta` (one draw) and the factor
      `eval_delta / sample_delta_pdf`. */
  method SampleDeltaLobe(m: Maths, mp: MaterialPoint, normal: Vec3, outgoing: Vec3, src: Source, rng: Rng)
    returns (incoming: Vec3, factor: Vec3, rngOut: Rng)
    ensures rngOut == rng.(drawn := rng.drawn + 1)
    ensures incoming == SampleDelta(mp, normal, outgoing, src(rng.seed, rng.drawn))
    ensures factor == DeltaFactor(m, mp, normal, outgoing, incoming)
  {
    var d := Rand1(src, rng);
    rngOut := d.1;
    incoming := SampleDelta(mp, normal, outgoing, d.0);
    factor := DeltaFactor(m, mp, normal, outgoing, incoming);
  }

  /** The continuous lobe of `shade_raytrace`: with even odds a BSDF sample or a
      light sample, weighted by the mixture `0.5 * bsdf pdf + 0.5 * light pdf`. */
  method SampleSurfaceMis(t: Tracer, mp: MaterialPoint, position: Vec3, normal: Vec3, outgoing: Vec3,
                          src: Source, rng: Rng)
    returns (incoming: Vec3, factor: Vec3, rngOut: Rng)
    ensures src(rng.seed, rng.drawn) < 0.5 ==>
      rngOut == rng.(drawn := rng.drawn + 4)
      && incoming == SampleBsdfcos(t.m, mp, normal, outgoing, src(rng.seed, rng.drawn + 1),
                                   Vec2(src(rng.seed, rng.drawn + 2), src(rng.seed, rng.drawn + 3)))
    ensures src(rng.seed, rng.drawn) >= 0.5 ==>
      rngOut == rng.(drawn := rng.drawn + 5)
      && incoming == t.sampleLights(position, src(rng.seed, rng.drawn + 1), src(rng.seed, rng.drawn + 2),
                                    Vec2(src(rng.seed, rng.drawn + 3), src(rng.seed, rng.drawn + 4)))
    ensures factor == MisFactor(t, mp, position, normal, outgoing, incoming)
  {
    var m := t.m;
    var pick := Rand1(src, rng);
    if pick.0 < 0.5 {
      var d1 := Rand1(src, pick.1);
      var d2 := Rand2(src, d1.1);
      rngOut := d2.1;
      incoming := SampleBsdfcos(m, mp, normal, outgoing, d1.0, d2.0);
    } else {
      var d1 := Rand1(src, pick.1);
      var d2 := Rand1(src, d1.1);
      var d3 := Rand2(src, d2.1);
      rngOut := d3.1;
      incoming := t.sampleLights(position, d1.0, d2.0, d3.0);
    }
    factor := MisFactor(t, mp, position, normal, outgoing, incoming);
  }

  /** The next direction of `shade_raytrace` at a surface, drawn from `rng`:
      for a material with a continuous lobe one draw picks, with even odds, a
      BSDF sample (three more draws) or a light sample (four more draws), and
      the factor is the mixture-weighted `MisFactor`; for a delta material one
      draw feeds `sample_delta` and the factor is `DeltaFactor`. */
  predicate SurfaceLobe(t: Tracer, mp: MaterialPoint, position: Vec3, normal: Vec3, outgoing: Vec3,
                        src: Source, rng: Rng, incoming: Vec3, factor: Vec3, rngOut: Rng)
  {
    (!IsDelta(mp) && src(rng.seed, rng.drawn) < 0.5 ==>
       rngOut == rng.(drawn := rng.drawn + 4)
       && incoming == SampleBsdfcos(t.m, mp, normal, outgoing, src(rng.seed, rng.drawn + 1),
                                    Vec2(src(rng.seed, rng.drawn + 2), src(rng.seed, rng.drawn + 3))))
    && (!IsDelta(mp) && src(rng.seed, rng.drawn) >= 0.5 ==>
          rngOut == rng.(drawn := rng.drawn + 5)
          && incoming == t.sampleLights(position, src(rng.seed, rng.drawn + 1), src(rng.seed, rng.drawn + 2),
                                        Vec2(src(rng.seed, rng.drawn + 3), src(rng.seed, rng.drawn + 4))))
    && (!IsDelta(mp) ==> factor == MisFactor(t, mp, position, normal, outgoing, incoming))
    && (IsDelta(mp) ==>
          rngOut == rng.(drawn := rng.drawn + 1)
          && incoming == SampleDelta(mp, normal, outgoing, src(rng.seed, rng.drawn))
          && factor == DeltaFactor(t.m, mp, normal, outgoing, incoming))
  }

  /** The next direction of `shade_raytrace` at a surface: the BSDF-or-lights
      mixture for a material with a continuous lobe, the delta lobe otherwise. */
  method SampleSurfaceLobe(t: Tracer, mp: MaterialPoint, position: Vec3, normal: Vec3, outgoing: Vec3,
                           src: Source, rng: Rng)
    returns (incoming: Vec3, factor: Vec3, rngOut: Rng)
    ensures SurfaceLobe(t, mp, position, normal, outgoing, src, rng, incoming, factor, rngOut)
  {
    if !IsDelta(mp) {
      incoming, factor, rngOut := SampleSurfaceMis(t, mp, position, normal, outgoing, src, rng);
    } else {
      incoming, factor, rngOut := SampleDeltaLobe(t.m, mp, normal, outgoing, src, rng);
    }
  }

  /** A free-flight distance through the medium on top of the volume stack (two
      draws) and the transmittance factor over it. */
  method SampleDistance(t: Tracer, extinction: MaterialPoint, distance: real, src: Source, rng: Rng)
    returns (sampled: real, factor: Vec3, rngOut: Rng)
    ensures rngOut == rng.(drawn := rng.drawn + 2)
    ensures sampled == t.sampleTransmittance(extinction, distance, src(rng.seed, rng.drawn), src(rng.seed, rng.drawn + 1))
    ensures factor == TransmittanceFactor(t, extinction, sampled, distance)
  {
    var d1 := Rand1(src, rng);
    var d2 := Rand1(src, d1.1);
    rngOut := d2.1;
    sampled := t.sampleTransmittance(extinction, distance, d1.0, d2.0);
    factor := TransmittanceFactor(t, extinction, sampled, distance);
  }

  /** Scattering inside a medium: with even odds a phase-function sample or a light
      sample, weighted by the mixture density. */
  method SampleMedium(t: Tracer, vol: MaterialPoint, position: Vec3, outgoing: Vec3, src: Source, rng: Rng)
    returns (incoming: Vec3, factor: Vec3, rngOut: Rng)
    ensures src(rng.seed, rng.drawn) < 0.5 ==>
      rngOut == rng.(drawn := rng.drawn + 3)
      && incoming == t.sampleScattering(vol, outgoing, Vec2(src(rng.seed, rng.drawn + 1), src(rng.seed, rng.drawn + 2)))
    ensures src(rng.seed, rng.drawn) >= 0.5 ==>
      rngOut == rng.(drawn := rng.drawn + 5)
      && incoming == t.sampleLights(position, src(rng.seed, rng.drawn + 1), src(rng.seed, rng.drawn + 2),
                                    Vec2(src(rng.seed, rng.drawn + 3), src(rng.seed, rng.drawn + 4)))
    ensures factor == MediumFactor(t, vol, position, outgoing, incoming)
  {
    var pick := Rand1(src, rng);
    if pick.0 < 0.5 {
      var d := Rand2(src, pick.1);
      rngOut := d.1;
      incoming := t.sampleScattering(vol, outgoing, d.0);
    } else {
      var d1 := Rand1(src, pick.1);
      var d2 := Rand1(src, d1.1);
      var d3 := Rand2(src, d2.1);
      rngOut := d3.1;
      incoming := t.sampleLights(position, d1.0, d2.0, d3.0);
    }
    factor := MediumFactor(t, vol, position, outgoing, incoming);
  }

  // ---------------------------------------------------------------------------
  // Passes

  /** The variables of a bounce loop: the radiance gathered, the path weight, the
      ray, the bounce counter, `hit_alpha`, the volume stack of `shade_raytrace`
      and the pixel's random stream. */
  datatype PathState = PathState(radiance: Vec3, weight: Vec3, ray: Ray, bounce: int, hitAlpha: real,
                                 volumeStack: seq<MaterialPoint>, rng: Rng)

  function StartState(ray: Ray, rng: Rng): PathState
  {
    PathState(Zero3(), One3(), ray, 0, 0.0, [], rng)
  }

  /** How a pass ends once its direction `incoming` and weight factor are known
      and `lobeRng` is the stream after drawing them: a null direction ends the
      loop; otherwise the weight times the factor is checked, a null one ends the
      loop, and after three bounces Russian roulette draws once and the path goes
      on exactly when the draw is below the survival probability. A path that goes
      on leaves from `position` along `incoming` with the survivor's weight. */
  predicate PassEnd(weight: Vec3, bounce: int, ray: Ray, position: Vec3, incoming: Vec3, factor: Vec3, lobeRng: Rng,
                    src: Source, next: PathState, exit: bool)
  {
    var w := Mul3(weight, factor);
    (IsNull(incoming) ==> exit && next.rng == lobeRng)
    && (!IsNull(incoming) && IsNull(w) ==> exit && next.rng == lobeRng)
    && (!IsNull(incoming) && !IsNull(w) && bounce <= 3 ==> !exit && next.rng == lobeRng)
    && (!IsNull(incoming) && !IsNull(w) && bounce > 3 ==>
          next.rng == lobeRng.(drawn := lobeRng.drawn + 1)
          && (!exit <==> src(lobeRng.seed, lobeRng.drawn) < SurvivalProbability(w)))
    && (!exit ==> next.weight == Survived(w, bounce) && next.ray == ray.(origin := position, direction := incoming))
  }

  /** The end of a pass once the direction and its factor are drawn: everything
      but the weight, the ray, the counter and the stream is left as it is. */
  method FinishPass(s: PathState, position: Vec3, incoming: Vec3, factor: Vec3, lobeRng: Rng, src: Source)
    returns (next: PathState, exit: bool)
    requires SourceOk(src) && lobeRng.seed == s.rng.seed && lobeRng.drawn >= s.rng.drawn
    ensures PassEnd(s.weight, s.bounce, s.ray, position, incoming, factor, lobeRng, src, next, exit)
    ensures next.radiance == s.radiance && next.hitAlpha == s.hitAlpha && next.volumeStack == s.volumeStack
    ensures next.bounce == if exit then s.bounce else s.bounce + 1
    ensures next.rng.seed == s.rng.seed && next.rng.drawn >= s.rng.drawn
  {
    next, exit := s.(rng := lobeRng), true;
    if IsNull(incoming) {
      return;
    }
    var survive, weight, rngOut := Roulette(Mul3(s.weight, factor), s.bounce, src, lobeRng);
    next := next.(weight := weight, rng := rngOut);
    if survive {
      next := next.(bounce := s.bounce + 1, ray := s.ray.(origin := position, direction := incoming));
      exit := false;
    }
  }

  /** The shading position of the hit, offset by `0.01` along the ray: where the
      ray continues after an opacity skip. */
  function SkipOrigin(scene: Scene, ray: Ray, bi: BvhIntersection): Vec3
    requires HitOk(scene, bi)
  {
    Add3(EvalShadingPosition(scene, bi), Scale3(ray.direction, 0.01))
  }

  /** A shaded hit: the shading position, normal and material point at `bi`, and
      the opacity test, which draws one value only for a material that is not
      opaque and skips the surface when that value reaches the opacity. */
  method HitPoint(t: Tracer, scene: Scene, ray: Ray, bi: BvhIntersection, src: Source, rng0: Rng)
    returns (skip: bool, position: Vec3, normal: Vec3, mp: MaterialPoint, rng: Rng)
    requires ShadingNormalOk(scene, bi) && MaterialOk(scene, bi)
    ensures position == EvalShadingPosition(scene, bi)
    ensures normal == EvalShadingNormal(t.m, scene, bi, Neg3(ray.direction))
    ensures mp == EvalMaterial(t.m, scene, bi)
    ensures mp.opacity < 1.0 ==> rng == rng0.(drawn := rng0.drawn + 1) && (skip <==> src(rng0.seed, rng0.drawn) >= mp.opacity)
    ensures mp.opacity >= 1.0 ==> rng == rng0 && !skip
  {
    position := EvalShadingPosition(scene, bi);
    normal := EvalShadingNormal(t.m, scene, bi, Neg3(ray.direction));
    mp := EvalMaterial(t.m, scene, bi);
    rng, skip := rng0, false;
    if mp.opacity < 1.0 {
      var d := Rand1(src, rng0);
      rng, skip := d.1, d.0 >= mp.opacity;
    }
  }

  /** The step of `shade_naive` at a surface that is not skipped: `hit_alpha` at
      bounce 0, the emission, a direction from the BSDF or the delta lobe, then the
      checks on the weight and Russian roulette. `incoming`, `factor` and
      `lobeRng` are the sampled direction, its weight factor and the stream after
      drawing them. */
  method NaiveScatter(m: Maths, s: PathState, mp: MaterialPoint, position: Vec3, normal: Vec3,
                      bounces: int, src: Source)
    returns (next: PathState, ghost ev: Event, exit: bool, ghost incoming: Vec3, ghost factor: Vec3,
             ghost lobeRng: Rng)
    requires SourceOk(src) && s.bounce < bounces
    ensures Step(Control(s.bounce, s.hitAlpha, false), ev, bounces, false)
      == Control(next.bounce, next.hitAlpha, exit || next.bounce >= bounces)
    ensures ev.Surface? && next.volumeStack == s.volumeStack
    ensures next.radiance == Add3(s.radiance, Mul3(s.weight, EvalEmission(mp, normal, Neg3(s.ray.direction))))
    ensures !IsDelta(mp) ==>
      lobeRng == s.rng.(drawn := s.rng.drawn + 3)
      && incoming == SampleBsdfcos(m, mp, normal, Neg3(s.ray.direction), src(s.rng.seed, s.rng.drawn),
                                   Vec2(src(s.rng.seed, s.rng.drawn + 1), src(s.rng.seed, s.rng.drawn + 2)))
      && factor == BsdfFactor(m, mp, normal, Neg3(s.ray.direction), incoming)
    ensures IsDelta(mp) ==>
      lobeRng == s.rng.(drawn := s.rng.drawn + 1)
      && incoming == SampleDelta(mp, normal, Neg3(s.ray.direction), src(s.rng.seed, s.rng.drawn))
      && factor == DeltaFactor(m, mp, normal, Neg3(s.ray.direction), incoming)
    ensures PassEnd(s.weight, s.bounce, s.ray, position, incoming, factor, lobeRng, src, next, exit)
    ensures next.rng.seed == s.rng.seed && next.rng.drawn >= s.rng.drawn
  {    var outgoing := Neg3(s.ray.direction);
    var hitAlpha := if s.bounce == 0 then 1.0 else s.hitAlpha;
    var radiance := Add3(s.radiance, Mul3(s.weight, EvalEmission(mp, normal, outgoing)));
    var dir, fac, rng;
    if !IsDelta(mp) {
      dir, fac, rng := SampleBsdfLobe(m, mp, normal, outgoing, src, s.rng);
    } else {
      dir, fac, rng := SampleDeltaLobe(m, mp, normal, outgoing, src, s.rng);
    }
    incoming, factor, lobeRng := dir, fac, rng;
    next, exit := FinishPass(s.(radiance := radiance, hitAlpha := hitAlpha), position, dir, fac, rng, src);
    ev := Surface(exit);
  }

  /** The surface step of a `shade_naive` pass at the hit `bi`: a surface is
      skipped when its material is not opaque and the opacity draw reaches the
      opacity, and the ray then moves past it; otherwise the surface adds its
      emission and scatters. */
  method NaiveSurface(t: Tracer, scene: Scene, s: PathState, bi: BvhIntersection, bounces: int, src: Source)
    returns (next: PathState, ghost ev: Event, exit: bool)
    requires ShadingNormalOk(scene, bi) && MaterialOk(scene, bi) && SourceOk(src) && s.bounce < bounces
    ensures Step(Control(s.bounce, s.hitAlpha, false), ev, bounces, false)
      == Control(next.bounce, next.hitAlpha, exit || next.bounce >= bounces)
    ensures ev.Surface? || ev == Skip
    ensures ev == Skip ==>
      next == s.(ray := s.ray.(origin := SkipOrigin(scene, s.ray, bi)), rng := s.rng.(drawn := s.rng.drawn + 1))
    ensures next.volumeStack == s.volumeStack
    ensures next.rng.seed == s.rng.seed && next.rng.drawn >= s.rng.drawn
  {
    var skip, position, normal, mp, rng := HitPoint(t, scene, s.ray, bi, src, s.rng);
    if skip {
      next := s.(ray := s.ray.(origin := Add3(position, Scale3(s.ray.direction, 0.01))), rng := rng);
      ev, exit := Skip, false;
    } else {
      ghost var incoming, factor, lobeRng;
      next, ev, exit, incoming, factor, lobeRng := NaiveScatter(t.m, s.(rng := rng), mp, position, normal, bounces, src);
    }
  }

  /** One pass of the `shade_naive` loop from a state with a bounce left; `ev` is
      what it met and `exit` whether it ends the loop. A miss adds the
      environment and ends the path. */
  method NaivePass(t: Tracer, scene: Scene, s: PathState, bounces: int, src: Source)
    returns (next: PathState, ghost ev: Event, exit: bool)
    requires TracerOk(t, scene) && SourceOk(src) && s.bounce < bounces
    ensures Step(Control(s.bounce, s.hitAlpha, false), ev, bounces, false)
      == Control(next.bounce, next.hitAlpha, exit || next.bounce >= bounces)
    ensures ev.Miss? <==> !Intersect(t.kernel, s.ray).hit
    ensures ev.Miss? ==> next == s.(radiance := Add3(s.radiance, Mul3(s.weight, t.environment(s.ray.direction))))
    ensures ev == Skip ==>
      var bi := Intersect(t.kernel, s.ray);
      next == s.(ray := s.ray.(origin := SkipOrigin(scene, s.ray, bi)), rng := s.rng.(drawn := s.rng.drawn + 1))
    ensures !ev.Medium? && next.volumeStack == s.volumeStack
    ensures next.rng.seed == s.rng.seed && next.rng.drawn >= s.rng.drawn
  {
    var bi := Intersect(t.kernel, s.ray);
    if !bi.hit {
      next := s.(radiance := Add3(s.radiance, Mul3(s.weight, t.environment(s.ray.direction))));
      ev, exit := Miss, true;
      return;
    }
    next, ev, exit := NaiveSurface(t, scene, s, bi, bounces, src);
  }

  /** `shade_naive`: a path traced by sampling the BSDF (or the delta lobe) at
      every hit, with opacity skipping and Russian roulette after three bounces.
      The loop runs at most `fuel` passes; `events` records what each pass met. */
  method ShadeNaive(t: Tracer, scene: Scene, ray0: Ray, src: Source, rng0: Rng, bounces: int, fuel: nat)
    returns (r: Vec4, rng: Rng, ghost events: seq<Event>)
    requires TracerOk(t, scene) && SourceOk(src)
    ensures Live(events, bounces, false) && |events| <= fuel
    ensures r.w == Run(events, bounces, false).alpha
    ensures r.w == 0.0 || r.w == 1.0
    ensures r.w == 1.0 <==> bounces > 0 && CameraHit(events)
    ensures MediumFree(events)
    ensures bounces <= 0 ==> r == Zero4() && rng == rng0
    ensures bounces > 0 && fuel > 0 && !Intersect(t.kernel, ray0).hit ==>
      r == Vec4Of(t.environment(ray0.direction), 0.0)
    ensures rng.seed == rng0.seed && rng.drawn >= rng0.drawn
  {
    var s := StartState(ray0, rng0);
    events := [];
    var steps := 0;
    while s.bounce < bounces && steps < fuel
      invariant steps == |events| && |events| <= fuel
      invariant Live(events, bounces, false)
      invariant Run(events, bounces, false) == Control(s.bounce, s.hitAlpha, s.bounce >= bounces)
      invariant MediumFree(events)
      invariant |events| == 0 ==>
        s.radiance == Zero3() && s.weight == One3() && s.ray == ray0 && s.bounce == 0 && s.hitAlpha == 0.0 && s.rng == rng0
      invariant bounces > 0 && fuel > 0 && !Intersect(t.kernel, ray0).hit ==> |events| == 0
      invariant s.rng.seed == rng0.seed && s.rng.drawn >= rng0.drawn
    {
      ghost var ev;
      var exit;
      ghost var before := events;
      s, ev, exit := NaivePass(t, scene, s, bounces, src);
      Extend(before, ev, bounces, false);
      events := before + [ev];
      steps := steps + 1;
      if exit {
        break;
      }
    }
    ControlFacts(events, bounces);
    r, rng := Vec4Of(s.radiance, s.hitAlpha), s.rng;
  }

  /** The volume stack after a surface sample: crossing the boundary of a
      volumetric material (the outgoing and incoming directions on opposite sides
      of the normal) pushes the material when the stack is empty and pops the top
      otherwise; any other sample leaves the stack as it is. */
  function CrossedStack(stack: seq<MaterialPoint>, mp: MaterialPoint, normal: Vec3, outgoing: Vec3,
                        incoming: Vec3): seq<MaterialPoint>
  {
    if IsVolumetric(mp) && !SameHemisphere(normal, outgoing, incoming) then
      if |stack| == 0 then [mp] else stack[..|stack| - 1]
    else stack
  }

  /** Entering a volume and leaving it again restores the empty stack, and the
      stack of a path that starts outside any medium never holds two. */
  lemma CrossedStackFacts(stack: seq<MaterialPoint>, mp: MaterialPoint, normal: Vec3, outgoing: Vec3, incoming: Vec3,
                          mp2: MaterialPoint, normal2: Vec3, outgoing2: Vec3, incoming2: Vec3)
    ensures |stack| <= 1 ==> |CrossedStack(stack, mp, normal, outgoing, incoming)| <= 1
    ensures |CrossedStack(stack, mp, normal, outgoing, incoming)| != |stack| <==>
      IsVolumetric(mp) && !SameHemisphere(normal, outgoing, incoming)
    ensures stack == [] ==>
      var once := CrossedStack(stack, mp, normal, outgoing, incoming);
      once != [] ==> once == [mp] && (IsVolumetric(mp2) && !SameHemisphere(normal2, outgoing2, incoming2) ==>
                                      CrossedStack(once, mp2, normal2, outgoing2, incoming2) == [])
  {
  }

  /** The volume stack update at a surface: crossing the boundary of a volumetric
      material pushes it when the stack is empty and pops the top otherwise. */
  method CrossBoundary(stack: seq<MaterialPoint>, mp: MaterialPoint, normal: Vec3, outgoing: Vec3, incoming: Vec3)
    returns (crossed: seq<MaterialPoint>)
    ensures crossed == CrossedStack(stack, mp, normal, outgoing, incoming)
  {
    crossed := stack;
    if IsVolumetric(mp) && !SameHemisphere(normal, outgoing, incoming) {
      if |crossed| == 0 {
        crossed := crossed + [mp];
      } else {
        crossed := crossed[..|crossed| - 1];
      }
    }
  }

  /** The end of a `shade_raytrace` pass at a surface: the volume stack is
      updated when the sampled direction is not null, then the pass ends as
      `FinishPass` says. */
  method LeaveSurface(s: PathState, mp: MaterialPoint, position: Vec3, normal: Vec3, incoming: Vec3, factor: Vec3,
                      lobeRng: Rng, src: Source)
    returns (next: PathState, exit: bool)
    requires SourceOk(src) && lobeRng.seed == s.rng.seed && lobeRng.drawn >= s.rng.drawn
    ensures PassEnd(s.weight, s.bounce, s.ray, position, incoming, factor, lobeRng, src, next, exit)
    ensures next.radiance == s.radiance && next.hitAlpha == s.hitAlpha
    ensures IsNull(incoming) ==> next.volumeStack == s.volumeStack
    ensures !IsNull(incoming) ==>
      next.volumeStack == CrossedStack(s.volumeStack, mp, normal, Neg3(s.ray.direction), incoming)
    ensures next.bounce == if exit then s.bounce else s.bounce + 1
    ensures next.rng.seed == s.rng.seed && next.rng.drawn >= s.rng.drawn
  {
    var volumeStack := s.volumeStack;
    if !IsNull(incoming) {
      volumeStack := CrossBoundary(s.volumeStack, mp, normal, Neg3(s.ray.direction), incoming);
    }
    next, exit := FinishPass(s.(volumeStack := volumeStack), position, incoming, factor, lobeRng, src);
  }

  /** The step of `shade_raytrace` at a surface that is not skipped: `hit_alpha`
      at bounce 0, the emission, a direction from the BSDF-or-lights mixture or
      the delta lobe, the volume stack update when the path crosses the boundary
      of a volumetric material, then the weight checks and Russian roulette. */
  method RaytraceScatter(t: Tracer, s: PathState, mp: MaterialPoint, position: Vec3, normal: Vec3,
                         bounces: int, src: Source)
    returns (next: PathState, ghost ev: Event, exit: bool, ghost incoming: Vec3, ghost factor: Vec3,
             ghost lobeRng: Rng)
    requires SourceOk(src) && s.bounce < bounces && |s.volumeStack| <= 1
    ensures Step(Control(s.bounce, s.hitAlpha, false), ev, bounces, false)
      == Control(next.bounce, next.hitAlpha, exit || next.bounce >= bounces)
    ensures ev.Surface? && |next.volumeStack| <= 1
    ensures next.radiance == Add3(s.radiance, Mul3(s.weight, EvalEmission(mp, normal, Neg3(s.ray.direction))))
    ensures SurfaceLobe(t, mp, position, normal, Neg3(s.ray.direction), src, s.rng, incoming, factor, lobeRng)
    ensures PassEnd(s.weight, s.bounce, s.ray, position, incoming, factor, lobeRng, src, next, exit)
    ensures IsNull(incoming) ==> next.volumeStack == s.volumeStack
    ensures !IsNull(incoming) ==>
      next.volumeStack == CrossedStack(s.volumeStack, mp, normal, Neg3(s.ray.direction), incoming)
    ensures next.rng.seed == s.rng.seed && next.rng.drawn >= s.rng.drawn
  {    var outgoing := Neg3(s.ray.direction);
    var hitAlpha := if s.bounce == 0 then 1.0 else s.hitAlpha;
    var radiance := Add3(s.radiance, Mul3(s.weight, EvalEmission(mp, normal, outgoing)));
    var dir, fac, rng := SampleSurfaceLobe(t, mp, position, normal, outgoing, src, s.rng);
    incoming, factor, lobeRng := dir, fac, rng;
    next, exit := LeaveSurface(s.(radiance := radiance, hitAlpha := hitAlpha), mp, position, normal, dir, fac, rng, src);
    ev := Surface(exit);
  }

  /** The surface branch of a `shade_raytrace` pass at the hit `bi`: an opacity
      skip moves the ray past the surface; otherwise the surface adds its
      emission and scatters. */
  method RaytraceSurface(t: Tracer, scene: Scene, s: PathState, bi: BvhIntersection, bounces: int, src: Source)
    returns (next: PathState, ghost ev: Event, exit: bool)
    requires ShadingNormalOk(scene, bi) && MaterialOk(scene, bi) && SourceOk(src) && s.bounce < bounces
    requires |s.volumeStack| <= 1
    ensures Step(Control(s.bounce, s.hitAlpha, false), ev, bounces, false)
      == Control(next.bounce, next.hitAlpha, exit || next.bounce >= bounces)
    ensures ev.Surface? || ev == Skip
    ensures ev == Skip ==>
      next == s.(ray := s.ray.(origin := SkipOrigin(scene, s.ray, bi)), rng := s.rng.(drawn := s.rng.drawn + 1))
    ensures |next.volumeStack| <= 1
    ensures next.rng.seed == s.rng.seed && next.rng.drawn >= s.rng.drawn
  {
    var skip, position, normal, mp, rng := HitPoint(t, scene, s.ray, bi, src, s.rng);
    if skip {
      next := s.(ray := s.ray.(origin := Add3(position, Scale3(s.ray.direction, 0.01))), rng := rng);
      ev, exit := Skip, false;
    } else {
      ghost var incoming, factor, lobeRng;
      next, ev, exit, incoming, factor, lobeRng := RaytraceScatter(t, s.(rng := rng), mp, position, normal, bounces, src);
    }
  }

  /** Scattering at `distance` along the ray inside the medium on top of the
      volume stack: the medium's emission `density * (1 - scattering) * emission`
      is added, a phase-function sample (three draws) or a light sample (five
      draws) is taken with even odds at the scattering point, weighted by the
      mixture factor, and the pass ends as `PassEnd` says. */
  predicate MediumScatter(t: Tracer, s: PathState, distance: real, src: Source, next: PathState, exit: bool,
                          incoming: Vec3, factor: Vec3, lobeRng: Rng)
    requires |s.volumeStack| > 0
  {
    var vol := s.volumeStack[|s.volumeStack| - 1];
    var position := Add3(s.ray.origin, Scale3(s.ray.direction, distance));
    var outgoing := Neg3(s.ray.direction);
    next.radiance == Add3(s.radiance, Mul3(s.weight, Mul3(Mul3(vol.density, Sub3(One3(), vol.scattering)), vol.emission)))
    && (src(s.rng.seed, s.rng.drawn) < 0.5 ==>
          lobeRng == s.rng.(drawn := s.rng.drawn + 3)
          && incoming == t.sampleScattering(vol, outgoing, Vec2(src(s.rng.seed, s.rng.drawn + 1), src(s.rng.seed, s.rng.drawn + 2))))
    && (src(s.rng.seed, s.rng.drawn) >= 0.5 ==>
          lobeRng == s.rng.(drawn := s.rng.drawn + 5)
          && incoming == t.sampleLights(position, src(s.rng.seed, s.rng.drawn + 1), src(s.rng.seed, s.rng.drawn + 2),
                                        Vec2(src(s.rng.seed, s.rng.drawn + 3), src(s.rng.seed, s.rng.drawn + 4))))
    && factor == MediumFactor(t, vol, position, outgoing, incoming)
    && PassEnd(s.weight, s.bounce, s.ray, position, incoming, factor, lobeRng, src, next, exit)
  }

  /** The medium branch of a `shade_raytrace` pass: scattering at `distance` along
      the ray inside the medium on top of the volume stack. */
  method RaytraceMedium(t: Tracer, s: PathState, distance: real, bounces: int, src: Source)
    returns (next: PathState, ghost ev: Event, exit: bool, ghost incoming: Vec3, ghost factor: Vec3,
             ghost lobeRng: Rng)
    requires SourceOk(src) && s.bounce < bounces && |s.volumeStack| > 0
    ensures Step(Control(s.bounce, s.hitAlpha, false), ev, bounces, false)
      == Control(next.bounce, next.hitAlpha, exit || next.bounce >= bounces)
    ensures ev.Medium? && next.volumeStack == s.volumeStack
    ensures MediumScatter(t, s, distance, src, next, exit, incoming, factor, lobeRng)
    ensures next.rng.seed == s.rng.seed && next.rng.drawn >= s.rng.drawn
  {
    var position := Add3(s.ray.origin, Scale3(s.ray.direction, distance));
    var outgoing := Neg3(s.ray.direction);
    var vol := s.volumeStack[|s.volumeStack| - 1];
    var ds := Mul3(vol.density, Sub3(One3(), vol.scattering));
    var radiance := Add3(s.radiance, Mul3(s.weight, Mul3(ds, vol.emission)));
    var dir, fac, rng := SampleMedium(t, vol, position, outgoing, src, s.rng);
    incoming, factor, lobeRng := dir, fac, rng;
    var lit := s.(radiance := radiance);
    next, exit := FinishPass(lit, position, dir, fac, rng, src);
    assert lit.weight == s.weight && lit.bounce == s.bounce && lit.ray == s.ray;
    ev := Medium(exit);
  }

  /** One pass of the `shade_raytrace` loop: a miss, or a free-flight distance
      through the medium the path is in (if any), then the surface or the medium
      branch; the pass scatters in the medium exactly when the sampled distance
      falls short of the surface. `flight` is that distance. */
  method RaytracePass(t: Tracer, scene: Scene, s: PathState, bounces: int, src: Source)
    returns (next: PathState, ghost ev: Event, exit: bool, ghost flight: real, ghost cur: PathState,
             ghost incoming: Vec3, ghost factor: Vec3, ghost lobeRng: Rng)
    requires TracerOk(t, scene) && SourceOk(src) && s.bounce < bounces && |s.volumeStack| <= 1
    ensures Step(Control(s.bounce, s.hitAlpha, false), ev, bounces, false)
      == Control(next.bounce, next.hitAlpha, exit || next.bounce >= bounces)
    ensures ev.Miss? <==> !Intersect(t.kernel, s.ray).hit
    ensures ev.Miss? ==> next == s.(radiance := Add3(s.radiance, Mul3(s.weight, t.environment(s.ray.direction))))
    ensures !ev.Miss? && |s.volumeStack| == 0 ==> !ev.Medium?
    ensures !ev.Miss? && |s.volumeStack| > 0 ==>
      var bi := Intersect(t.kernel, s.ray);
      flight == t.sampleTransmittance(s.volumeStack[|s.volumeStack| - 1], bi.distance,
                                      src(s.rng.seed, s.rng.drawn), src(s.rng.seed, s.rng.drawn + 1))
      && (ev.Medium? <==> flight < bi.distance)
    ensures !ev.Miss? && |s.volumeStack| > 0 ==>
      var bi := Intersect(t.kernel, s.ray);
      cur == s.(weight := Mul3(s.weight, TransmittanceFactor(t, s.volumeStack[|s.volumeStack| - 1], flight, bi.distance)),
                rng := s.rng.(drawn := s.rng.drawn + 2))
    ensures ev.Medium? ==> |s.volumeStack| == 1 && MediumScatter(t, cur, flight, src, next, exit, incoming, factor, lobeRng)
    ensures |next.volumeStack| <= 1
    ensures next.rng.seed == s.rng.seed && next.rng.drawn >= s.rng.drawn
  {
    flight, cur, incoming, factor, lobeRng := 0.0, s, Zero3(), Zero3(), s.rng;
    var bi := Intersect(t.kernel, s.ray);
    if !bi.hit {
      next := s.(radiance := Add3(s.radiance, Mul3(s.weight, t.environment(s.ray.direction))));
      ev, exit := Miss, true;
      return;
    }
    if |s.volumeStack| == 0 {
      next, ev, exit := RaytraceSurface(t, scene, s, bi, bounces, src);
      return;
    }
    next, ev, exit, flight, cur, incoming, factor, lobeRng := RaytraceMediumHit(t, scene, s, bi, bounces, src);
  }

  /** A hit seen from inside the medium on top of the volume stack: a free-flight
      distance is sampled against the hit distance and the weight takes the
      transmittance factor; a flight shorter than the hit scatters in the medium,
      otherwise the surface is shaded with the intersection moved to the sampled
      distance. */
  method RaytraceMediumHit(t: Tracer, scene: Scene, s: PathState, bi: BvhIntersection, bounces: int, src: Source)
    returns (next: PathState, ghost ev: Event, exit: bool, ghost flight: real, ghost cur: PathState,
             ghost incoming: Vec3, ghost factor: Vec3, ghost lobeRng: Rng)
    requires ShadingNormalOk(scene, bi) && MaterialOk(scene, bi) && SourceOk(src) && s.bounce < bounces
    requires |s.volumeStack| == 1
    ensures Step(Control(s.bounce, s.hitAlpha, false), ev, bounces, false)
      == Control(next.bounce, next.hitAlpha, exit || next.bounce >= bounces)
    ensures !ev.Miss?
    ensures flight == t.sampleTransmittance(s.volumeStack[0], bi.distance, src(s.rng.seed, s.rng.drawn),
                                            src(s.rng.seed, s.rng.drawn + 1))
    ensures cur == s.(weight := Mul3(s.weight, TransmittanceFactor(t, s.volumeStack[0], flight, bi.distance)),
                      rng := s.rng.(drawn := s.rng.drawn + 2))
    ensures ev.Medium? <==> flight < bi.distance
    ensures ev.Medium? ==> MediumScatter(t, cur, flight, src, next, exit, incoming, factor, lobeRng)
    ensures !ev.Medium? ==> (ev.Surface? || ev == Skip)
    ensures ev == Skip ==>
      next == cur.(ray := cur.ray.(origin := SkipOrigin(scene, cur.ray, bi.(distance := flight))),
                   rng := cur.rng.(drawn := cur.rng.drawn + 1))
    ensures |next.volumeStack| <= 1
    ensures next.rng.seed == s.rng.seed && next.rng.drawn >= s.rng.drawn
  {
    var distance, transmittance, rng := SampleDistance(t, s.volumeStack[0], bi.distance, src, s.rng);
    flight := distance;
    var c := s.(weight := Mul3(s.weight, transmittance), rng := rng);
    cur := c;
    if distance < bi.distance {
      next, ev, exit, incoming, factor, lobeRng := RaytraceMedium(t, c, distance, bounces, src);
    } else {
      next, ev, exit := RaytraceSurface(t, scene, c, bi.(distance := distance), bounces, src);
      incoming, factor, lobeRng := Zero3(), Zero3(), c.rng;
    }
  }

  /** `shade_raytrace`: the path tracer. At a surface it samples the BSDF or the
      lights with even odds; crossing the boundary of a volumetric material pushes
      it onto the volume stack when the stack is empty and pops it otherwise;
      inside a medium it samples a free-flight distance and may scatter there. The
      loop runs at most `fuel` passes; `events` records what each pass met, and the
      volume stack never holds more than one medium. */
  method ShadeRaytrace(t: Tracer, scene: Scene, ray0: Ray, src: Source, rng0: Rng, bounces: int, fuel: nat)
    returns (r: Vec4, rng: Rng, ghost events: seq<Event>)
    requires TracerOk(t, scene) && SourceOk(src)
    ensures Live(events, bounces, false) && |events| <= fuel
    ensures r.w == Run(events, bounces, false).alpha
    ensures r.w == 0.0 || r.w == 1.0
    ensures r.w == 1.0 <==> bounces > 0 && CameraHit(events)
    ensures bounces <= 0 ==> r == Zero4() && rng == rng0
    ensures bounces > 0 && fuel > 0 && !Intersect(t.kernel, ray0).hit ==>
      r == Vec4Of(t.environment(ray0.direction), 0.0)
    ensures rng.seed == rng0.seed && rng.drawn >= rng0.drawn
  {
    var s := StartState(ray0, rng0);
    events := [];
    var steps := 0;
    while s.bounce < bounces && steps < fuel
      invariant steps == |events| && |events| <= fuel
      invariant Live(events, bounces, false)
      invariant Run(events, bounces, false) == Control(s.bounce, s.hitAlpha, s.bounce >= bounces)
      invariant |s.volumeStack| <= 1
      invariant |events| == 0 ==>
        s.radiance == Zero3() && s.weight == One3() && s.ray == ray0 && s.bounce == 0 && s.hitAlpha == 0.0 && s.rng == rng0
        && |s.volumeStack| == 0
      invariant bounces > 0 && fuel > 0 && !Intersect(t.kernel, ray0).hit ==> |events| == 0
      invariant s.rng.seed == rng0.seed && s.rng.drawn >= rng0.drawn
    {
      ghost var ev;
      var exit;
      ghost var before := events;
      ghost var flight, cur, incoming, factor, lobeRng;
      s, ev, exit, flight, cur, incoming, factor, lobeRng := RaytracePass(t, scene, s, bounces, src);
      Extend(before, ev, bounces, false);
      events := before + [ev];
      steps := steps + 1;
      if exit {
        break;
      }
    }
    ControlFacts(events, bounces);
    r, rng := Vec4Of(s.radiance, s.hitAlpha), s.rng;
  }

  // ---------------------------------------------------------------------------
  // Sampling pass

  /** The radiance clamp of `raytrace_samples`, on the colour: when `clamp` is not
      0 and the largest colour component exceeds it, the colour is scaled down so
      that its largest component is `clamp`; the alpha is kept. */
  function ClampRadiance(m: Maths, radiance: Vec4, clamp: real): Vec4
  {
    var mx := MaxComp3(Xyz(radiance));
    if clamp != 0.0 && mx > clamp then Vec4Of(Scale3(Xyz(radiance), Div(m, clamp, mx)), radiance.w)
    else radiance
  }

  /** The clamp as written, on all four components: the alpha takes part in the
      maximum and is scaled with the colour. */
  function ClampRadianceAsWritten(m: Maths, radiance: Vec4, clamp: real): Vec4
  {
    var mx := MaxComp4(radiance);
    if clamp != 0.0 && mx > clamp then Scale4(radiance, Div(m, clamp, mx)) else radiance
  }

  /** Scaling by a non-negative factor scales the largest component. */
  lemma ScaleMax(v: Vec3, k: real)
    requires k >= 0.0
    ensures MaxComp3(Scale3(v, k)) == MaxComp3(v) * k
  {
    if v.x <= v.y { MulLeMono(k, v.x, v.y); } else { MulLeMono(k, v.y, v.x); }
    if v.x <= v.z { MulLeMono(k, v.x, v.z); } else { MulLeMono(k, v.z, v.x); }
    if v.y <= v.z { MulLeMono(k, v.y, v.z); } else { MulLeMono(k, v.z, v.y); }
  }

  /** The clamp keeps the alpha, leaves a colour within the bound alone, and
      brings a colour above it to a largest component of exactly `clamp`, scaling
      every component by the same factor. */
  lemma ClampFacts(m: Maths, radiance: Vec4, clamp: real)
    ensures ClampRadiance(m, radiance, clamp).w == radiance.w
    ensures clamp == 0.0 || MaxComp3(Xyz(radiance)) <= clamp ==> ClampRadiance(m, radiance, clamp) == radiance
    ensures clamp > 0.0 ==> MaxComp3(Xyz(ClampRadiance(m, radiance, clamp))) <= clamp
    ensures clamp > 0.0 && MaxComp3(Xyz(radiance)) > clamp ==>
      MaxComp3(Xyz(ClampRadiance(m, radiance, clamp))) == clamp
      && Xyz(ClampRadiance(m, radiance, clamp)) == Scale3(Xyz(radiance), clamp / MaxComp3(Xyz(radiance)))
  {
    var mx := MaxComp3(Xyz(radiance));
    if clamp > 0.0 && mx > clamp {
      var k := clamp / mx;
      assert k >= 0.0;
      ScaleMax(Xyz(radiance), k);
      assert mx * k == clamp;
    }
  }

  /** A covered pixel (alpha 1) whose colour is twice the clamp of 10 gets alpha
      0.5 from the clamp as written; the colour-only clamp keeps alpha 1. */
  lemma ClampAsWrittenScalesAlpha(m: Maths)
    ensures ClampRadianceAsWritten(m, Vec4(20.0, 0.0, 0.0, 1.0), 10.0) == Vec4(10.0, 0.0, 0.0, 0.5)
    ensures ClampRadiance(m, Vec4(20.0, 0.0, 0.0, 1.0), 10.0) == Vec4(10.0, 0.0, 0.0, 1.0)
  {
  }

  /** The image coordinates of a sample: pixel `(i, j)` jittered by `puv`, over the
      image size; a jitter in `[0, 1)` keeps the sample inside its own pixel. */
  function SampleUv(i: nat, j: nat, width: nat, height: nat, puv: Vec2): (uv: Vec2)
    requires width > 0 && height > 0
    ensures 0.0 <= puv.x < 1.0 && 0.0 <= puv.y < 1.0 ==>
      i as real <= uv.x * width as real < i as real + 1.0
      && j as real <= uv.y * height as real < j as real + 1.0
    ensures 0.0 <= puv.x < 1.0 && 0.0 <= puv.y < 1.0 && i < width && j < height ==>
      0.0 <= uv.x < 1.0 && 0.0 <= uv.y < 1.0
  {
    var uv := Vec2((i as real + puv.x) / width as real, (j as real + puv.y) / height as real);
    assert uv.x * width as real == i as real + puv.x;
    assert uv.y * height as real == j as real + puv.y;
    uv
  }

  /** What shading one camera ray with the chosen shader yields: a debug shader
      gives exactly its colour and draws nothing; a path tracer gives alpha 0 or 1,
      1 iff there is a bounce to take and the camera ray, past skipped surfaces,
      hits a shaded surface, zero with no bounces and the environment on a first
      miss. `events` records what each pass of the path tracer met. */
  ghost predicate ShadeOutcome(t: Tracer, scene: Scene, ray: Ray, src: Source, rng0: Rng, params: RaytraceParams,
                               fuel: nat, r: Vec4, rng: Rng, events: seq<Event>)
    requires TracerOk(t, scene)
  {
    (forall shader :: shader == params.shader && IsDebugShader(shader) ==> r == DebugShade(t, scene, ray, shader))
    && (params.shader !in {NaiveShader, RaytraceShader} ==> r.w == 0.0 && rng == rng0 && events == [])
    && (params.shader in {NaiveShader, RaytraceShader} ==>
          Live(events, params.bounces, false) && |events| <= fuel
          && (r.w == 0.0 || r.w == 1.0)
          && (r.w == 1.0 <==> params.bounces > 0 && CameraHit(events))
          && (params.bounces <= 0 ==> r == Zero4() && rng == rng0)
          && (params.bounces > 0 && fuel > 0 && !Intersect(t.kernel, ray).hit ==>
                r == Vec4Of(t.environment(ray.direction), 0.0)))
    && (params.shader == NaiveShader ==> MediumFree(events))
    && rng.seed == rng0.seed && rng.drawn >= rng0.drawn
  }

  /** The radiance of one camera sample with the chosen shader: one of the debug
      shaders, which draw nothing, or a path tracer. */
  method Shade(t: Tracer, scene: Scene, ray: Ray, src: Source, rng0: Rng, params: RaytraceParams, fuel: nat)
    returns (r: Vec4, rng: Rng, ghost events: seq<Event>)
    requires TracerOk(t, scene) && SourceOk(src)
    ensures ShadeOutcome(t, scene, ray, src, rng0, params, fuel, r, rng, events)
  {
    events := [];
    match params.shader {
      case ColorShader => r, rng := ShadeColor(t, scene, ray), rng0;
      case EyelightShader => r, rng := ShadeEyelight(t, scene, ray), rng0;
      case NormalShader => r, rng := ShadeNormals(t, scene, ray), rng0;
      case PositionShader => r, rng := ShadePosition(t, scene, ray), rng0;
      case NaiveShader =>
        r, rng, events := ShadeNaive(t, scene, ray, src, rng0, params.bounces, fuel);
      case RaytraceShader =>
        r, rng, events := ShadeRaytrace(t, scene, ray, src, rng0, params.bounces, fuel);
    }
  }

  /** The camera ray of a sample of pixel `(i, j)`: the first two values of the
      stream jitter the image position, the next two pick the lens point. */
  function CameraSample(t: Tracer, camera: Camera, src: Source, rng: Rng, i: nat, j: nat, w: nat, h: nat): Ray
    requires w > 0 && h > 0
  {
    t.cameraRay(camera, SampleUv(i, j, w, h, Vec2(src(rng.seed, rng.drawn), src(rng.seed, rng.drawn + 1))),
                t.sampleDisk(Vec2(src(rng.seed, rng.drawn + 2), src(rng.seed, rng.drawn + 3))))
  }

  /** One sample of pixel `(i, j)` drawn from stream `rng0`: the chosen shader's
      outcome `shaded` for the camera ray of the first four draws, clamped, with
      `rng` the stream after it. */
  ghost predicate PixelSample(t: Tracer, scene: Scene, camera: Camera, params: RaytraceParams, src: Source, rng0: Rng,
                        i: nat, j: nat, w: nat, h: nat, fuel: nat, radiance: Vec4, rng: Rng,
                        shaded: Vec4, events: seq<Event>)
    requires TracerOk(t, scene) && w > 0 && h > 0
  {
    radiance == ClampRadiance(t.m, shaded, params.clamp)
    && ShadeOutcome(t, scene, CameraSample(t, camera, src, rng0, i, j, w, h), src,
                    rng0.(drawn := rng0.drawn + 4), params, fuel, shaded, rng, events)
  }

  /** The camera ray of a sample of pixel `(i, j)`, drawn from its stream: a
      jittered image position, then a lens point. */
  method CameraRay(t: Tracer, camera: Camera, src: Source, rng0: Rng, i: nat, j: nat, w: nat, h: nat)
    returns (ray: Ray, rng: Rng)
    requires w > 0 && h > 0
    ensures ray == CameraSample(t, camera, src, rng0, i, j, w, h)
    ensures rng == rng0.(drawn := rng0.drawn + 4)
  {
    var p := Rand2(src, rng0);
    var uv := SampleUv(i, j, w, h, p.0);
    var q := Rand2(src, p.1);
    ray, rng := t.cameraRay(camera, uv, t.sampleDisk(q.0)), q.1;
  }

  /** One pass of `raytrace_samples` over pixel `(i, j)`: the camera ray through
      a jittered image position and a lens sample from the pixel's stream, the
      chosen shader, and the clamp. */
  method SamplePixel(t: Tracer, scene: Scene, camera: Camera, params: RaytraceParams, src: Source,
                     rng0: Rng, i: nat, j: nat, w: nat, h: nat, fuel: nat)
    returns (radiance: Vec4, rng: Rng, ghost shaded: Vec4, ghost events: seq<Event>)
    requires TracerOk(t, scene) && SourceOk(src) && w > 0 && h > 0
    ensures PixelSample(t, scene, camera, params, src, rng0, i, j, w, h, fuel, radiance, rng, shaded, events)
    ensures rng.seed == rng0.seed && rng.drawn >= rng0.drawn + 4
    ensures params.clamp > 0.0 ==> MaxComp3(Xyz(radiance)) <= params.clamp
    ensures params.shader in {NaiveShader, RaytraceShader} ==> radiance.w == 0.0 || radiance.w == 1.0
  {
    var ray, afterCamera := CameraRay(t, camera, src, rng0, i, j, w, h);
    var r;
    r, rng, events := Shade(t, scene, ray, src, afterCamera, params, fuel);
    shaded := r;
    radiance := ClampRadiance(t.m, r, params.clamp);
    ClampFacts(t.m, r, params.clamp);
  }

  /** Slots `0 .. n` of the accumulation image have each received one more
      sample `added[k]`, bounded by the clamp and with the path tracers' 0/1
      alpha, and their streams have moved forward. */
  predicate SlotsAdded(params: RaytraceParams, image0: seq<Vec4>, image: seq<Vec4>, rngs0: seq<Rng>, rngs: seq<Rng>,
                       added: seq<Vec4>, n: nat)
    requires n <= |image0| && n <= |image| && n <= |rngs0| && n <= |rngs| && n <= |added|
  {
    forall k :: 0 <= k < n ==>
      image[k] == Add4(image0[k], added[k])
      && rngs[k].seed == rngs0[k].seed && rngs[k].drawn > rngs0[k].drawn
      && (params.clamp > 0.0 ==> MaxComp3(Xyz(added[k])) <= params.clamp)
      && (params.shader in {NaiveShader, RaytraceShader} ==> added[k].w == 0.0 || added[k].w == 1.0)
  }

  /** Slots `from .. to` still hold their old value and stream. */
  predicate SlotsUntouched(image0: seq<Vec4>, image: seq<Vec4>, rngs0: seq<Rng>, rngs: seq<Rng>, from: nat, to: nat)
    requires to <= |image0| && to <= |image| && to <= |rngs0| && to <= |rngs|
  {
    forall k :: from <= k < to ==> image[k] == image0[k] && rngs[k] == rngs0[k]
  }

  /** Adding sample `radiance` into slot `n` and moving its stream to `next`
      extends the added prefix by one slot and shrinks the untouched rest. */
  lemma SlotAdded(params: RaytraceParams, image0: seq<Vec4>, image: seq<Vec4>, rngs0: seq<Rng>, rngs: seq<Rng>,
                  added: seq<Vec4>, n: nat, to: nat, radiance: Vec4, next: Rng)
    requires n < to && to == |image0| == |image| == |rngs0| == |rngs| && |added| == n
    requires SlotsAdded(params, image0, image, rngs0, rngs, added, n)
    requires SlotsUntouched(image0, image, rngs0, rngs, n, to)
    requires next.seed == rngs[n].seed && next.drawn > rngs[n].drawn
    requires params.clamp > 0.0 ==> MaxComp3(Xyz(radiance)) <= params.clamp
    requires params.shader in {NaiveShader, RaytraceShader} ==> radiance.w == 0.0 || radiance.w == 1.0
    ensures SlotsAdded(params, image0, image[n := Add4(image[n], radiance)], rngs0, rngs[n := next],
                       added + [radiance], n + 1)
    ensures SlotsUntouched(image0, image[n := Add4(image[n], radiance)], rngs0, rngs[n := next], n + 1, to)
  {
  }

  /** Slot `k` went from stream `before[k]` to stream `after[k]` by adding
      `added[k]`, the sample of pixel `PixelOf(k, w)`: the clamped outcome
      `shaded[k]` of that pixel's camera ray. */
  ghost predicate SlotSampled(t: Tracer, scene: Scene, camera: Camera, params: RaytraceParams, src: Source,
                              w: nat, h: nat, fuel: nat, before: seq<Rng>, after: seq<Rng>,
                              added: seq<Vec4>, shaded: seq<Vec4>, paths: seq<seq<Event>>, k: nat)
    requires TracerOk(t, scene)
    requires k < |before| && k < |after| && k < |added| && k < |shaded| && k < |paths|
  {
    w > 0 && h > 0
    && PixelSample(t, scene, camera, params, src, before[k], PixelOf(k, w).0, PixelOf(k, w).1,
                   w, h, fuel, added[k], after[k], shaded[k], paths[k])
  }

  /** A sample of pixel `PixelOf(n, w)` from stream `before[n]`, added as slot
      `n`, extends the sampled prefix by that slot and leaves the others as they were. */
  lemma {:induction false} SlotsSampledExtend(t: Tracer, scene: Scene, camera: Camera, params: RaytraceParams, src: Source,
                           w: nat, h: nat, fuel: nat, before: seq<Rng>, rngs: seq<Rng>,
                           added: seq<Vec4>, shaded: seq<Vec4>, paths: seq<seq<Event>>, after: seq<Rng>,
                           rng0: Rng, rng: Rng, i: nat, j: nat, radiance: Vec4, r: Vec4, path: seq<Event>, n: nat)
    requires TracerOk(t, scene) && w > 0 && h > 0
    requires n < |before| && n < |rngs| && n < |after| && |added| == n && |shaded| == n && |paths| == n
    requires after[..n] == rngs[..n] && before[n] == rng0 && after[n] == rng
    requires (i, j) == PixelOf(n, w)
    requires forall k :: 0 <= k < n ==>
      SlotSampled(t, scene, camera, params, src, w, h, fuel, before, rngs, added, shaded, paths, k)
    requires PixelSample(t, scene, camera, params, src, rng0, i, j, w, h, fuel, radiance, rng, r, path)
    ensures forall k :: 0 <= k < n + 1 ==>
      SlotSampled(t, scene, camera, params, src, w, h, fuel, before, after, added + [radiance], shaded + [r], paths + [path], k)
  {
    forall k | 0 <= k < n + 1
      ensures SlotSampled(t, scene, camera, params, src, w, h, fuel, before, after,
                          added + [radiance], shaded + [r], paths + [path], k)
    {
      if k < n {
        assert SlotSampled(t, scene, camera, params, src, w, h, fuel, before, rngs, added, shaded, paths, k);
        assert after[k] == after[..n][k] == rngs[k];
        assert (added + [radiance])[k] == added[k] && (shaded + [r])[k] == shaded[k] && (paths + [path])[k] == paths[k];
      } else {
        assert (added + [radiance])[k] == radiance && (shaded + [r])[k] == r && (paths + [path])[k] == path;
      }
    }
  }

  /** The body of `raytrace_samples` for slot `idx`: one sample of its pixel from
      its stream, added into its slot. */
  method SampleSlot(state: RaytraceState, params: RaytraceParams, scene: Scene, t: Tracer, src: Source,
                    fuel: nat, camera: Camera, idx: nat, ghost before: seq<Rng>, ghost image0: seq<Vec4>,
                    ghost added: seq<Vec4>, ghost shaded: seq<Vec4>, ghost paths: seq<seq<Event>>)
    returns (ghost added': seq<Vec4>, ghost shaded': seq<Vec4>, ghost paths': seq<seq<Event>>)
    requires state.Valid() && idx < state.width * state.height
    requires TracerOk(t, scene) && SourceOk(src)
    requires |added| == idx && |shaded| == idx && |paths| == idx
    requires |before| == |image0| == state.width * state.height
    requires SlotsAdded(params, image0, state.image, before, state.rngs, added, idx)
    requires SlotsUntouched(image0, state.image, before, state.rngs, idx, state.width * state.height)
    requires forall k :: 0 <= k < idx ==>
      SlotSampled(t, scene, camera, params, src, state.width, state.height, fuel, before, state.rngs, added, shaded, paths, k)
    modifies state
    ensures state.Valid()
    ensures state.width == old(state.width) && state.height == old(state.height) && state.samples == old(state.samples)
    ensures |added'| == idx + 1 && |shaded'| == idx + 1 && |paths'| == idx + 1
    ensures SlotsAdded(params, image0, state.image, before, state.rngs, added', idx + 1)
    ensures SlotsUntouched(image0, state.image, before, state.rngs, idx + 1, state.width * state.height)
    ensures forall k :: 0 <= k < idx + 1 ==>
      SlotSampled(t, scene, camera, params, src, state.width, state.height, fuel, before, state.rngs, added', shaded', paths', k)
  {
    var w, h := state.width, state.height;
    PixelOfInGrid(idx, w, h);
    var (i, j) := PixelOf(idx, w);
    var rng0 := state.rngs[idx];
    var radiance, next, r, path := SamplePixel(t, scene, camera, params, src, rng0, i, j, w, h, fuel);
    SlotAdded(params, image0, state.image, before, state.rngs, added, idx, w * h, radiance, next);
    ghost var rngs := state.rngs;
    state.image := state.image[idx := Add4(state.image[idx], radiance)];
    state.rngs := state.rngs[idx := next];
    added', shaded', paths' := added + [radiance], shaded + [r], paths + [path];
    SlotsSampledExtend(t, scene, camera, params, src, w, h, fuel, before, rngs, added, shaded, paths,
                       state.rngs, rng0, next, i, j, radiance, r, path, idx);
  }

  /** `raytrace_samples`: once the sample budget is spent nothing changes;
      otherwise the counter goes up by one and every pixel gets one more clamped
      sample added into its own slot, drawn from its own random stream: slot `k`
      receives `added[k]`, the sample of pixel `PixelOf(k)` from the stream the
      slot held before, which is the shaded result `shaded[k]` of that pixel's
      camera ray, clamped. */
  method RaytraceSamples(state: RaytraceState, params: RaytraceParams, scene: Scene, t: Tracer,
                         src: Source, fuel: nat)
    returns (ghost added: seq<Vec4>, ghost shaded: seq<Vec4>, ghost paths: seq<seq<Event>>)
    requires state.Valid() && params.camera < |scene.cameras|
    requires TracerOk(t, scene) && SourceOk(src)
    modifies state
    ensures state.Valid()
    ensures state.width == old(state.width) && state.height == old(state.height)
    ensures old(state.samples) >= params.samples ==>
      state.samples == old(state.samples) && state.image == old(state.image) && state.rngs == old(state.rngs)
    ensures old(state.samples) < params.samples ==> state.samples == old(state.samples) + 1
    ensures old(state.samples) < params.samples ==>
      |added| == |state.image| && |shaded| == |state.image| && |paths| == |state.image|
      && SlotsAdded(params, old(state.image), state.image, old(state.rngs), state.rngs, added, |state.image|)
      && forall k :: 0 <= k < |state.image| ==>
        SlotSampled(t, scene, scene.cameras[params.camera], params, src, state.width, state.height, fuel,
                    old(state.rngs), state.rngs, added, shaded, paths, k)
  {
    added, shaded, paths := [], [], [];
    if state.samples >= params.samples {
      return;
    }
    state.samples := state.samples + 1;
    var camera := scene.cameras[params.camera];
    var w := state.width;
    var h := state.height;
    var idx := 0;
    ghost var before, image0 := state.rngs, state.image;
    while idx < w * h
      invariant 0 <= idx <= w * h
      invariant state.Valid() && state.width == w && state.height == h
      invariant state.samples == old(state.samples) + 1
      invariant |added| == idx && |shaded| == idx && |paths| == idx
      invariant before == old(state.rngs) && image0 == old(state.image)
      invariant SlotsAdded(params, image0, state.image, before, state.rngs, added, idx)
      invariant SlotsUntouched(image0, state.image, before, state.rngs, idx, w * h)
      invariant forall k :: 0 <= k < idx ==>
        SlotSampled(t, scene, camera, params, src, w, h, fuel, before, state.rngs, added, shaded, paths, k)
    {
      added, shaded, paths := SampleSlot(state, params, scene, t, src, fuel, camera, idx, before, image0,
                                          added, shaded, paths);
      idx := idx + 1;
    }
  }
}
