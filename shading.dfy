// The material point of `shading.rs` and its BSDF: sampling, evaluation and
// sampling densities for the Matte, Glossy and Reflective families, split into
// a continuous path (rough materials) and a delta path (perfect mirrors).
//
// Conventions: `n` is the shading normal, `o` the outgoing direction (towards
// the viewer), `i` the incoming direction, `h` a microfacet half vector. The
// "up normal" is `n` flipped to the side of `o`.

module Shading {
  import opened Vectors
  import opened SceneComponents

  datatype MaterialPoint = MaterialPoint(
    mType: MaterialType, emission: Vec3, color: Vec3, roughness: real, metallic: real,
    ior: real, density: Vec3, scattering: Vec3, scanisotropy: real, trdepth: real,
    opacity: real)

  /** `MaterialPoint::default`: black matte, ior 1, opaque. */
  function DefaultMaterialPoint(): MaterialPoint
  {
    MaterialPoint(Matte, Zero3(), Zero3(), 0.0, 0.0, 1.0, Zero3(), Zero3(), 0.0, 0.01, 1.0)
  }

  // ---------------------------------------------------------------------------
  // Shared helpers

  /** `eval_emission`: emission is seen only from the front side. */
  function EvalEmission(mp: MaterialPoint, n: Vec3, o: Vec3): Vec3
  {
    if Dot(n, o) >= 0.0 then mp.emission else Zero3()
  }

  /** The normal flipped towards the outgoing direction. */
  function UpNormal(n: Vec3, o: Vec3): Vec3
  {
    if Dot(n, o) <= 0.0 then Neg3(n) else n
  }

  /** The guard of the reflective lobes: `dot(n, i) * dot(n, o) <= 0`, i.e. the two
      directions are not strictly on the same side of the surface. */
  predicate OppositeSides(n: Vec3, o: Vec3, i: Vec3)
  {
    Dot(n, i) * Dot(n, o) <= 0.0
  }

  /** `same_hemisphere`. */
  predicate SameHemisphere(n: Vec3, o: Vec3, i: Vec3)
  {
    Dot(n, o) * Dot(n, i) >= 0.0
  }

  /** `sample_hemisphere_cos_pdf`: `cos / π` above the surface, 0 below. */
  function SampleHemisphereCosPdf(n: Vec3, i: Vec3): real
  {
    var cosw := Dot(n, i);
    if cosw <= 0.0 then 0.0 else cosw / Pi
  }

  /** `fresnel_dielectric`: 1 under total internal reflection (`cos2t < 0`), else
      the mean of the squared s- and p-polarised reflectances. */
  function FresnelDielectric(m: Maths, eta: real, n: Vec3, o: Vec3): real
  {
    var cosw := Abs(Dot(n, o));
    var cos2t := RefractedCos2(m, eta, cosw);
    if cos2t < 0.0 then 1.0
    else
      var t0 := m.sqrt(cos2t);
      var t1 := eta * t0;
      var t2 := eta * cosw;
      var rs := Div(m, cosw - t1, cosw + t1);
      var rp := Div(m, t0 - t2, t0 + t2);
      (rs * rs + rp * rp) / 2.0
  }

  /** `cos2t = 1 - sin2 / eta^2`, the squared cosine of the refracted direction;
      negative under total internal reflection. */
  function RefractedCos2(m: Maths, eta: real, cosw: real): real
  {
    1.0 - Div(m, 1.0 - cosw * cosw, eta * eta)
  }

  /** The terms of one channel of `fresnel_conductor` that precede `t3`, as
      written: `t0 = eta2 - (etak2 - sin2)`, that is `eta2 - etak2 + sin2`. */
  datatype ConductorTerms = ConductorTerms(cos2: real, sin2: real, a2plusb2: real, t2: real, rs: real)

  function ConductorPrefix(m: Maths, eta: real, etak: real, cosine: real): ConductorTerms
  {
    var cosw := Clamp(cosine, -1.0, 1.0);
    var cos2 := cosw * cosw;
    var sin2 := Clamp(1.0 - cos2, 0.0, 1.0);
    var eta2 := eta * eta;
    var etak2 := etak * etak;
    var t0 := eta2 - (etak2 - sin2);
    var a2plusb2 := m.sqrt(t0 * t0 + 4.0 * (eta2 * etak2));
    var t1 := a2plusb2 + cos2;
    var a := m.sqrt((a2plusb2 + t0) / 2.0);
    var t2 := 2.0 * a * cosw;
    var rs := Div(m, t1 - t2, t1 + t2);
    ConductorTerms(cos2, sin2, a2plusb2, t2, rs)
  }

  /** One channel of `fresnel_conductor` as written: `t3` is computed as
      `cos2 * (a2plusb2 + sin2) * sin2`. */
  function ConductorChannelAsWritten(m: Maths, eta: real, etak: real, cosine: real): real
  {
    var c := ConductorPrefix(m, eta, etak, cosine);
    var t3 := c.cos2 * (c.a2plusb2 + c.sin2) * c.sin2;
    var t4 := c.t2 * c.sin2;
    var rp := c.rs * Div(m, t3 - t4, t3 + t4);
    (rp + c.rs) / 2.0
  }

  /** One channel of `fresnel_conductor` with `t3` corrected to
      `cos2 * a2plusb2 + sin2 * sin2`; the other terms, `t0` included, are kept as
      written. */
  function ConductorChannel(m: Maths, eta: real, etak: real, cosine: real): real
  {
    var c := ConductorPrefix(m, eta, etak, cosine);
    var t3 := c.cos2 * c.a2plusb2 + c.sin2 * c.sin2;
    var t4 := c.t2 * c.sin2;
    var rp := c.rs * Div(m, t3 - t4, t3 + t4);
    (rp + c.rs) / 2.0
  }

  /** `fresnel_conductor` as written: zero at or beyond grazing (`cosw <= 0`). */
  function FresnelConductorAsWritten(m: Maths, eta: Vec3, etak: Vec3, n: Vec3, o: Vec3): Vec3
  {
    var cosw := Dot(n, o);
    if cosw <= 0.0 then Zero3()
    else Vec3(ConductorChannelAsWritten(m, eta.x, etak.x, cosw),
              ConductorChannelAsWritten(m, eta.y, etak.y, cosw),
              ConductorChannelAsWritten(m, eta.z, etak.z, cosw))
  }

  /** `fresnel_conductor` with the corrected `t3`; used by the reflective lobes. */
  function FresnelConductor(m: Maths, eta: Vec3, etak: Vec3, n: Vec3, o: Vec3): Vec3
  {
    var cosw := Dot(n, o);
    if cosw <= 0.0 then Zero3()
    else Vec3(ConductorChannel(m, eta.x, etak.x, cosw),
              ConductorChannel(m, eta.y, etak.y, cosw),
              ConductorChannel(m, eta.z, etak.z, cosw))
  }

  /** `reflectivity_to_eta`: the index of refraction of a conductor with the given
      normal-incidence reflectivity, after clamping it to [0, 0.99]. */
  function EtaChannel(m: Maths, r: real): real
  {
    var s := m.sqrt(Clamp(r, 0.0, 0.99));
    Div(m, 1.0 + s, 1.0 - s)
  }

  function ReflectivityToEta(m: Maths, r: Vec3): Vec3
  {
    Vec3(EtaChannel(m, r.x), EtaChannel(m, r.y), EtaChannel(m, r.z))
  }

  /** `microfacet_distribution` with the GGX model (the only one the core uses). */
  function MicrofacetDistribution(m: Maths, roughness: real, n: Vec3, h: Vec3): real
  {
    var cosine := Dot(n, h);
    if cosine <= 0.0 then 0.0
    else
      var r2 := roughness * roughness;
      var c2 := cosine * cosine;
      Div(m, r2, Pi * (c2 * r2 + 1.0 - c2) * (c2 * r2 + 1.0 - c2))
  }

  /** `microfacet_shadowing1` with the GGX model. */
  function MicrofacetShadowing1(m: Maths, roughness: real, n: Vec3, h: Vec3, dir: Vec3): real
  {
    var cosine := Dot(n, dir);
    var cosineh := Dot(h, dir);
    if cosine * cosineh <= 0.0 then 0.0 else GgxShadowing1(m, roughness, cosine)
  }

  /** The GGX term of `microfacet_shadowing1` for a given cosine. */
  function GgxShadowing1(m: Maths, roughness: real, cosine: real): real
  {
    var r2 := roughness * roughness;
    var c2 := cosine * cosine;
    Div(m, 2.0 * Abs(cosine), Abs(cosine) + m.sqrt(c2 - r2 * c2 + r2))
  }

  /** `microfacet_shadowing`: the product of the two one-sided terms. */
  function MicrofacetShadowing(m: Maths, roughness: real, n: Vec3, h: Vec3, o: Vec3, i: Vec3): real
  {
    MicrofacetShadowing1(m, roughness, n, h, o) * MicrofacetShadowing1(m, roughness, n, h, i)
  }

  /** `sample_microfacet_pdf`: the distribution weighted by the half-vector cosine. */
  function SampleMicrofacetPdf(m: Maths, roughness: real, n: Vec3, h: Vec3): real
  {
    var cosine := Dot(n, h);
    if cosine < 0.0 then 0.0 else MicrofacetDistribution(m, roughness, n, h) * cosine
  }

  // ---------------------------------------------------------------------------
  // Matte

  function SampleMatte(m: Maths, n: Vec3, o: Vec3, rn: Vec2): Vec3
  {
    m.sampleHemisphereCos(UpNormal(n, o), rn)
  }

  /** `eval_matte`: Lambert, `color / π * |cos|`, on the same side only. */
  function EvalMatte(mp: MaterialPoint, n: Vec3, o: Vec3, i: Vec3): Vec3
  {
    if OppositeSides(n, o, i) then Zero3()
    else Scale3(Scale3(mp.color, 1.0 / Pi), Abs(Dot(n, i)))
  }

  function SampleMattePdf(n: Vec3, o: Vec3, i: Vec3): real
  {
    if OppositeSides(n, o, i) then 0.0 else SampleHemisphereCosPdf(UpNormal(n, o), i)
  }

  // ---------------------------------------------------------------------------
  // Glossy

  /** `sample_glossy`: specular with the Fresnel probability, diffuse otherwise. */
  function SampleGlossy(m: Maths, mp: MaterialPoint, n: Vec3, o: Vec3, rnl: real, rn: Vec2): Vec3
  {
    var up := UpNormal(n, o);
    if rnl < FresnelDielectric(m, mp.ior, up, o) then
      var h := m.sampleMicrofacet(mp.roughness, up, rn);
      var i := Reflect(Neg3(o), h);
      if !SameHemisphere(up, o, i) then Zero3() else i
    else
      m.sampleHemisphereCos(up, rn)
  }

  /** `eval_glossy`: a Fresnel-weighted diffuse lobe plus a GGX specular lobe. */
  function EvalGlossy(m: Maths, mp: MaterialPoint, n: Vec3, o: Vec3, i: Vec3): Vec3
  {
    if OppositeSides(n, o, i) then Zero3()
    else
      var up := UpNormal(n, o);
      var f1 := FresnelDielectric(m, mp.ior, up, o);
      var h := m.normalize(Add3(i, o));
      var f := FresnelDielectric(m, mp.ior, h, i);
      var d := MicrofacetDistribution(m, mp.roughness, up, h);
      var g := MicrofacetShadowing(m, mp.roughness, up, h, o, i);
      var cosi := Abs(Dot(up, i));
      Add3(Scale3(mp.color, (1.0 - f1) / Pi * cosi),
           Scale3(One3(), Div(m, f * d * g, 4.0 * Dot(up, o) * Dot(up, i)) * cosi))
  }

  /** `sample_glossy_pdf` as written: it has no same-side guard. */
  function SampleGlossyPdfAsWritten(m: Maths, mp: MaterialPoint, n: Vec3, o: Vec3, i: Vec3): real
  {
    var up := UpNormal(n, o);
    var h := m.normalize(Add3(o, i));
    var f := FresnelDielectric(m, mp.ior, up, o);
    Div(m, f * SampleMicrofacetPdf(m, mp.roughness, up, h), 4.0 * Abs(Dot(o, h)))
      + (1.0 - f) * SampleHemisphereCosPdf(up, i)
  }

  /** The glossy density with the same-side guard every other reflective lobe has:
      the corrected `sample_glossy_pdf`. */
  function SampleGlossyPdf(m: Maths, mp: MaterialPoint, n: Vec3, o: Vec3, i: Vec3): real
  {
    if OppositeSides(n, o, i) then 0.0 else SampleGlossyPdfAsWritten(m, mp, n, o, i)
  }

  // ---------------------------------------------------------------------------
  // Reflective

  function SampleReflective(m: Maths, mp: MaterialPoint, n: Vec3, o: Vec3, rn: Vec2): Vec3
  {
    var up := UpNormal(n, o);
    var h := m.sampleMicrofacet(mp.roughness, up, rn);
    var i := Reflect(Neg3(o), h);
    if !SameHemisphere(up, o, i) then Zero3() else i
  }

  /** `sample_reflective_delta`: the mirror direction about the up normal. */
  function SampleReflectiveDelta(n: Vec3, o: Vec3): Vec3
  {
    Reflect(Neg3(o), UpNormal(n, o))
  }

  /** `eval_reflective`: a GGX conductor lobe. */
  function EvalReflective(m: Maths, mp: MaterialPoint, n: Vec3, o: Vec3, i: Vec3): Vec3
  {
    if OppositeSides(n, o, i) then Zero3()
    else
      var up := UpNormal(n, o);
      var h := m.normalize(Add3(i, o));
      var f := FresnelConductor(m, ReflectivityToEta(m, mp.color), Zero3(), h, i);
      var d := MicrofacetDistribution(m, mp.roughness, up, h);
      var g := MicrofacetShadowing(m, mp.roughness, up, h, o, i);
      Scale3(Div3(m, Scale3(f, d * g), 4.0 * Dot(up, o) * Dot(up, i)), Abs(Dot(up, i)))
  }

  /** `eval_reflective_delta`: the conductor Fresnel term at the mirror angle. */
  function EvalReflectiveDelta(m: Maths, mp: MaterialPoint, n: Vec3, o: Vec3, i: Vec3): Vec3
  {
    if OppositeSides(n, o, i) then Zero3()
    else FresnelConductor(m, ReflectivityToEta(m, mp.color), Zero3(), UpNormal(n, o), o)
  }

  function SampleReflectivePdf(m: Maths, mp: MaterialPoint, n: Vec3, o: Vec3, i: Vec3): real
  {
    if OppositeSides(n, o, i) then 0.0
    else
      var up := UpNormal(n, o);
      var h := m.normalize(Add3(o, i));
      Div(m, SampleMicrofacetPdf(m, mp.roughness, up, h), 4.0 * Abs(Dot(o, h)))
  }

  /** `sample_reflective_pdf_delta`: a unit weight on the same side. */
  function SampleReflectivePdfDelta(n: Vec3, o: Vec3, i: Vec3): real
  {
    if OppositeSides(n, o, i) then 0.0 else 1.0
  }

  // ---------------------------------------------------------------------------
  // Dispatch

  /** `MaterialPoint::sample_bsdfcos`. */
  function SampleBsdfcos(m: Maths, mp: MaterialPoint, n: Vec3, o: Vec3, rnl: real, rn: Vec2): Vec3
  {
    match mp.mType
    case Matte => SampleMatte(m, n, o, rn)
    case Glossy => SampleGlossy(m, mp, n, o, rnl, rn)
    case Reflective => SampleReflective(m, mp, n, o, rn)
    case _ => Zero3()
  }

  /** `MaterialPoint::eval_bsdfcos`. */
  function EvalBsdfcos(m: Maths, mp: MaterialPoint, n: Vec3, o: Vec3, i: Vec3): Vec3
  {
    if mp.roughness == 0.0 then Zero3()
    else match mp.mType
      case Matte => EvalMatte(mp, n, o, i)
      case Glossy => EvalGlossy(m, mp, n, o, i)
      case Reflective => EvalReflective(m, mp, n, o, i)
      case _ => Zero3()
  }

  /** `MaterialPoint::sample_bsdfcos_pdf`, with the glossy density as written. */
  function SampleBsdfcosPdf(m: Maths, mp: MaterialPoint, n: Vec3, o: Vec3, i: Vec3): real
  {
    if mp.roughness == 0.0 then 0.0
    else match mp.mType
      case Matte => SampleMattePdf(n, o, i)
      case Glossy => SampleGlossyPdfAsWritten(m, mp, n, o, i)
      case Reflective => SampleReflectivePdf(m, mp, n, o, i)
      case _ => 0.0
  }

  /** `MaterialPoint::sample_delta`. */
  function SampleDelta(mp: MaterialPoint, n: Vec3, o: Vec3, rnl: real): Vec3
  {
    if mp.roughness != 0.0 then Zero3()
    else match mp.mType
      case Reflective => SampleReflectiveDelta(n, o)
      case _ => Zero3()
  }

  /** `MaterialPoint::eval_delta`. */
  function EvalDelta(m: Maths, mp: MaterialPoint, n: Vec3, o: Vec3, i: Vec3): Vec3
  {
    if mp.roughness != 0.0 then Zero3()
    else match mp.mType
      case Reflective => EvalReflectiveDelta(m, mp, n, o, i)
      case _ => Zero3()
  }

  /** `MaterialPoint::sample_delta_pdf`. */
  function SampleDeltaPdf(mp: MaterialPoint, n: Vec3, o: Vec3, i: Vec3): real
  {
    if mp.roughness != 0.0 then 0.0
    else match mp.mType
      case Reflective => SampleReflectivePdfDelta(n, o, i)
      case _ => 0.0
  }
}
