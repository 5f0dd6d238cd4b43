// Properties of the BSDF of `shading.rs`: which path (continuous or delta) a
// material point takes, the same-side guard, the Lambert weight, the ranges of
// the microfacet terms, and the Fresnel terms at normal incidence.

module ShadingFacts {
  import opened Vectors
  import opened SceneComponents
  import opened Shading

  /** Emission is seen from exactly one side of a surface. */
  lemma EmissionOneSided(mp: MaterialPoint, n: Vec3, o: Vec3)
    requires Dot(n, o) != 0.0
    ensures (EvalEmission(mp, n, o) == mp.emission) != (EvalEmission(mp, Neg3(n), o) == mp.emission)
            || mp.emission == Zero3()
    ensures EvalEmission(mp, n, o) == Zero3() || EvalEmission(mp, Neg3(n), o) == Zero3()
  {
  }

  /** The up normal faces the outgoing direction. */
  lemma UpNormalFacesOutgoing(n: Vec3, o: Vec3)
    ensures Dot(UpNormal(n, o), o) == Abs(Dot(n, o))
    ensures UpNormal(n, o) == n || UpNormal(n, o) == Neg3(n)
  {
    DotNeg(n, o);
  }

  /** A material point takes either the continuous or the delta path, never both:
      with zero roughness every continuous term vanishes, otherwise every delta term. */
  lemma PathsExclusive(m: Maths, mp: MaterialPoint, n: Vec3, o: Vec3, i: Vec3, rnl: real)
    ensures mp.roughness == 0.0 ==>
      EvalBsdfcos(m, mp, n, o, i) == Zero3() && SampleBsdfcosPdf(m, mp, n, o, i) == 0.0
    ensures mp.roughness != 0.0 ==>
      SampleDelta(mp, n, o, rnl) == Zero3() && EvalDelta(m, mp, n, o, i) == Zero3()
      && SampleDeltaPdf(mp, n, o, i) == 0.0
  {
  }

  /** Only the matte, glossy and reflective families scatter; every other family
      samples no direction and carries no weight on either path. */
  lemma UnsupportedFamiliesScatterNothing(m: Maths, mp: MaterialPoint, n: Vec3, o: Vec3, i: Vec3,
                                          rnl: real, rn: Vec2)
    requires mp.mType !in {Matte, Glossy, Reflective}
    ensures SampleBsdfcos(m, mp, n, o, rnl, rn) == Zero3()
    ensures EvalBsdfcos(m, mp, n, o, i) == Zero3() && SampleBsdfcosPdf(m, mp, n, o, i) == 0.0
    ensures SampleDelta(mp, n, o, rnl) == Zero3() && EvalDelta(m, mp, n, o, i) == Zero3()
    ensures SampleDeltaPdf(mp, n, o, i) == 0.0
  {
  }

  /** A delta direction is produced only by a perfect (zero-roughness) mirror. */
  lemma DeltaOnlyFromMirrors(mp: MaterialPoint, n: Vec3, o: Vec3, rnl: real)
    requires SampleDelta(mp, n, o, rnl) != Zero3()
    ensures mp.mType == Reflective && mp.roughness == 0.0
  {
  }

  /** No lobe reflects light towards the other side of the surface: on opposite
      sides every evaluation of both paths is zero, and so is every density but
      the glossy one as written, which the corrected glossy density joins. */
  lemma OppositeSidesCarryNothing(m: Maths, mp: MaterialPoint, n: Vec3, o: Vec3, i: Vec3)
    requires OppositeSides(n, o, i)
    ensures EvalBsdfcos(m, mp, n, o, i) == Zero3()
    ensures mp.mType != Glossy ==> SampleBsdfcosPdf(m, mp, n, o, i) == 0.0
    ensures SampleGlossyPdf(m, mp, n, o, i) == 0.0
    ensures EvalDelta(m, mp, n, o, i) == Zero3() && SampleDeltaPdf(mp, n, o, i) == 0.0
  {
  }

  /** The Lambert lobe divided by its cosine-weighted density is the albedo: on the
      same side, `eval_matte == color * sample_matte_pdf`, and the density is positive. */
  lemma MatteWeightIsColor(mp: MaterialPoint, n: Vec3, o: Vec3, i: Vec3)
    requires !OppositeSides(n, o, i)
    ensures SampleMattePdf(n, o, i) > 0.0
    ensures EvalMatte(mp, n, o, i) == Scale3(mp.color, SampleMattePdf(n, o, i))
  {
    ProductSign(Dot(n, i), Dot(n, o));
    DotNeg(n, i);
    ScaleScale(mp.color, 1.0 / Pi, Abs(Dot(n, i)));
    assert 1.0 / Pi * Abs(Dot(n, i)) == Abs(Dot(n, i)) / Pi;
  }

  /** The cosine hemisphere density is non-negative, and positive exactly above the surface. */
  lemma HemispherePdfSign(n: Vec3, i: Vec3)
    ensures SampleHemisphereCosPdf(n, i) >= 0.0
    ensures SampleHemisphereCosPdf(n, i) > 0.0 <==> Dot(n, i) > 0.0
  {
  }

  /** The GGX distribution is zero for a half vector at or below the surface and
      positive above it for a positive roughness, so its density is never negative
      between unit vectors. */
  lemma MicrofacetSigns(m: Maths, roughness: real, n: Vec3, h: Vec3)
    ensures Dot(n, h) <= 0.0 ==> MicrofacetDistribution(m, roughness, n, h) == 0.0
    ensures Dot(n, h) < 0.0 ==> SampleMicrofacetPdf(m, roughness, n, h) == 0.0
    ensures 0.0 < Dot(n, h) <= 1.0 && roughness != 0.0 ==>
      MicrofacetDistribution(m, roughness, n, h) > 0.0 && SampleMicrofacetPdf(m, roughness, n, h) > 0.0
    ensures Dot(n, h) <= 1.0 && roughness != 0.0 ==> SampleMicrofacetPdf(m, roughness, n, h) >= 0.0
  {
    var c := Dot(n, h);
    if 0.0 < c <= 1.0 && roughness != 0.0 {
      var r2 := roughness * roughness;
      var c2 := c * c;
      calc { r2; == roughness * roughness; > 0.0; }
      MulLeMono(c, c, 1.0);
      calc { c2; == c * c; > 0.0; }
      calc { c2; == c * c; <= c * 1.0; <= 1.0; }
      GgxPositive(r2, c2);
      MulPos(MicrofacetDistribution(m, roughness, n, h), c);
    }
  }

  /** The GGX quotient `r2 / (pi * d * d)` with `d = c2 * r2 + 1 - c2` is positive
      for `r2 > 0` and `0 < c2 <= 1`. */
  lemma GgxPositive(r2: real, c2: real)
    requires r2 > 0.0 && 0.0 < c2 <= 1.0
    ensures Pi * (c2 * r2 + 1.0 - c2) * (c2 * r2 + 1.0 - c2) > 0.0
    ensures r2 / (Pi * (c2 * r2 + 1.0 - c2) * (c2 * r2 + 1.0 - c2)) > 0.0
  {
    MulPos(c2, r2);
    var d := c2 * r2 + 1.0 - c2;
    MulPos(Pi, d);
    MulPos(Pi * d, d);
    var den := Pi * d * d;
    calc { den; == Pi * d * d; > 0.0; }
    DivPos(r2, den);
  }

  /** Light leaving a denser medium at more than the critical angle is reflected
      completely: when `sin^2 > eta^2` the dielectric Fresnel term is 1. */
  lemma TotalInternalReflection(m: Maths, eta: real, n: Vec3, o: Vec3)
    requires eta != 0.0 && eta * eta < 1.0 - Dot(n, o) * Dot(n, o)
    ensures FresnelDielectric(m, eta, n, o) == 1.0
  {
    assert Abs(Dot(n, o)) * Abs(Dot(n, o)) == Dot(n, o) * Dot(n, o);
    AboveOne(1.0 - Abs(Dot(n, o)) * Abs(Dot(n, o)), eta);
    assert RefractedCos2(m, eta, Abs(Dot(n, o))) < 0.0;
  }

  lemma AboveOne(a: real, e: real)
    requires e != 0.0 && e * e < a
    ensures a / (e * e) > 1.0
  {
    var b := e * e;
    calc { b; == e * e; > 0.0; }
    var q := a / b;
    assert q * b == a;
    if q <= 1.0 {
      MulLeMono(b, q, 1.0);
      assert false;
    }
  }

  /** The conductor Fresnel term is zero for a view at or beyond grazing, as
      written and corrected alike. */
  lemma ConductorBeyondGrazing(m: Maths, eta: Vec3, etak: Vec3, n: Vec3, o: Vec3)
    requires Dot(n, o) <= 0.0
    ensures FresnelConductor(m, eta, etak, n, o) == Zero3()
    ensures FresnelConductorAsWritten(m, eta, etak, n, o) == Zero3()
  {
  }

  /** Squares of non-negative reals are ordered like the reals. */
  lemma SquareMonotone(s: real, a: real)
    requires 0.0 <= s && 0.0 <= a && a * a <= s * s
    ensures a <= s
  {
    assert (a - s) * (a + s) <= 0.0;
    if a + s > 0.0 {
      assert a - s == ((a - s) * (a + s)) / (a + s);
    }
  }

  lemma SqrtDominates(m: Maths, x: real, a: real)
    requires Sound(m) && 0.0 <= a && a * a <= x
    ensures a <= m.sqrt(x)
  {
    SqrtFacts(m, x);
    SquareMonotone(m.sqrt(x), a);
  }

  lemma QuotientInUnitInterval(p: real, q: real)
    requires 0.0 <= p <= q && q > 0.0
    ensures 0.0 <= p / q <= 1.0
  {
  }

  lemma MulNonNeg(a: real, b: real)
    requires 0.0 <= a && 0.0 <= b
    ensures 0.0 <= a * b
  {
  }

  /** The radicand of the GGX shadowing term is at least `cos^2` for a cosine in [-1, 1]. */
  lemma ShadowingRadicand(r: real, c: real)
    requires -1.0 <= c <= 1.0
    ensures c * c <= c * c - r * r * (c * c) + r * r
  {
    assert r * r >= 0.0;
    MulNonNeg(1.0 - c, 1.0 + c);
    MulNonNeg(r * r, (1.0 - c) * (1.0 + c));
    assert c * c - r * r * (c * c) + r * r == c * c + (r * r) * ((1.0 - c) * (1.0 + c));
  }

  /** The GGX shadowing quotient `2|c| / (|c| + sqrt(c^2 - r^2 c^2 + r^2))` lies in
      [0, 1] for a non-zero cosine in [-1, 1]. */
  lemma ShadowingQuotient(m: Maths, r: real, c: real)
    requires Sound(m) && -1.0 <= c <= 1.0 && c != 0.0
    ensures 0.0 <= GgxShadowing1(m, r, c) <= 1.0
  {
    var a := Abs(c);
    assert a * a == c * c;
    ShadowingRadicand(r, c);
    SqrtDominates(m, c * c - r * r * (c * c) + r * r, a);
    QuotientInUnitInterval(2.0 * a, a + m.sqrt(c * c - r * r * (c * c) + r * r));
  }

  /** The Smith shadowing term of one direction lies in [0, 1] for unit vectors. */
  lemma ShadowingInUnitInterval(m: Maths, roughness: real, n: Vec3, h: Vec3, dir: Vec3)
    requires Sound(m) && -1.0 <= Dot(n, dir) <= 1.0
    ensures 0.0 <= MicrofacetShadowing1(m, roughness, n, h, dir) <= 1.0
  {
    var c := Dot(n, dir);
    if c * Dot(h, dir) > 0.0 {
      ProductSign(c, Dot(h, dir));
      ShadowingQuotient(m, roughness, c);
    }
  }

  /** The product of the two shadowing terms lies in [0, 1] as well. */
  lemma ShadowingProductInUnitInterval(m: Maths, roughness: real, n: Vec3, h: Vec3, o: Vec3, i: Vec3)
    requires Sound(m) && -1.0 <= Dot(n, o) <= 1.0 && -1.0 <= Dot(n, i) <= 1.0
    ensures 0.0 <= MicrofacetShadowing(m, roughness, n, h, o, i) <= 1.0
  {
    ShadowingInUnitInterval(m, roughness, n, h, o);
    ShadowingInUnitInterval(m, roughness, n, h, i);
    var so := MicrofacetShadowing1(m, roughness, n, h, o);
    var si := MicrofacetShadowing1(m, roughness, n, h, i);
    MulLeMono(so, si, 1.0);
    MulNonNeg(so, si);
    assert so * si <= so * 1.0;
    assert so * 1.0 == so;
    assert MicrofacetShadowing(m, roughness, n, h, o, i) == so * si;
  }

  /** The delta density is 1 exactly for a perfect mirror seen with both directions
      on the same side, and 0 otherwise. */
  lemma DeltaPdfIsIndicator(mp: MaterialPoint, n: Vec3, o: Vec3, i: Vec3)
    ensures SampleDeltaPdf(mp, n, o, i) == 0.0 || SampleDeltaPdf(mp, n, o, i) == 1.0
    ensures SampleDeltaPdf(mp, n, o, i) == 1.0 <==>
      mp.mType == Reflective && mp.roughness == 0.0 && !OppositeSides(n, o, i)
  {
  }

  /** The mirror direction makes the same angle with the normal as the outgoing
      one, so the delta density accepts the direction the delta sampler returns. */
  lemma MirrorKeepsSide(n: Vec3, o: Vec3)
    requires Dot(n, n) == 1.0
    ensures Dot(n, SampleReflectiveDelta(n, o)) == Dot(n, o)
    ensures Dot(n, o) != 0.0 ==> SampleReflectivePdfDelta(n, o, SampleReflectiveDelta(n, o)) == 1.0
  {
    var d := Dot(n, o);
    var u := UpNormal(n, o);
    var k := Dot(u, Neg3(o)) * 2.0;
    assert Dot(n, SampleReflectiveDelta(n, o)) == -d - Dot(n, u) * k;
    if d <= 0.0 {
      assert Dot(n, u) == -1.0 && k == 2.0 * d;
    } else {
      assert Dot(n, u) == 1.0 && k == -2.0 * d;
    }
    if d != 0.0 {
      assert Dot(n, SampleReflectiveDelta(n, o)) * d > 0.0;
    }
  }

  lemma QuotientAtLeastOne(p: real, q: real)
    requires 0.0 < q <= p
    ensures p / q >= 1.0
  {
  }

  /** `eta` from a reflectivity in [0, 0.99] is at least 1. */
  lemma EtaAtLeastOne(m: Maths, r: real)
    requires Sound(m)
    ensures EtaChannel(m, r) >= 1.0
  {
    SqrtBelowOne(m, Clamp(r, 0.0, 0.99));
    QuotientAtLeastOne(1.0 + m.sqrt(Clamp(r, 0.0, 0.99)), 1.0 - m.sqrt(Clamp(r, 0.0, 0.99)));
  }

  /** `reflectivity_to_eta` inverts the normal-incidence reflectance
      `((eta - 1) / (eta + 1))^2` on [0, 0.99]. */
  lemma EtaRoundTrip(m: Maths, r: real)
    requires Sound(m) && 0.0 <= r <= 0.99
    ensures EtaChannel(m, r) > 0.0
    ensures ((EtaChannel(m, r) - 1.0) * (EtaChannel(m, r) - 1.0))
              / ((EtaChannel(m, r) + 1.0) * (EtaChannel(m, r) + 1.0)) == r
  {
    var s := m.sqrt(r);
    SqrtBelowOne(m, r);
    var e := EtaChannel(m, r);
    DivExact(m, 1.0 + s, 1.0 - s);
    assert e * (1.0 - s) == 1.0 + s;
    assert e >= 1.0;
    assert e - 1.0 == s * (e + 1.0);
    var y := (e + 1.0) * (e + 1.0);
    assert (e - 1.0) * (e - 1.0) == (s * s) * y;
    assert y > 0.0;
  }

  /** Two non-negative reals with the same square are equal. */
  lemma RootUnique(a: real, z: real)
    requires 0.0 <= a && 0.0 <= z && a * a == z * z
    ensures a == z
  {
    assert (a - z) * (a + z) == 0.0;
    if a + z != 0.0 {
      ZeroFactor(a - z, a + z);
    }
  }

  lemma DivSelf(m: Maths, x: real, y: real)
    requires x == y && y != 0.0
    ensures Div(m, x, y) == 1.0
  {
  }

  /** Glass (`ior` 1.5) seen straight on reflects 4%: `((1 - 1.5) / (1 + 1.5))^2`. */
  lemma GlassNormalIncidence(m: Maths, n: Vec3, o: Vec3)
    requires Sound(m) && Abs(Dot(n, o)) == 1.0
    ensures FresnelDielectric(m, 1.5, n, o) == 0.04
  {
    var cos2t := 1.0 - Div(m, 1.0 - Abs(Dot(n, o)) * Abs(Dot(n, o)), 1.5 * 1.5);
    assert cos2t == 1.0 * 1.0;
    SqrtFacts(m, cos2t);
    RootUnique(m.sqrt(cos2t), 1.0);
  }

  /** Straight on (`cos = 1`) with no absorption the first conductor terms are
      `cos2 = 1`, `sin2 = 0` and `a2plusb2 = eta^2`. */
  lemma ConductorNormalIncidenceTerms(m: Maths, e: real)
    requires Sound(m) && e > 0.0
    ensures ConductorPrefix(m, e, 0.0, 1.0).cos2 == 1.0 && ConductorPrefix(m, e, 0.0, 1.0).sin2 == 0.0
    ensures ConductorPrefix(m, e, 0.0, 1.0).a2plusb2 == e * e
  {
    var c := ConductorPrefix(m, e, 0.0, 1.0);
    assert c.sin2 == 0.0;
    var t0 := e * e - (0.0 * 0.0 - c.sin2);
    assert t0 == e * e;
    assert c.a2plusb2 == m.sqrt(t0 * t0 + 4.0 * (e * e * (0.0 * 0.0)));
    assert t0 * t0 + 4.0 * (e * e * (0.0 * 0.0)) == (e * e) * (e * e);
    SqrtFacts(m, t0 * t0 + 4.0 * (e * e * (0.0 * 0.0)));
    RootUnique(c.a2plusb2, e * e);
  }

  /** ... and `t2 = 2 eta`. */
  lemma ConductorNormalIncidenceT2(m: Maths, e: real)
    requires Sound(m) && e > 0.0
    ensures ConductorPrefix(m, e, 0.0, 1.0).t2 == 2.0 * e
  {
    ConductorNormalIncidenceTerms(m, e);
    var c := ConductorPrefix(m, e, 0.0, 1.0);
    var t0 := e * e - (0.0 * 0.0 - c.sin2);
    var a := m.sqrt((c.a2plusb2 + t0) / 2.0);
    assert c.t2 == 2.0 * a * 1.0;
    assert (c.a2plusb2 + t0) / 2.0 == e * e;
    SqrtFacts(m, (c.a2plusb2 + t0) / 2.0);
    RootUnique(a, e);
  }

  /** ... so the s-polarised reflectance is `((eta - 1) / (eta + 1))^2`. */
  lemma ConductorNormalIncidenceRs(m: Maths, e: real)
    requires Sound(m) && e > 0.0
    ensures ConductorPrefix(m, e, 0.0, 1.0).rs == ((e - 1.0) * (e - 1.0)) / ((e + 1.0) * (e + 1.0))
  {
    ConductorNormalIncidenceTerms(m, e);
    ConductorNormalIncidenceT2(m, e);
    var c := ConductorPrefix(m, e, 0.0, 1.0);
    assert c.rs == Div(m, (c.a2plusb2 + c.cos2) - c.t2, (c.a2plusb2 + c.cos2) + c.t2);
    assert (c.a2plusb2 + c.cos2) - c.t2 == (e - 1.0) * (e - 1.0);
    assert (c.a2plusb2 + c.cos2) + c.t2 == (e + 1.0) * (e + 1.0);
    MulPos(e + 1.0, e + 1.0);
  }

  /** At normal incidence on a conductor without absorption (`etak = 0`) the
      corrected Fresnel channel is `((eta - 1) / (eta + 1))^2`: the p-polarised
      ratio is 1 and the channel equals its s-polarised reflectance. */
  lemma ConductorNormalIncidence(m: Maths, e: real)
    requires Sound(m) && e > 0.0
    ensures ConductorChannel(m, e, 0.0, 1.0) == ((e - 1.0) * (e - 1.0)) / ((e + 1.0) * (e + 1.0))
  {
    ConductorNormalIncidenceTerms(m, e);
    ConductorNormalIncidenceT2(m, e);
    ConductorNormalIncidenceRs(m, e);
    var c := ConductorPrefix(m, e, 0.0, 1.0);
    MulPos(e, e);
    DivSelf(m, c.cos2 * c.a2plusb2 + c.sin2 * c.sin2 - c.t2 * c.sin2,
               c.cos2 * c.a2plusb2 + c.sin2 * c.sin2 + c.t2 * c.sin2);
  }

  /** A mirror channel of reflectivity `r` in [0, 0.99] seen straight on reflects `r`:
      `reflectivity_to_eta` and the corrected `fresnel_conductor` are inverse. */
  lemma MirrorChannel(m: Maths, r: real)
    requires Sound(m) && 0.0 <= r <= 0.99
    ensures ConductorChannel(m, EtaChannel(m, r), 0.0, 1.0) == r
  {
    EtaRoundTrip(m, r);
    ChannelOfEta(m, EtaChannel(m, r), r);
  }

  lemma ChannelOfEta(m: Maths, e: real, r: real)
    requires Sound(m) && e > 0.0 && ((e - 1.0) * (e - 1.0)) / ((e + 1.0) * (e + 1.0)) == r
    ensures ConductorChannel(m, e, 0.0, 1.0) == r
  {
    ConductorNormalIncidence(m, e);
  }

  /** A perfect mirror of colour `c` in [0, 0.99]^3 seen straight on reflects `c`:
      the delta path weight `eval_delta / sample_delta_pdf` is its colour. */
  lemma MirrorReflectsItsColor(m: Maths, mp: MaterialPoint, n: Vec3, o: Vec3, i: Vec3)
    requires Sound(m) && Dot(n, o) == 1.0 && Dot(n, i) > 0.0
    requires 0.0 <= mp.color.x <= 0.99 && 0.0 <= mp.color.y <= 0.99 && 0.0 <= mp.color.z <= 0.99
    ensures EvalReflectiveDelta(m, mp, n, o, i) == mp.color
    ensures mp.mType == Reflective && mp.roughness == 0.0 ==>
      EvalDelta(m, mp, n, o, i) == mp.color && SampleDeltaPdf(mp, n, o, i) == 1.0
  {
    MirrorChannel(m, mp.color.x);
    MirrorChannel(m, mp.color.y);
    MirrorChannel(m, mp.color.z);
  }

  /** As written, `fresnel_conductor` divides zero by zero at normal incidence
      (`t3 + t4 == 0` whenever `sin2 == 0`), whatever the material. */
  lemma ConductorAsWrittenZeroOverZero(m: Maths, eta: real, etak: real)
    ensures ConductorChannelAsWritten(m, eta, etak, 1.0)
            == (ConductorPrefix(m, eta, etak, 1.0).rs * m.divByZero(0.0)
                + ConductorPrefix(m, eta, etak, 1.0).rs) / 2.0
  {
    var c := ConductorPrefix(m, eta, etak, 1.0);
    assert c.sin2 == 0.0;
  }

  lemma MulNegPos(a: real, b: real)
    requires a < 0.0 && b > 0.0
    ensures a * b < 0.0
  {
    MulPos(-a, b);
  }

  /** As written, the glossy density is positive for an incoming direction below
      the surface whenever its specular half has weight: nothing excludes the
      other side, while the corrected density is zero there. */
  lemma GlossyPdfAsWrittenBelowSurface(m: Maths, mp: MaterialPoint, n: Vec3, o: Vec3, i: Vec3)
    requires Dot(n, o) > 0.0 && Dot(n, i) < 0.0
    requires FresnelDielectric(m, mp.ior, n, o) > 0.0
    requires SampleMicrofacetPdf(m, mp.roughness, n, m.normalize(Add3(o, i))) > 0.0
    requires Dot(o, m.normalize(Add3(o, i))) != 0.0
    ensures OppositeSides(n, o, i)
    ensures SampleGlossyPdfAsWritten(m, mp, n, o, i) > 0.0
    ensures SampleGlossyPdf(m, mp, n, o, i) == 0.0
  {
    var h := m.normalize(Add3(o, i));
    var f := FresnelDielectric(m, mp.ior, n, o);
    var d := SampleMicrofacetPdf(m, mp.roughness, n, h);
    MulPos(f, d);
    DivPos(f * d, 4.0 * Abs(Dot(o, h)));
    MulNegPos(Dot(n, i), Dot(n, o));
  }

  /** `normalize` of a vector of known length. */
  lemma NormalizeOf(m: Maths, v: Vec3, len: real)
    requires Sound(m) && len > 0.0 && Dot(v, v) == len * len
    ensures m.normalize(v) == Scale3(v, 1.0 / len)
  {
    SqrtFacts(m, Dot(v, v));
    RootUnique(m.sqrt(Dot(v, v)), len);
  }

  /** The half vector of `o = (0, 0, 1)` and `i = (0.96, 0, -0.28)` is `(0.8, 0, 0.6)`. */
  lemma GlossyHalfVector(m: Maths)
    requires Sound(m)
    ensures m.normalize(Add3(Vec3(0.0, 0.0, 1.0), Vec3(0.96, 0.0, -0.28))) == Vec3(0.8, 0.0, 0.6)
  {
    NormalizeOf(m, Vec3(0.96, 0.0, 0.72), 1.2);
  }

  /** The GGX density of the half vector `(0.8, 0, 0.6)` at roughness 0.5 is positive. */
  lemma HalfVectorDensity(m: Maths)
    ensures SampleMicrofacetPdf(m, 0.5, Vec3(0.0, 0.0, 1.0), Vec3(0.8, 0.0, 0.6)) > 0.0
  {
  }

  lemma GlossyExampleDensity(m: Maths)
    requires Sound(m)
    ensures SampleMicrofacetPdf(m, 0.5, Vec3(0.0, 0.0, 1.0),
                                m.normalize(Add3(Vec3(0.0, 0.0, 1.0), Vec3(0.96, 0.0, -0.28)))) > 0.0
  {
    GlossyHalfVector(m);
    HalfVectorDensity(m);
  }

  /** Looking straight down on glass-like gloss (ior 1.5, roughness 0.5), the
      direction `(0.96, 0, -0.28)` below the surface has a positive glossy density
      as written, and none once corrected. */
  lemma GlossyBelowSurfaceExample(m: Maths, mp: MaterialPoint)
    requires Sound(m) && mp.ior == 1.5 && mp.roughness == 0.5
    ensures SampleGlossyPdfAsWritten(m, mp, Vec3(0.0, 0.0, 1.0), Vec3(0.0, 0.0, 1.0), Vec3(0.96, 0.0, -0.28)) > 0.0
    ensures SampleGlossyPdf(m, mp, Vec3(0.0, 0.0, 1.0), Vec3(0.0, 0.0, 1.0), Vec3(0.96, 0.0, -0.28)) == 0.0
  {
    GlassNormalIncidence(m, Vec3(0.0, 0.0, 1.0), Vec3(0.0, 0.0, 1.0));
    GlossyHalfVector(m);
    GlossyExampleDensity(m);
    GlossyPdfAsWrittenBelowSurface(m, mp, Vec3(0.0, 0.0, 1.0), Vec3(0.0, 0.0, 1.0), Vec3(0.96, 0.0, -0.28));
  }
}
