/**
 * Capacity check of a welded connection, either a fillet weld or a complete-penetration
 * groove weld, under a direct force and a bending moment. Lengths are in mm, strengths
 * and stresses in MPa, forces in kN, moments in kN·m.
 */
module Welded {
  import opened Outcomes
  import opened Transcendental
  import opened Catalog
  import opened Verdicts

  /** Resistance factor of a fillet weld. */
  const PhiWeld: real := 0.75
  /** Resistance factor of the base metal, which a complete-penetration weld matches. */
  const PhiBase: real := 0.9
  /** Effective throat of a 45° fillet as a fraction of its leg size. */
  const ThroatRatio: real := 0.707
  /** Nominal fillet weld strength Fnw as a fraction of the electrode strength FEXX. */
  const FilletStrengthRatio: real := 0.60
  /** Coefficient on the cosine term of the load-angle factor. */
  const CosineWeight: real := 0.5

  datatype WeldType = Fillet | CompletePenetration

  datatype WeldedInput = WeldedInput(
    steelGrade: string,
    weldType: WeldType,
    electrode: string,
    weldSize: real,
    weldLength: real,
    plateThickness: real,
    angle: int,
    force: real,
    moment: real)
  {
    /** The ranges the input form admits; the load angle is whole degrees from 0 to 90. */
    predicate WithinFormLimits(): (ok: bool)
      ensures ok ==> 0.0 < Mul(Throat(weldSize), weldLength) && 0.0 < Mul(plateThickness, weldLength)
    {
      && 3.0 <= weldSize
      && 50.0 <= weldLength
      && 5.0 <= plateThickness
      && 0 <= angle <= 90
      && 0.0 <= force
      && 0.0 <= moment
    }
  }

  /** The strength side of the calculation; the throat is reported for a fillet weld only. */
  datatype WeldStrength = WeldStrength(
    throat: Option<real>,
    effectiveArea: real,
    baseCapacity: real,
    adjustedCapacity: real)

  /** Everything the calculator reports. The section modulus is reported only when a moment
      is applied; the three checks (force first, moment second, then the two combined) are
      always reported. */
  datatype WeldedResult = WeldedResult(
    strength: WeldStrength,
    sectionModulus: Option<real>,
    checks: Assessment)

  function Throat(weldSize: real): (t: real)
    ensures 0.0 < weldSize ==> 0.0 < t < weldSize
  {
    ThroatRatio * weldSize
  }

  /** Nominal strength Fnw of fillet weld metal. */
  function FilletStrength(fexx: real): (fnw: real)
    ensures 0.0 < fexx ==> 0.0 < fnw < fexx
  {
    FilletStrengthRatio * fexx
  }

  /** Area that carries the force: the fillet's throat, or the plate's full thickness, along the weld. */
  function EffectiveArea(input: WeldedInput): (a: real)
    requires input.WithinFormLimits()
    ensures 0.0 < a
  {
    match input.weldType
    case Fillet => Mul(Throat(input.weldSize), input.weldLength)
    case CompletePenetration => Mul(input.plateThickness, input.weldLength)
  }

  /** Design capacity of the weld before any angle adjustment, kN. */
  function BaseCapacity(input: WeldedInput, fy: real, fexx: real): (c: real)
    requires input.WithinFormLimits() && 0.0 < fy && 0.0 < fexx
    ensures 0.0 < c
  {
    match input.weldType
    case Fillet => Mul(PhiWeld * FilletStrength(fexx), EffectiveArea(input)) / 1000.0
    case CompletePenetration => Mul(PhiBase * fy, EffectiveArea(input)) / 1000.0
  }

  /** The load-angle factor `sqrt(sin(a)**2 + (0.5 * cos(a))**2)` for an angle in degrees. */
  function AngleFactor(m: MathLib, angle: int): (af: real)
    requires Valid(m)
    ensures 0.5 <= af <= 1.0
    ensures Sq(af) == Sq(m.sin(Radians(m, angle as real))) + 0.25 * Sq(m.cos(Radians(m, angle as real)))
    ensures angle == 0 ==> af == 0.5
  {
    var theta := Radians(m, angle as real);
    AngleFactorRange(m, theta);
    m.sqrt(Sq(m.sin(theta)) + Sq(CosineWeight * m.cos(theta)))
  }

  /** The square of the angle factor is `1 - 0.75 * cos**2`, so it lies between 1/4 and 1,
      and the factor between 1/2 (at 0°) and 1. */
  lemma AngleFactorRange(m: MathLib, theta: real)
    requires Valid(m)
    ensures 0.25 <= Sq(m.sin(theta)) + Sq(CosineWeight * m.cos(theta)) <= 1.0
    ensures 0.5 <= m.sqrt(Sq(m.sin(theta)) + Sq(CosineWeight * m.cos(theta))) <= 1.0
    ensures theta == 0.0 ==> m.sqrt(Sq(m.sin(theta)) + Sq(CosineWeight * m.cos(theta))) == 0.5
  {
    var s, c := m.sin(theta), m.cos(theta);
    var v := Sq(s) + Sq(CosineWeight * c);
    var cc := c * c;
    assert Sq(CosineWeight * c) == 0.25 * cc;
    assert Sq(s) + cc == 1.0;
    assert 0.25 <= v <= 1.0;
    SqrtOfSquare(m, 0.5);
    SqrtOfSquare(m, 1.0);
    SqrtMonotone(m, Sq(0.5), v);
    SqrtMonotone(m, v, Sq(1.0));
  }

  /** Dividing a non-negative capacity by a factor between 1/2 and 1 at most doubles it
      and never lowers it. */
  lemma DivideByAngleFactor(base: real, af: real)
    requires 0.0 <= base && 0.5 <= af <= 1.0
    ensures base <= base / af <= 2.0 * base
  {
    var q := base / af;
    assert q * af == base;
    MulMonotone(q, 0.5, af);
    MulMonotone(q, af, 1.0);
  }

  /** The capacity after the load-angle adjustment. */
  function AdjustedCapacity(m: MathLib, input: WeldedInput, base: real): (c: real)
    requires Valid(m) && 0.0 <= base
    ensures input.weldType == CompletePenetration ==> c == base
    ensures input.weldType == Fillet ==> c * AngleFactor(m, input.angle) == base
    ensures input.weldType == Fillet ==> base <= c <= 2.0 * base
    ensures input.weldType == Fillet && input.angle == 0 ==> c == 2.0 * base
  {
    match input.weldType
    case Fillet =>
      var af := AngleFactor(m, input.angle);
      DivideByAngleFactor(base, af);
      if af > 0.0 then base / af else base
    case CompletePenetration => base
  }

  /** Elastic section modulus of the weld line for bending, mm³. */
  function SectionModulus(input: WeldedInput): (s: real)
    requires input.WithinFormLimits()
    ensures 0.0 < s
  {
    match input.weldType
    case Fillet => Mul(Throat(input.weldSize), Sq(input.weldLength)) / 6.0
    case CompletePenetration => Mul(input.plateThickness, Sq(input.weldLength)) / 6.0
  }

  /** The stress a bending moment may reach, MPa. */
  function AllowableStress(input: WeldedInput, fy: real, fexx: real): (f: real)
    requires 0.0 < fy && 0.0 < fexx
    ensures 0.0 < f
  {
    match input.weldType
    case Fillet => PhiWeld * FilletStrength(fexx)
    case CompletePenetration => PhiBase * fy
  }

  /** Bending stress from a moment in kN·m on a section modulus in mm³, MPa. */
  function MomentStress(moment: real, sectionModulus: real): (f: real)
    requires 0.0 < sectionModulus
    ensures f * sectionModulus == moment * 1000.0
    ensures 0.0 <= moment ==> 0.0 <= f
  {
    moment * 1000.0 / sectionModulus
  }

  /** Utilization under the moment; no moment means no division and a ratio of exactly 0. */
  function MomentUtilization(moment: real, sectionModulus: real, allowable: real): (u: real)
    requires 0.0 < sectionModulus && 0.0 < allowable
    ensures moment <= 0.0 ==> u == 0.0
    ensures 0.0 < moment ==> u * allowable == MomentStress(moment, sectionModulus) && 0.0 <= u
  {
    if moment > 0.0 then Ratio(MomentStress(moment, sectionModulus), allowable) else 0.0
  }

  /** Throat, effective area, base capacity and its adjustment for the load angle. */
  function Strength(m: MathLib, input: WeldedInput, fy: real, fexx: real): (w: WeldStrength)
    requires Valid(m) && input.WithinFormLimits() && 0.0 < fy && 0.0 < fexx
    ensures w.throat.Some? <==> input.weldType == Fillet
    ensures input.weldType == Fillet ==> w.throat == Some(Throat(input.weldSize))
    ensures w.effectiveArea == EffectiveArea(input) && w.baseCapacity == BaseCapacity(input, fy, fexx)
    ensures 0.0 < w.effectiveArea && 0.0 < w.baseCapacity
    ensures w.adjustedCapacity == AdjustedCapacity(m, input, w.baseCapacity)
    ensures input.weldType == CompletePenetration ==>
              w.adjustedCapacity == w.baseCapacity == PhiBase * fy * input.plateThickness * input.weldLength / 1000.0
    ensures input.weldType == Fillet ==> w.baseCapacity <= w.adjustedCapacity <= 2.0 * w.baseCapacity
    ensures input.weldType == Fillet && input.angle == 0 ==> w.adjustedCapacity == 2.0 * w.baseCapacity
  {
    var base := BaseCapacity(input, fy, fexx);
    WeldStrength(
      if input.weldType == Fillet then Some(Throat(input.weldSize)) else None,
      EffectiveArea(input), base, AdjustedCapacity(m, input, base))
  }

  /** The whole calculation once Fy and FEXX are known. */
  function Analyze(m: MathLib, input: WeldedInput, fy: real, fexx: real): (r: WeldedResult)
    requires Valid(m) && input.WithinFormLimits() && 0.0 < fy && 0.0 < fexx
    ensures r.strength == Strength(m, input, fy, fexx)
    ensures r.sectionModulus.Some? <==> 0.0 < input.moment
    ensures r.checks == Assess(m, r.checks.first.ratio, r.checks.second.ratio)
    ensures r.checks.first.ratio == Ratio(input.force, r.strength.adjustedCapacity) && 0.0 <= r.checks.first.ratio
    ensures 0.0 <= r.checks.second.ratio
    ensures input.moment == 0.0 ==> r.checks.second.ratio == 0.0
    ensures 0.0 < input.moment ==>
              && r.sectionModulus == Some(SectionModulus(input))
              && r.checks.second.ratio == Ratio(MomentStress(input.moment, SectionModulus(input)), AllowableStress(input, fy, fexx))
  {
    var strength := Strength(m, input, fy, fexx);
    var modulus := SectionModulus(input);
    var forceRatio := Ratio(input.force, strength.adjustedCapacity);
    var momentRatio := MomentUtilization(input.moment, modulus, AllowableStress(input, fy, fexx));
    WeldedResult(strength, if input.moment > 0.0 then Some(modulus) else None, Assess(m, forceRatio, momentRatio))
  }

  /** The calculator: Fy from the steel grade, FEXX from the electrode (looked up whatever
      the weld type), then the calculation. */
  function EvaluateWelded(m: MathLib, input: WeldedInput): (r: Result<WeldedResult, Error>)
    requires Valid(m) && input.WithinFormLimits()
    ensures r.Success? <==> SteelGrade(input.steelGrade).Some? && Electrode(input.electrode).Some?
    ensures SteelGrade(input.steelGrade).None? ==> r == Failure(UnknownGrade(input.steelGrade))
    ensures SteelGrade(input.steelGrade).Some? && Electrode(input.electrode).None? ==>
              r == Failure(UnknownGrade(input.electrode))
    ensures r.Success? ==> r.value == Analyze(m, input, SteelGrade(input.steelGrade).value.fy, Electrode(input.electrode).value)
  {
    match SteelGrade(input.steelGrade)
    case None => Failure(UnknownGrade(input.steelGrade))
    case Some(steel) =>
      match Electrode(input.electrode)
      case None => Failure(UnknownGrade(input.electrode))
      case Some(fexx) => Success(Analyze(m, input, steel.fy, fexx))
  }

  /** The force check compares the force with the adjusted capacity, the moment check the
      moment stress with the allowable stress, and the total check passes only when both do. */
  lemma ChecksAgainstCapacity(m: MathLib, input: WeldedInput, fy: real, fexx: real)
    requires Valid(m) && input.WithinFormLimits() && 0.0 < fy && 0.0 < fexx
    ensures var r := Analyze(m, input, fy, fexx);
      && (r.checks.first.passed <==> input.force <= r.strength.adjustedCapacity)
      && (0.0 < input.moment ==>
            (r.checks.second.passed <==>
               MomentStress(input.moment, r.sectionModulus.value) <= AllowableStress(input, fy, fexx)))
      && (r.checks.combined.passed ==> r.checks.first.passed && r.checks.second.passed)
  {
    var r := Analyze(m, input, fy, fexx);
    WithinCapacity(input.force, r.strength.adjustedCapacity);
    if 0.0 < input.moment {
      WithinCapacity(MomentStress(input.moment, SectionModulus(input)), AllowableStress(input, fy, fexx));
    }
  }

  /** A larger force never lowers the force ratio or the total ratio. */
  lemma ForceRatioMonotone(m: MathLib, input: WeldedInput, force: real)
    requires Valid(m) && input.WithinFormLimits() && input.force <= force
    requires SteelGrade(input.steelGrade).Some? && Electrode(input.electrode).Some?
    ensures EvaluateWelded(m, input.(force := force)).Success?
    ensures EvaluateWelded(m, input).value.checks.first.ratio <= EvaluateWelded(m, input.(force := force)).value.checks.first.ratio
    ensures EvaluateWelded(m, input).value.checks.combined.ratio <= EvaluateWelded(m, input.(force := force)).value.checks.combined.ratio
  {
    var bigger := input.(force := force);
    var r1, r2 := EvaluateWelded(m, input).value, EvaluateWelded(m, bigger).value;
    assert r1.strength.adjustedCapacity == r2.strength.adjustedCapacity && r1.checks.second == r2.checks.second;
    RatioMonotone(input.force, force, r1.strength.adjustedCapacity);
    SquareOrder(r1.checks.first.ratio, r2.checks.first.ratio);
    SqrtMonotone(m, Sq(r1.checks.first.ratio) + Sq(r1.checks.second.ratio), Sq(r2.checks.first.ratio) + Sq(r2.checks.second.ratio));
  }

  /** A larger moment never lowers the moment ratio or the total ratio. */
  lemma MomentRatioMonotone(m: MathLib, input: WeldedInput, fy: real, fexx: real, moment: real)
    requires Valid(m) && input.WithinFormLimits() && 0.0 < fy && 0.0 < fexx && input.moment <= moment
    ensures input.(moment := moment).WithinFormLimits()
    ensures Analyze(m, input, fy, fexx).checks.second.ratio <= Analyze(m, input.(moment := moment), fy, fexx).checks.second.ratio
    ensures Analyze(m, input, fy, fexx).checks.combined.ratio <= Analyze(m, input.(moment := moment), fy, fexx).checks.combined.ratio
  {
    var bigger := input.(moment := moment);
    var r1, r2 := Analyze(m, input, fy, fexx), Analyze(m, bigger, fy, fexx);
    if 0.0 < input.moment {
      var s, allowable := SectionModulus(input), AllowableStress(input, fy, fexx);
      assert SectionModulus(bigger) == s && AllowableStress(bigger, fy, fexx) == allowable;
      RatioMonotone(input.moment * 1000.0, moment * 1000.0, s);
      RatioMonotone(MomentStress(input.moment, s), MomentStress(moment, s), allowable);
    }
    assert r1.checks.first == r2.checks.first;
    SquareOrder(r1.checks.second.ratio, r2.checks.second.ratio);
    SqrtMonotone(m, Sq(r1.checks.first.ratio) + Sq(r1.checks.second.ratio), Sq(r2.checks.first.ratio) + Sq(r2.checks.second.ratio));
  }

  /** A 6 mm E70XX fillet weld 200 mm long on A36 plate, loaded at 0° with 100 kN and no moment. */
  const ExampleFillet: WeldedInput :=
    WeldedInput("A36", Fillet, "E70XX (485 MPa)", 6.0, 200.0, 12.0, 0, 100.0, 0.0)

  /** The throat is 4.242 mm, the effective area 848.4 mm², the base capacity
      0.75 * 291 * 848.4 / 1000 kN; at 0° the angle factor is 0.5, which doubles it,
      and the force check passes with no moment contribution. */
  lemma ExampleFilletDoubled(m: MathLib)
    requires Valid(m)
    ensures ExampleFillet.WithinFormLimits()
    ensures EvaluateWelded(m, ExampleFillet).Success?
    ensures var r := EvaluateWelded(m, ExampleFillet).value;
      && r.strength.throat == Some(4.242)
      && r.strength.effectiveArea == 848.4
      && r.strength.baseCapacity == 185.1633
      && r.strength.adjustedCapacity == 370.3266
      && r.checks.first.ratio == 100.0 / 370.3266 && r.checks.first.passed
      && r.checks.second.ratio == 0.0 && r.checks.combined.ratio == r.checks.first.ratio
  {
    assert EffectiveArea(ExampleFillet) == 848.4;
    assert BaseCapacity(ExampleFillet, 250.0, 485.0) == 185.1633;
  }
}
