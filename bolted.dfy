/**
 * Capacity check of a bolted plate connection loaded in tension and shear.
 * Lengths are in mm, strengths in MPa, forces in kN: a strength times an area
 * gives N, divided by 1000 to give kN.
 */
module Bolted {
  import opened Outcomes
  import opened Transcendental
  import opened Catalog
  import opened Verdicts

  /** Resistance factor of a bolt, in tension and in shear. */
  const PhiBolt: real := 0.75
  /** Resistance factor of the plate's net section in tension. */
  const PhiRupture: real := 0.75
  /** Resistance factor of gross-section yielding. */
  const PhiYield: real := 0.9
  /** Shear yield strength as a fraction of the tensile yield strength. */
  const ShearYieldFraction: real := 0.6
  /** Standard oversize of a bolt hole over the bolt diameter, mm. */
  const HoleClearance: int := 2
  /** The bolt diameters the form offers, mm. */
  const BoltDiameters: set<int> := {12, 16, 20, 24, 27, 30}

  datatype BoltedInput = BoltedInput(
    steelGrade: string,
    plateThickness: real,
    plateWidth: real,
    boltDiameter: int,
    boltGrade: string,
    numBolts: int,
    tensionLoad: real,
    shearLoad: real)
  {
    /** The ranges the input form admits. */
    predicate WithinFormLimits(): (ok: bool)
      ensures ok ==> 0.0 < GrossArea(plateThickness, plateWidth) && Net() < GrossArea(plateThickness, plateWidth)
      ensures ok ==> 14 <= HoleDiameter(boltDiameter) <= 32
    {
      && 5.0 <= plateThickness
      && 50.0 <= plateWidth
      && boltDiameter in BoltDiameters
      && 1 <= numBolts
      && 0.0 <= tensionLoad
      && 0.0 <= shearLoad
    }

    /** The plate's net area for this input, as `NetArea` computes it. */
    function Net(): real {
      NetArea(plateThickness, plateWidth, numBolts, boltDiameter)
    }
  }

  /** The capacities and areas the calculator reports (kN, mm²). */
  datatype BoltedCapacities = BoltedCapacities(
    boltArea: real,
    tensionPerBolt: real,
    shearPerBolt: real,
    totalTension: real,
    totalShear: real,
    netArea: real,
    plateTension: real,
    grossArea: real,
    plateShear: real,
    governingTension: real,
    governingShear: real)

  /** Everything the calculator reports: the capacities and its three checks, tension
      first, shear second, then the two combined. */
  datatype BoltedResult = BoltedResult(capacities: BoltedCapacities, checks: Assessment)

  /** Cross-sectional area of a bolt, pi * (d/2)**2. */
  function BoltArea(pi: real, diameter: real): (ab: real)
    requires 0.0 < pi
    ensures 0.0 < diameter ==> 0.0 < ab
    ensures 0.0 <= ab
  {
    pi * Sq(diameter / 2.0)
  }

  /** A larger bolt never has a smaller area. */
  lemma BoltAreaMonotone(pi: real, d1: real, d2: real)
    requires 0.0 < pi && 0.0 <= d1 <= d2
    ensures BoltArea(pi, d1) <= BoltArea(pi, d2)
  {
    var h1, h2 := d1 / 2.0, d2 / 2.0;
    SquareOrder(h1, h2);
    var s1, s2 := Sq(h1), Sq(h2);
    MulMonotone(pi, s1, s2);
    assert BoltArea(pi, d1) == Mul(pi, s1) && BoltArea(pi, d2) == Mul(pi, s2);
  }

  /** Design strength of one bolt, kN: phi * F * Ab, for F the tensile or the shear strength. */
  function BoltStrength(nominal: real, ab: real): (p: real)
    ensures 0.0 < nominal && 0.0 < ab ==> 0.0 < p
    ensures 0.0 <= nominal && 0.0 <= ab ==> 0.0 <= p
  {
    PhiBolt * nominal * ab / 1000.0
  }

  /** Capacity of the bolt group: every bolt carries its own design strength. */
  function GroupCapacity(numBolts: int, perBolt: real): (c: real)
    ensures 1 <= numBolts && 0.0 <= perBolt ==> perBolt <= c
  {
    numBolts as real * perBolt
  }

  /** More bolts or larger bolts never lower the group capacity. */
  lemma GroupCapacityMonotone(nominal: real, n1: int, n2: int, ab1: real, ab2: real)
    requires 0.0 <= nominal && 0 <= n1 <= n2 && 0.0 <= ab1 <= ab2
    ensures GroupCapacity(n1, BoltStrength(nominal, ab1)) <= GroupCapacity(n2, BoltStrength(nominal, ab2))
  {
    var k := PhiBolt * nominal / 1000.0;
    var p1, p2 := BoltStrength(nominal, ab1), BoltStrength(nominal, ab2);
    assert p1 == Mul(k, ab1) && p2 == Mul(k, ab2);
    MulMonotone(k, ab1, ab2);
    var x1, x2 := n1 as real, n2 as real;
    MulMonotone(x1, p1, p2);
    assert Mul(x1, p2) <= Mul(x2, p2) by {
      MulMonotone(p2, x1, x2);
      assert Mul(p2, x1) == Mul(x1, p2) && Mul(p2, x2) == Mul(x2, p2);
    }
    assert GroupCapacity(n1, p1) == Mul(x1, p1) && GroupCapacity(n2, p2) == Mul(x2, p2);
  }

  /** Diameter of a bolt hole: 2 mm over the bolt's. */
  function HoleDiameter(diameter: int): (h: int)
    ensures diameter < h && h - diameter == 2
  {
    diameter + HoleClearance
  }

  function GrossArea(thickness: real, width: real): (a: real)
    ensures 0.0 < thickness && 0.0 < width ==> 0.0 < a
  {
    thickness * width
  }

  /** Net area of the plate: every bolt hole is taken out of the width. Nothing keeps it positive. */
  function NetArea(thickness: real, width: real, numBolts: int, diameter: int): (a: real)
    ensures 0.0 < thickness && 1 <= numBolts && 0 <= diameter ==> a < GrossArea(thickness, width)
  {
    var holes := numBolts as real * HoleDiameter(diameter) as real;
    assert 0.0 < thickness && 1 <= numBolts && 0 <= diameter ==> 0.0 < thickness * holes;
    thickness * (width - holes)
  }

  /** Each further bolt hole strictly lowers the net area. */
  lemma NetAreaDecreasing(thickness: real, width: real, n1: int, n2: int, diameter: int)
    requires 0.0 < thickness && n1 < n2 && 0 <= diameter
    ensures NetArea(thickness, width, n2, diameter) < NetArea(thickness, width, n1, diameter)
  {
    var h := HoleDiameter(diameter) as real;
    var x1, x2 := n1 as real, n2 as real;
    assert x1 * h < x2 * h;
    var w1, w2 := width - x1 * h, width - x2 * h;
    assert thickness * w2 < thickness * w1;
  }

  /** Tension capacity of the net section, kN; its sign is that of the net area. */
  function PlateTensionCapacity(fu: real, netArea: real): (c: real)
    requires 0.0 < fu
    ensures 0.0 < c <==> 0.0 < netArea
    ensures c == 0.0 <==> netArea == 0.0
  {
    PhiRupture * fu * netArea / 1000.0
  }

  /** Shear yielding capacity of the gross section, kN. */
  function PlateShearCapacity(fy: real, grossArea: real): (c: real)
    ensures 0.0 < fy && 0.0 < grossArea ==> 0.0 < c
  {
    ShearYieldFraction * PhiYield * fy * grossArea / 1000.0
  }

  /** The capacity that governs: the smaller of the bolt group's and the plate's. */
  function Governing(boltCapacity: real, plateCapacity: real): (c: real)
    ensures c <= boltCapacity && c <= plateCapacity
    ensures c == boltCapacity || c == plateCapacity
  {
    if plateCapacity < boltCapacity then plateCapacity else boltCapacity
  }

  /** The capacities once the materials are known, in the order the calculator forms them. */
  function Capacities(m: MathLib, input: BoltedInput, steel: Steel, bolt: BoltMaterial): (c: BoltedCapacities)
    requires Valid(m) && input.WithinFormLimits()
    requires 0.0 < steel.fy && 0.0 < steel.fu && 0.0 < bolt.fnt && 0.0 < bolt.fnv
    ensures c.boltArea == BoltArea(m.pi, input.boltDiameter as real)
    ensures c.tensionPerBolt == BoltStrength(bolt.fnt, c.boltArea) && c.shearPerBolt == BoltStrength(bolt.fnv, c.boltArea)
    ensures c.grossArea == GrossArea(input.plateThickness, input.plateWidth)
    ensures c.plateTension == PlateTensionCapacity(steel.fu, c.netArea) && c.plateShear == PlateShearCapacity(steel.fy, c.grossArea)
    ensures c.netArea == input.Net() && c.netArea < c.grossArea
    ensures c.totalTension == input.numBolts as real * c.tensionPerBolt
    ensures c.totalShear == input.numBolts as real * c.shearPerBolt
    ensures 0.0 < c.tensionPerBolt <= c.totalTension && 0.0 < c.shearPerBolt <= c.totalShear
    ensures c.governingTension <= c.totalTension && c.governingTension <= c.plateTension
    ensures c.governingTension == c.totalTension || c.governingTension == c.plateTension
    ensures c.governingShear <= c.totalShear && c.governingShear <= c.plateShear
    ensures c.governingShear == c.totalShear || c.governingShear == c.plateShear
    ensures 0.0 < c.governingShear
    ensures 0.0 < c.governingTension <==> 0.0 < c.netArea
    ensures c.governingTension == 0.0 <==> c.netArea == 0.0
  {
    var ab := BoltArea(m.pi, input.boltDiameter as real);
    var pnt := BoltStrength(bolt.fnt, ab);
    var pnv := BoltStrength(bolt.fnv, ab);
    var totalTension := GroupCapacity(input.numBolts, pnt);
    var totalShear := GroupCapacity(input.numBolts, pnv);
    var net := input.Net();
    var plateTension := PlateTensionCapacity(steel.fu, net);
    var gross := GrossArea(input.plateThickness, input.plateWidth);
    var plateShear := PlateShearCapacity(steel.fy, gross);
    BoltedCapacities(
      ab, pnt, pnv, totalTension, totalShear, net, plateTension, gross, plateShear,
      Governing(totalTension, plateTension), Governing(totalShear, plateShear))
  }

  /** The whole calculation once the materials are known, exactly as the calculator performs
      it: no guard on the sign of the net area, only on its being zero (a division by zero). */
  function Analyze(m: MathLib, input: BoltedInput, steel: Steel, bolt: BoltMaterial): (r: BoltedResult)
    requires Valid(m) && input.WithinFormLimits()
    requires 0.0 < steel.fy && 0.0 < steel.fu && 0.0 < bolt.fnt && 0.0 < bolt.fnv
    requires input.Net() != 0.0
    ensures r.capacities == Capacities(m, input, steel, bolt)
    ensures r.checks == Assess(m, r.checks.first.ratio, r.checks.second.ratio)
    ensures r.checks.first.ratio == Ratio(input.tensionLoad, r.capacities.governingTension)
    ensures r.checks.second.ratio == Ratio(input.shearLoad, r.capacities.governingShear)
    ensures 0.0 <= r.checks.second.ratio
    ensures 0.0 < input.Net() ==> 0.0 <= r.checks.first.ratio
  {
    var c := Capacities(m, input, steel, bolt);
    var tension := Ratio(input.tensionLoad, c.governingTension);
    var shear := Ratio(input.shearLoad, c.governingShear);
    BoltedResult(c, Assess(m, tension, shear))
  }

  /** More bolts, or a larger bolt from the list, never lower the bolt group's tension or
      shear capacity as the calculator reports it. */
  lemma GroupCapacitiesGrow(m: MathLib, input: BoltedInput, steel: Steel, bolt: BoltMaterial, numBolts: int, diameter: int)
    requires Valid(m) && input.WithinFormLimits()
    requires 0.0 < steel.fy && 0.0 < steel.fu && 0.0 < bolt.fnt && 0.0 < bolt.fnv
    requires input.numBolts <= numBolts && input.boltDiameter <= diameter && diameter in BoltDiameters
    ensures input.(numBolts := numBolts, boltDiameter := diameter).WithinFormLimits()
    ensures var c1, c2 := Capacities(m, input, steel, bolt), Capacities(m, input.(numBolts := numBolts, boltDiameter := diameter), steel, bolt);
      c1.totalTension <= c2.totalTension && c1.totalShear <= c2.totalShear
  {
    var ab1, ab2 := BoltArea(m.pi, input.boltDiameter as real), BoltArea(m.pi, diameter as real);
    BoltAreaMonotone(m.pi, input.boltDiameter as real, diameter as real);
    GroupCapacityMonotone(bolt.fnt, input.numBolts, numBolts, ab1, ab2);
    GroupCapacityMonotone(bolt.fnv, input.numBolts, numBolts, ab1, ab2);
  }

  /** The steel and bolt grades named by the input, steel first. */
  function LookupMaterials(input: BoltedInput): (r: Result<(Steel, BoltMaterial), Error>)
    ensures r.Success? <==> SteelGrade(input.steelGrade).Some? && BoltGrade(input.boltGrade).Some?
    ensures SteelGrade(input.steelGrade).None? ==> r == Failure(UnknownGrade(input.steelGrade))
    ensures SteelGrade(input.steelGrade).Some? && BoltGrade(input.boltGrade).None? ==>
              r == Failure(UnknownGrade(input.boltGrade))
    ensures r.Success? ==> r.value == (SteelGrade(input.steelGrade).value, BoltGrade(input.boltGrade).value)
    ensures r.Success? ==> 0.0 < r.value.0.fy < r.value.0.fu && 0.0 < r.value.1.fnv < r.value.1.fnt
  {
    match SteelGrade(input.steelGrade)
    case None => Failure(UnknownGrade(input.steelGrade))
    case Some(steel) =>
      match BoltGrade(input.boltGrade)
      case None => Failure(UnknownGrade(input.boltGrade))
      case Some(bolt) => Success((steel, bolt))
  }

  /** The calculator as written. A zero net area would divide by zero, so it is excluded;
      a negative one is not, and goes through to the checks. */
  function EvaluateBoltedAsWritten(m: MathLib, input: BoltedInput): (r: Result<BoltedResult, Error>)
    requires Valid(m) && input.WithinFormLimits() && input.Net() != 0.0
    ensures r.Success? <==> LookupMaterials(input).Success?
    ensures r.Failure? ==> r.error.UnknownGrade?
    ensures r.Success? ==> r.value == Analyze(m, input, LookupMaterials(input).value.0, LookupMaterials(input).value.1)
    ensures r.Success? ==> r.value.capacities.netArea == input.Net()
  {
    match LookupMaterials(input)
    case Failure(e) => Failure(e)
    case Success(materials) => Success(Analyze(m, input, materials.0, materials.1))
  }

  /** The calculator with the net section guarded: a plate with no positive net area
      is rejected before any ratio is formed; otherwise the result is the calculator's own. */
  function EvaluateBolted(m: MathLib, input: BoltedInput): (r: Result<BoltedResult, Error>)
    requires Valid(m) && input.WithinFormLimits()
    ensures r.Success? <==> LookupMaterials(input).Success? && 0.0 < input.Net()
    ensures LookupMaterials(input).Success? && input.Net() <= 0.0 ==> r == Failure(InvalidGeometry)
    ensures 0.0 < input.Net() ==> r == EvaluateBoltedAsWritten(m, input)
    ensures r.Success? ==> 0.0 < r.value.capacities.governingTension && 0.0 < r.value.capacities.governingShear
    ensures r.Success? ==> 0.0 <= r.value.checks.first.ratio && 0.0 <= r.value.checks.second.ratio
  {
    match LookupMaterials(input)
    case Failure(e) => Failure(e)
    case Success(materials) =>
      if input.Net() <= 0.0 then Failure(InvalidGeometry)
      else Success(Analyze(m, input, materials.0, materials.1))
  }

  /** Each check compares the load with the governing capacity, and the combined check
      is the strictest: it passes only when both others do. */
  lemma ChecksAgainstCapacities(m: MathLib, input: BoltedInput)
    requires Valid(m) && input.WithinFormLimits()
    requires LookupMaterials(input).Success? && 0.0 < input.Net()
    ensures var r := EvaluateBolted(m, input).value;
      && (r.checks.first.passed <==> input.tensionLoad <= r.capacities.governingTension)
      && (r.checks.second.passed <==> input.shearLoad <= r.capacities.governingShear)
      && (r.checks.combined.passed ==> r.checks.first.passed && r.checks.second.passed)
  {
    var r := EvaluateBolted(m, input).value;
    WithinCapacity(input.tensionLoad, r.capacities.governingTension);
    WithinCapacity(input.shearLoad, r.capacities.governingShear);
  }

  /** A larger tension load never lowers the tension ratio or the combined ratio. */
  lemma TensionRatioMonotone(m: MathLib, input: BoltedInput, load: real)
    requires Valid(m) && input.WithinFormLimits() && input.tensionLoad <= load
    requires LookupMaterials(input).Success? && 0.0 < input.Net()
    ensures EvaluateBolted(m, input.(tensionLoad := load)).Success?
    ensures EvaluateBolted(m, input).value.checks.first.ratio <= EvaluateBolted(m, input.(tensionLoad := load)).value.checks.first.ratio
    ensures EvaluateBolted(m, input).value.checks.combined.ratio <= EvaluateBolted(m, input.(tensionLoad := load)).value.checks.combined.ratio
  {
    var bigger := input.(tensionLoad := load);
    var r1, r2 := EvaluateBolted(m, input).value, EvaluateBolted(m, bigger).value;
    assert r1.capacities.governingTension == r2.capacities.governingTension;
    RatioMonotone(input.tensionLoad, load, r1.capacities.governingTension);
    SquareOrder(r1.checks.first.ratio, r2.checks.first.ratio);
    SqrtMonotone(m, Sq(r1.checks.first.ratio) + Sq(r1.checks.second.ratio), Sq(r2.checks.first.ratio) + Sq(r2.checks.second.ratio));
  }

  /** A larger shear load never lowers the shear ratio or the combined ratio. */
  lemma ShearRatioMonotone(m: MathLib, input: BoltedInput, load: real)
    requires Valid(m) && input.WithinFormLimits() && input.shearLoad <= load
    requires LookupMaterials(input).Success? && 0.0 < input.Net()
    ensures EvaluateBolted(m, input.(shearLoad := load)).Success?
    ensures EvaluateBolted(m, input).value.checks.second.ratio <= EvaluateBolted(m, input.(shearLoad := load)).value.checks.second.ratio
    ensures EvaluateBolted(m, input).value.checks.combined.ratio <= EvaluateBolted(m, input.(shearLoad := load)).value.checks.combined.ratio
  {
    var bigger := input.(shearLoad := load);
    var r1, r2 := EvaluateBolted(m, input).value, EvaluateBolted(m, bigger).value;
    assert r1.capacities.governingShear == r2.capacities.governingShear;
    RatioMonotone(input.shearLoad, load, r1.capacities.governingShear);
    SquareOrder(r1.checks.second.ratio, r2.checks.second.ratio);
    SqrtMonotone(m, Sq(r1.checks.first.ratio) + Sq(r1.checks.second.ratio), Sq(r2.checks.first.ratio) + Sq(r2.checks.second.ratio));
  }

  /** A 12 mm A36 plate, 200 mm wide, with four 20 mm A325 bolts, loaded with 100 kN of
      tension and 50 kN of shear. */
  const ExamplePlate: BoltedInput := BoltedInput("A36", 12.0, 200.0, 20, "A325", 4, 100.0, 50.0)

  /** In the example the net section governs tension: 12 * (200 - 4 * 22) = 1344 mm²
      give 403.2 kN against about 584 kN for the bolts, and the tension check passes. */
  lemma ExamplePlateNetSectionGoverns(m: MathLib)
    requires Valid(m)
    ensures ExamplePlate.WithinFormLimits()
    ensures EvaluateBolted(m, ExamplePlate).Success?
    ensures var c := EvaluateBolted(m, ExamplePlate).value.capacities;
      c.netArea == 1344.0 && c.plateTension == 403.2 && 584.0 < c.totalTension && c.governingTension == 403.2
    ensures var r := EvaluateBolted(m, ExamplePlate).value;
      r.checks.first.ratio == 100.0 / 403.2 && r.checks.first.passed
  {
    var c := Capacities(m, ExamplePlate, Steel(250.0, 400.0), BoltMaterial(620.0, 372.0));
    assert Sq(20 as real / 2.0) == 100.0;
    assert c.boltArea == m.pi * 100.0;
    assert c.totalTension == 186.0 * m.pi;
  }

  /** A plate 80 mm wide with four 20 mm bolts has no net section at all:
      12 * (80 - 4 * 22) = -96 mm². The form admits it. */
  const NoNetSection: BoltedInput := BoltedInput("A36", 12.0, 80.0, 20, "A325", 4, 10.0, 50.0)

  /** As written, the negative net area gives a negative tension capacity, hence a negative
      tension ratio, and all three checks pass for a plate that cannot carry any tension. */
  lemma NoNetSectionPassesAsWritten(m: MathLib)
    requires Valid(m)
    ensures NoNetSection.WithinFormLimits() && NoNetSection.Net() == -96.0
    ensures EvaluateBoltedAsWritten(m, NoNetSection).Success?
    ensures var r := EvaluateBoltedAsWritten(m, NoNetSection).value;
      && r.capacities.governingTension == -28.8
      && r.checks.first.ratio < 0.0 && r.checks.first.passed
      && r.checks.second.passed && r.checks.combined.passed
  {
    var c := Capacities(m, NoNetSection, Steel(250.0, 400.0), BoltMaterial(620.0, 372.0));
    assert Sq(20 as real / 2.0) == 100.0;
    assert c.totalShear == 111.6 * m.pi;
    assert c.plateShear == 129.6;
    var r := EvaluateBoltedAsWritten(m, NoNetSection).value;
    assert r.checks.second.ratio == 50.0 / 129.6;
    assert r.checks.first.ratio == 10.0 / -28.8;
  }

  /** With the guard the same plate is rejected instead. */
  lemma NoNetSectionRejected(m: MathLib)
    requires Valid(m)
    ensures NoNetSection.WithinFormLimits()
    ensures EvaluateBolted(m, NoNetSection) == Failure(InvalidGeometry)
  {
    assert NoNetSection.Net() == -96.0;
  }
}
