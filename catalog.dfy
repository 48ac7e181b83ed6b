/**
 * The material tables of the calculator: structural steel grades, bolt grades
 * and weld electrodes, with their nominal strengths in MPa. A lookup of a name
 * outside a table fails, as the dictionary lookups it models raise on a missing key.
 */
module Catalog {
  import opened Outcomes

  /** A steel grade: yield strength Fy and ultimate strength Fu. */
  datatype Steel = Steel(fy: real, fu: real)

  /** A bolt grade: nominal tensile strength Fnt and nominal shear strength Fnv. */
  datatype BoltMaterial = BoltMaterial(fnt: real, fnv: real)

  const SteelGrades: map<string, Steel> := map[
    "A36" := Steel(250.0, 400.0),
    "A572 Gr50" := Steel(345.0, 450.0),
    "A992" := Steel(345.0, 450.0)
  ]

  const BoltGrades: map<string, BoltMaterial> := map[
    "A325" := BoltMaterial(620.0, 372.0),
    "A490" := BoltMaterial(780.0, 468.0)
  ]

  /** Electrode classification to its nominal strength FEXX. */
  const ElectrodeStrengths: map<string, real> := map[
    "E70XX (485 MPa)" := 485.0,
    "E80XX (550 MPa)" := 550.0
  ]

  function SteelGrade(name: string): (r: Option<Steel>)
    ensures r.Some? <==> name in {"A36", "A572 Gr50", "A992"}
    ensures name == "A36" ==> r == Some(Steel(250.0, 400.0))
    ensures name == "A572 Gr50" || name == "A992" ==> r == Some(Steel(345.0, 450.0))
    ensures r.Some? ==> 0.0 < r.value.fy < r.value.fu
  {
    if name in SteelGrades then Some(SteelGrades[name]) else None
  }

  function BoltGrade(name: string): (r: Option<BoltMaterial>)
    ensures r.Some? <==> name in {"A325", "A490"}
    ensures name == "A325" ==> r == Some(BoltMaterial(620.0, 372.0))
    ensures name == "A490" ==> r == Some(BoltMaterial(780.0, 468.0))
    ensures r.Some? ==> 0.0 < r.value.fnt && r.value.fnv == 0.6 * r.value.fnt
  {
    if name in BoltGrades then Some(BoltGrades[name]) else None
  }

  function Electrode(name: string): (r: Option<real>)
    ensures r.Some? <==> name in {"E70XX (485 MPa)", "E80XX (550 MPa)"}
    ensures name == "E70XX (485 MPa)" ==> r == Some(485.0)
    ensures name == "E80XX (550 MPa)" ==> r == Some(550.0)
    ensures r.Some? ==> 0.0 < r.value
  {
    if name in ElectrodeStrengths then Some(ElectrodeStrengths[name]) else None
  }
}
