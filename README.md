# Steel connection capacity engine, in Dafny

A model of the calculation core of `Conexiones.py`, a steel connection calculator.
It has two calculators.

**Bolted plate connection.** It takes a steel grade, a plate thickness and width, a bolt
diameter, grade and count, and a tension load and a shear load. From these it computes:

- the bolt area;
- the tension and shear design strength of one bolt and of the whole group;
- the plate's net area, gross area, net-section tension capacity and gross-section shear capacity;
- the governing capacity for tension and for shear (the smaller of bolts and plate);
- three utilization checks: tension, shear, and their square-root-of-sum-of-squares (SRSS)
  combination. A check passes when its ratio is at most 1.0.

**Welded connection.** It takes a steel grade, a weld type (fillet or complete penetration),
an electrode, the weld size and length, a plate thickness, a load angle, a force and a
moment. From these it computes:

- the throat (fillet only) and the effective area;
- the base capacity;
- for a fillet, the capacity adjusted by the load-angle factor
  `sqrt(sin(a)**2 + (0.5 cos(a))**2)`;
- the section modulus when a moment is applied;
- three checks: force, moment, and their SRSS combination.

The arithmetic is pure, so the model is functions over `real`, with lemmas about them.

How the model is organised:

- `Outcomes` (`outcomes.dfy`) holds `Option`, `Result` and the error kinds.
- `Transcendental` (`transcendental.dfy`) handles the host math library. `pi`, `sqrt`, `sin` and
  `cos` are not computed. Every evaluation takes a `MathLib` value whose `Valid` predicate states
  the facts the proofs rely on:
  - pi to five decimals;
  - an exact, non-negative square root;
  - `sin**2 + cos**2 = 1`;
  - `sin 0 = 0` and `cos 0 = 1`.
- `Catalog` (`catalog.dfy`) holds the three material tables. A name outside a table gives `None`,
  just as a dictionary lookup raises on a missing key.
- `Verdicts` (`verdicts.dfy`) holds the ratio, the SRSS combination and the pass/fail verdict
  that both calculators share.
- `Bolted` (`bolted.dfy`) and `Welded` (`welded.dfy`) are the two calculators.
  - Each input record has a `WithinFormLimits` predicate. It holds the ranges the input form
    admits (the widgets' minimum values, the bolt-diameter list, the 0–90° slider).
  - The calculators require these limits rather than reporting errors for them.

The fillet angle adjustment divides the base capacity by a factor between 0.5 and 1. So it
raises the capacity, doubling it at 0°. Whether that direction is what the designers intended is
an open question. The model reproduces the code as written and proves exactly this behaviour:
`Welded.AdjustedCapacity` and `Welded.ExampleFilletDoubled`.

Other points where the model shows what the code does:

- **Worked fillet example (6 mm, 200 mm, E70XX, 0°).** In exact arithmetic, the code's formulas
  give a base capacity of 0.75 · 291 · 848.4 / 1000 = 185.1633 kN and an adjusted capacity of
  370.3266 kN (`Welded.ExampleFilletDoubled`).
- **Effective area and section modulus.** Within the form's limits neither is ever zero
  (`Welded.WeldedInput.WithinFormLimits`, `Welded.EffectiveArea`, `Welded.SectionModulus`),
  so no error path is modelled for them.
- **Net area.** The bolted net area can be zero or negative within the form's limits. This is
  the subject of the finding below.

## Model

| member | source | states |
|---|---|---|
| Catalog.SteelGrade | Conexiones.py:25-29 | Known exactly for A36 (Fy 250, Fu 400), A572 Gr50 and A992 (345, 450); unknown names give None; every grade has 0 < Fy < Fu |
| Catalog.BoltGrade | Conexiones.py:52-55 | Known exactly for A325 (620, 372) and A490 (780, 468); unknown names give None; every grade has Fnv = 0.6 · Fnt > 0 |
| Catalog.Electrode | Conexiones.py:209-210 | FEXX is 485 for E70XX and 550 for E80XX; unknown names give None |
| Transcendental.Radians | Conexiones.py:237-238 | Degrees to radians: zero exactly at 0°, non-negative for non-negative angles |
| Verdicts.Verdict | Conexiones.py:126-141 | A check passes iff its ratio is at most 1.0; a ratio of exactly 1.0 passes |
| Verdicts.Ratio | Conexiones.py:118-119 | ratio · capacity = demand; non-negative for a positive capacity and a non-negative demand; negative for a negative capacity and a positive demand (no sign guard) |
| Verdicts.RatioMonotone | Conexiones.py:118-119 | For a positive capacity the ratio never falls as the demand grows |
| Verdicts.WithinCapacity | Conexiones.py:126-135 | For a positive capacity a check passes iff the demand does not exceed the capacity |
| Verdicts.Srss | Conexiones.py:121 | The combination is non-negative and its square is the sum of the squares; it is at least the magnitude of each component; it equals the other component's magnitude when one is 0; it is at most 1 iff the squares sum to at most 1; when it is at most 1, so is each component |
| Verdicts.SrssDominates | Conexiones.py:290 | sqrt(a² + b²) is at least abs(a) and abs(b), and equals one of them when the other term is 0 |
| Verdicts.Assess | Conexiones.py:121-141 | The first and second checks (tension and shear, or force and moment) are the verdicts on their own ratios; the combined check's ratio is their SRSS, and it passes iff the squares of the two ratios sum to at most 1 |
| Bolted.BoltedInput.WithinFormLimits | Conexiones.py:43-60 | The ranges the form admits (t ≥ 5, w ≥ 50, a listed diameter, n ≥ 1, non-negative loads); within them the gross area is positive, the net area is below it, and a hole is 14 to 32 mm |
| Bolted.BoltArea | Conexiones.py:69 | The bolt area is non-negative, and positive for a positive diameter |
| Bolted.BoltAreaMonotone | Conexiones.py:69 | A larger diameter never gives a smaller bolt area |
| Bolted.BoltStrength | Conexiones.py:76-79 | The design strength of one bolt is positive for a positive strength and area, and non-negative for non-negative ones |
| Bolted.GroupCapacity | Conexiones.py:82-83 | With at least one bolt, the group capacity is at least the per-bolt capacity |
| Bolted.GroupCapacityMonotone | Conexiones.py:76-83 | The group capacity never falls as the bolt count or the bolt area grows |
| Bolted.HoleDiameter | Conexiones.py:86 | A hole is exactly 2 mm larger than its bolt |
| Bolted.GrossArea | Conexiones.py:93 | The gross area of a plate with positive dimensions is positive |
| Bolted.NetArea | Conexiones.py:86-87 | With a bolt and a positive thickness, the net area is strictly below the gross area; nothing keeps it positive |
| Bolted.NetAreaDecreasing | Conexiones.py:86-87 | Each further bolt hole strictly lowers the net area |
| Bolted.PlateTensionCapacity | Conexiones.py:90 | The net-section tension capacity is positive iff the net area is, and zero iff the net area is |
| Bolted.PlateShearCapacity | Conexiones.py:94 | The gross-section shear capacity is positive for positive Fy and area |
| Bolted.Governing | Conexiones.py:118-119 | The governing capacity is at most both the bolt capacity and the plate capacity, and is one of them |
| Bolted.Capacities | Conexiones.py:69-94 | The bolt area is that of the input diameter; the per-bolt strengths use Fnt and Fnv of the bolt grade; the gross area is t·w; the plate capacities use Fu on the net area and Fy on the gross area; the reported net area is the input's, below the gross area; group totals are n × per-bolt; per-bolt strengths are positive; the governing capacities are the minima; shear governs positively; tension governs positively iff the net area is positive |
| Bolted.GroupCapacitiesGrow | Conexiones.py:69-83 | As the calculator reports them, more bolts or a larger listed diameter never lower the group's tension or shear capacity |
| Bolted.Analyze | Conexiones.py:118-121 | The capacities are as above; the tension and shear ratios are load over governing capacity; the three checks are their assessment; the shear ratio is non-negative; the tension ratio is non-negative when the net area is positive |
| Bolted.LookupMaterials | Conexiones.py:39-73 | The steel lookup (lines 39-40) and the bolt lookup (lines 72-73): succeeds iff both grades are known; an unknown steel grade is reported first, then an unknown bolt grade; the found materials are exactly the catalog's entries for the two named grades, with 0 < Fy < Fu and 0 < Fnv < Fnt |
| Bolted.EvaluateBoltedAsWritten | Conexiones.py:69-141 | The calculator as written, defined whenever the net area is non-zero: succeeds iff the grades are known; fails only with an unknown grade; on success the result is the analysis with the looked-up steel and bolt materials, and reports the input's net area, sign included |
| Bolted.EvaluateBolted | Conexiones.py:86-119 | Succeeds iff the grades are known and the net area is positive; a known material with net area ≤ 0 gives InvalidGeometry; otherwise the result is the calculator's own; on success both governing capacities are positive and both ratios non-negative |
| Bolted.ChecksAgainstCapacities | Conexiones.py:118-141 | The tension check passes iff the tension load is at most the governing tension capacity, and likewise for shear; the combined check passes only when both others do |
| Bolted.TensionRatioMonotone | Conexiones.py:118-121 | A larger tension load never lowers the tension ratio or the combined ratio |
| Bolted.ShearRatioMonotone | Conexiones.py:119-121 | A larger shear load never lowers the shear ratio or the combined ratio |
| Bolted.ExamplePlateNetSectionGoverns | Conexiones.py:86-119 | 12 mm A36 plate, 200 mm wide, four 20 mm A325 bolts: the net area is 1344 mm², the net section (403.2 kN) governs over the bolts (> 584 kN), and 100 kN of tension passes with ratio 100/403.2 |
| Bolted.NoNetSectionPassesAsWritten | Conexiones.py:87-141 | An 80 mm plate with four 20 mm bolts has a net area of −96 mm²; as written its governing tension is −28.8 kN, the tension ratio is negative, and all three checks pass |
| Bolted.NoNetSectionRejected | Conexiones.py:87-90 | The guarded calculator rejects the same plate with InvalidGeometry |
| Welded.WeldedInput.WithinFormLimits | Conexiones.py:212-222 | The ranges the form admits (size ≥ 3, length ≥ 50, t ≥ 5, angle 0–90, non-negative force and moment); within them both possible effective areas are positive |
| Welded.Throat | Conexiones.py:229 | The fillet throat is positive and smaller than the leg size |
| Welded.FilletStrength | Conexiones.py:233 | Fnw is positive and below FEXX |
| Welded.EffectiveArea | Conexiones.py:226-244 | The effective area (throat × length for a fillet, thickness × length otherwise) is positive |
| Welded.BaseCapacity | Conexiones.py:232-247 | The base capacity is positive |
| Welded.AngleFactor | Conexiones.py:237-238 | The square of the angle factor is sin²θ + 0.25·cos²θ at θ = radians(angle); the factor lies in [0.5, 1] and is exactly 0.5 at 0° |
| Welded.AngleFactorRange | Conexiones.py:237-238 | sin² + (0.5 cos)² lies in [0.25, 1], its root in [0.5, 1], and the root is 0.5 at angle 0 |
| Welded.DivideByAngleFactor | Conexiones.py:240 | Dividing a non-negative capacity by a factor in [0.5, 1] never lowers it and at most doubles it |
| Welded.AdjustedCapacity | Conexiones.py:236-248 | Complete penetration: the adjusted capacity is the base capacity. Fillet: adjusted × angle factor = base, so it lies between the base capacity and twice it, and is exactly twice it at 0° |
| Welded.SectionModulus | Conexiones.py:253-256 | The section modulus is positive |
| Welded.AllowableStress | Conexiones.py:259 | The allowable bending stress is positive |
| Welded.MomentStress | Conexiones.py:258 | stress × section modulus = 1000 × moment; non-negative for a non-negative moment |
| Welded.MomentUtilization | Conexiones.py:251-262 | With no moment the utilization is exactly 0; otherwise utilization × allowable = moment stress, and it is non-negative |
| Welded.Strength | Conexiones.py:226-248 | The throat is reported iff the weld is a fillet, and is then 0.707·size; the effective area and base capacity are those of the weld's branch, and the adjusted capacity is the angle adjustment of that base; area and base capacity are positive; complete penetration gives adjusted = base = 0.9·Fy·t·L/1000; for a fillet, base ≤ adjusted ≤ 2·base, with equality to 2·base at 0° |
| Welded.Analyze | Conexiones.py:250-290 | The strength is as above; the section modulus is reported iff a moment is applied; the force ratio is force over adjusted capacity and non-negative; the moment ratio is non-negative, 0 with no moment, and with a moment it is the moment stress over the allowable stress, with the section modulus reported; the three checks are their assessment |
| Welded.EvaluateWelded | Conexiones.py:202-210 | Succeeds iff the steel grade and the electrode are known (the electrode is looked up for either weld type); an unknown steel grade is reported first; on success the result is the analysis with the grade's Fy and the electrode's FEXX |
| Welded.ChecksAgainstCapacity | Conexiones.py:289-310 | The force check passes iff the force is at most the adjusted capacity; with a moment, the moment check passes iff the moment stress is at most the allowable stress; the total check passes only when both do |
| Welded.MomentRatioMonotone | Conexiones.py:251-262 | A larger moment never lowers the moment ratio or the total ratio |
| Welded.ForceRatioMonotone | Conexiones.py:289-290 | A larger force never lowers the force ratio or the total ratio |
| Welded.ExampleFilletDoubled | Conexiones.py:226-290 | 6 mm E70XX fillet, 200 mm on A36, at 0°: throat 4.242 mm, area 848.4 mm², base 185.1633 kN, adjusted 370.3266 kN; 100 kN passes, and with no moment the total ratio equals the force ratio |

## Left out

- The Streamlit user interface (widgets, columns, messages) and the matplotlib figures are
  not modelled. Only the capacity arithmetic and the pass/fail verdicts are.
- The edge distance and bolt spacing inputs are not modelled. They only position bolts in a
  figure and take no part in any capacity.
- The displayed rounding (`:.1f`, `:.2f`, `:.0f`) is not modelled, and neither is floating
  point. All arithmetic is exact on reals, so a ratio that the code would compute as just
  above 1.0 through rounding is exact here.
- The math library is not modelled. `pi`, `sqrt`, `sin` and `cos` are parameters, described
  only by the facts in `Transcendental.Valid`. `radians` is written out as degrees · pi / 180.
- Out-of-range input is not modelled as an error. Values below the form's minimums, bolt
  diameters outside the list and angles outside 0–90 are excluded by the `WithinFormLimits`
  requirements, because the form never produces them.
- The weld type is modelled as two cases. The code's `else` branch treats any
  non-"Filete" string as complete penetration; the model has no third case.
- Bolted.EvaluateBoltedAsWritten: requires a non-zero net area, because at zero the code
  divides by zero. The corrected `Bolted.EvaluateBolted` covers that case too.
- The `InvalidGeometry` failure of `Bolted.EvaluateBolted` is a guard that the code does not
  have. It is the corrected half of the finding below.

## Findings

| source | as written | input that shows it | evidently intended | confidence | as-written member | corrected member |
|---|---|---|---|---|---|---|
| Conexiones.py:87-118 | The net area `t · (w − n · (d + 2))` is used without any check of its sign. A plate narrower than its holes gets a negative tension capacity, a negative tension ratio, and a passing tension check. At zero it divides by zero. | A36, t = 12 mm, w = 80 mm, four 20 mm A325 bolts, 10 kN tension, 50 kN shear: net area −96 mm², governing tension −28.8 kN, and all three checks pass | A plate with no positive net area is rejected as invalid geometry instead of passing | high, not executed | Bolted.NoNetSectionPassesAsWritten | Bolted.EvaluateBolted |
