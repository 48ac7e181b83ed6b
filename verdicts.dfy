/**
 * The tail shared by both calculators: a utilization ratio is demand over
 * capacity, two ratios are combined by the square root of the sum of their
 * squares (SRSS), and a check passes when its ratio is at most 1.0.
 */
module Verdicts {
  import opened Transcendental

  /** One design check as reported: its ratio and whether it passes. */
  datatype Check = Check(ratio: real, passed: bool)

  function Abs(x: real): (r: real)
    ensures 0.0 <= r && (r == x || r == -x)
  {
    if x < 0.0 then -x else x
  }

  /** The verdict on a ratio: the inequality is not strict, so a ratio of exactly 1.0 passes. */
  function Verdict(ratio: real): (c: Check)
    ensures c.ratio == ratio
    ensures c.passed <==> ratio <= 1.0
    ensures ratio == 1.0 ==> c.passed
  {
    Check(ratio, ratio <= 1.0)
  }

  /** Demand over capacity. Nothing guards the sign of the capacity: a negative
      capacity yields a negative ratio for a positive demand. */
  function Ratio(demand: real, capacity: real): (u: real)
    requires capacity != 0.0
    ensures u * capacity == demand
    ensures 0.0 < capacity && 0.0 <= demand ==> 0.0 <= u
    ensures capacity < 0.0 && 0.0 < demand ==> u < 0.0
  {
    demand / capacity
  }

  /** For a positive capacity the ratio never falls as the demand grows. */
  lemma RatioMonotone(d1: real, d2: real, capacity: real)
    requires 0.0 < capacity && d1 <= d2
    ensures Ratio(d1, capacity) <= Ratio(d2, capacity)
  {
    assert Ratio(d2, capacity) - Ratio(d1, capacity) == Ratio(d2 - d1, capacity);
  }

  /** For a positive capacity, a check passes exactly when the demand does not exceed
      the capacity. */
  lemma WithinCapacity(demand: real, capacity: real)
    requires 0.0 < capacity
    ensures Verdict(Ratio(demand, capacity)).passed <==> demand <= capacity
  {
    var u := Ratio(demand, capacity);
    assert Mul(u - 1.0, capacity) == demand - capacity;
  }

  /** The three checks formed from two utilization ratios: each on its own, and their
      SRSS combination. */
  datatype Assessment = Assessment(first: Check, second: Check, combined: Check)

  function Assess(m: MathLib, first: real, second: real): (a: Assessment)
    requires Valid(m)
    ensures a.first == Verdict(first) && a.second == Verdict(second)
    ensures a.combined.ratio == Srss(m, first, second)
    ensures a.combined.passed <==> Sq(first) + Sq(second) <= 1.0
  {
    Assessment(Verdict(first), Verdict(second), Verdict(Srss(m, first, second)))
  }

  /** SRSS combination of two ratios, `sqrt(a**2 + b**2)`. */
  function Srss(m: MathLib, a: real, b: real): (r: real)
    requires Valid(m)
    ensures 0.0 <= r && Sq(r) == Sq(a) + Sq(b)
    ensures Abs(a) <= r && Abs(b) <= r
    ensures b == 0.0 ==> r == Abs(a)
    ensures a == 0.0 ==> r == Abs(b)
    ensures r <= 1.0 <==> Sq(a) + Sq(b) <= 1.0
    ensures r <= 1.0 ==> a <= 1.0 && b <= 1.0
  {
    SrssDominates(m, a, b);
    SqrtAtMostOne(m, Sq(a) + Sq(b));
    m.sqrt(Sq(a) + Sq(b))
  }

  /** The root of a sum of squares is at least as large as either term's magnitude,
      and equals it when the other term is zero. */
  lemma SrssDominates(m: MathLib, a: real, b: real)
    requires Valid(m)
    ensures Abs(a) <= m.sqrt(Sq(a) + Sq(b)) && Abs(b) <= m.sqrt(Sq(a) + Sq(b))
    ensures b == 0.0 ==> m.sqrt(Sq(a) + Sq(b)) == Abs(a)
    ensures a == 0.0 ==> m.sqrt(Sq(a) + Sq(b)) == Abs(b)
  {
    RootAtLeast(m, Abs(a), Sq(a) + Sq(b));
    RootAtLeast(m, Abs(b), Sq(a) + Sq(b));
  }

  /** A non-negative value whose square is at most `s` is at most the root of `s`,
      and is that root when its square is `s`. */
  lemma RootAtLeast(m: MathLib, v: real, s: real)
    requires Valid(m) && 0.0 <= v && Sq(v) <= s
    ensures v <= m.sqrt(s)
    ensures Sq(v) == s ==> m.sqrt(s) == v
  {
    SqrtOfSquare(m, v);
    SqrtMonotone(m, Sq(v), s);
  }
}
