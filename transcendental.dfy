/**
 * The functions the calculator takes from the host language's math library
 * (pi, sqrt, sin, cos, radians). They are not computed here: an evaluation is
 * given a `MathLib` and relies only on the algebraic facts that `Valid` states.
 */
module Transcendental {

  datatype MathLib = MathLib(pi: real, sqrt: real -> real, sin: real -> real, cos: real -> real)

  /** What the model assumes of the library: pi to five decimals, an exact
      non-negative square root, and the Pythagorean identity with its value at 0. */
  ghost predicate Valid(m: MathLib) {
    && 3.14159 < m.pi < 3.14160
    && (forall x :: 0.0 <= x ==> 0.0 <= m.sqrt(x) && Sq(m.sqrt(x)) == x)
    && (forall x :: Sq(m.sin(x)) + Sq(m.cos(x)) == 1.0)
    && m.sin(0.0) == 0.0
    && m.cos(0.0) == 1.0
  }

  /** `a * b`, written as a function so that the signs of the factors reach the solver
      with the product; it equals `a * b` everywhere it is used. */
  function Mul(a: real, b: real): (p: real)
    ensures 0.0 < a && 0.0 < b ==> 0.0 < p
    ensures a < 0.0 && b < 0.0 ==> 0.0 < p
    ensures 0.0 <= a && 0.0 <= b ==> 0.0 <= p
    ensures a <= 0.0 && b <= 0.0 ==> 0.0 <= p
    ensures a <= 0.0 && 0.0 <= b ==> p <= 0.0
  {
    a * b
  }

  /** A product grows with either non-negatively scaled factor. */
  lemma MulMonotone(k: real, a: real, b: real)
    requires 0.0 <= k && a <= b
    ensures Mul(k, a) <= Mul(k, b)
  {
    var d := b - a;
    assert Mul(k, b) - Mul(k, a) == k * d;
  }

  /** `x ** 2` */
  function Sq(x: real): (r: real)
    ensures 0.0 <= r
    ensures x != 0.0 ==> 0.0 < r
  {
    Mul(x, x)
  }

  /** Degrees to radians. */
  function Radians(m: MathLib, degrees: real): (r: real)
    requires 0.0 < m.pi
    ensures degrees == 0.0 <==> r == 0.0
    ensures 0.0 <= degrees ==> 0.0 <= r
  {
    degrees * m.pi / 180.0
  }

  /** On non-negative reals, squaring preserves and reflects the order. */
  lemma SquareOrder(x: real, y: real)
    requires 0.0 <= x && 0.0 <= y
    ensures Sq(x) <= Sq(y) <==> x <= y
  {
    var xx, xy, yy := x * x, x * y, y * y;
    if x <= y {
      assert xx <= xy <= yy;
    } else {
      assert yy <= xy < xx;
    }
  }

  /** The root of a square is the non-negative value squared. */
  lemma SqrtOfSquare(m: MathLib, x: real)
    requires Valid(m) && 0.0 <= x
    ensures m.sqrt(Sq(x)) == x
  {
    var r := m.sqrt(Sq(x));
    SquareOrder(r, x);
    SquareOrder(x, r);
  }

  lemma SqrtMonotone(m: MathLib, x: real, y: real)
    requires Valid(m) && 0.0 <= x <= y
    ensures m.sqrt(x) <= m.sqrt(y)
  {
    SquareOrder(m.sqrt(x), m.sqrt(y));
  }

  /** A root is at most one exactly when its argument is: the test `sqrt(x) <= 1.0`
      could as well be made on `x`. */
  lemma SqrtAtMostOne(m: MathLib, x: real)
    requires Valid(m) && 0.0 <= x
    ensures m.sqrt(x) <= 1.0 <==> x <= 1.0
  {
    SquareOrder(m.sqrt(x), 1.0);
  }
}
