/**
 * The transcendental part of Python's `math` module, which the model cannot compute.
 * A `MathLib` value supplies sqrt, exp and real powers; `Lawful` states the only facts
 * about them that the proofs use. pi is the literal value of Python's `math.pi`.
 */
module RealMath {

  datatype MathLib = MathLib(sqrt: real -> real, exp: real -> real, pow: (real, real) -> real)

  /** The laws of a correct math library that the model relies on. */
  ghost predicate Lawful(m: MathLib) {
    && (forall x :: x > 0.0 ==> m.sqrt(x) > 0.0)
    && m.sqrt(0.0) == 0.0
    && (forall x :: x >= 0.0 ==> m.sqrt(x) * m.sqrt(x) == x)
    && (forall x :: m.exp(x) > 0.0)
    && (forall x, y :: x > 0.0 ==> m.pow(x, y) > 0.0)
  }

  const PI: real := 3.141592653589793

  /** The square root of 1 is 1. */
  lemma SqrtOne(m: MathLib)
    requires Lawful(m)
    ensures m.sqrt(1.0) == 1.0
  {
    var s := m.sqrt(1.0);
    assert s > 0.0 && s * s == 1.0;
    assert (s - 1.0) * (s + 1.0) == 0.0;
  }

  /** A positive number has exactly one positive square root. */
  lemma SqrtUnique(m: MathLib, x: real, y: real)
    requires Lawful(m) && x > 0.0 && y >= 0.0 && y * y == x
    ensures m.sqrt(x) == y
  {
    var s := m.sqrt(x);
    assert s > 0.0 && s * s == x;
    assert (s - y) * (s + y) == 0.0;
    assert s + y > 0.0;
    if s - y > 0.0 {
      assert false;
    } else if s - y < 0.0 {
      assert false;
    }
  }

  // Sign facts about products and quotients that the solver does not find on
  // its own once a symbolic constant such as PI takes part in the product.

  lemma MulPositive(x: real, y: real)
    requires x > 0.0 && y > 0.0
    ensures x * y > 0.0
  {
  }

  lemma MulNonNegative(x: real, y: real)
    requires x >= 0.0 && y >= 0.0
    ensures x * y >= 0.0
  {
  }

  /** Multiplying by a positive factor keeps the sign. */
  lemma MulSign(c: real, x: real)
    requires c > 0.0
    ensures c * x > 0.0 <==> x > 0.0
    ensures c * x == 0.0 <==> x == 0.0
    ensures c * x < 0.0 <==> x < 0.0
  {
    if x > 0.0 {
      MulPositive(c, x);
    } else if x < 0.0 {
      MulPositive(c, -x);
      assert c * x == -(c * -x);
    }
  }

  /** Dividing by a positive divisor keeps the sign. */
  lemma DivSign(x: real, c: real)
    requires c > 0.0
    ensures x / c > 0.0 <==> x > 0.0
    ensures x / c == 0.0 <==> x == 0.0
    ensures x / c < 0.0 <==> x < 0.0
  {
    MulSign(c, x / c);
    assert c * (x / c) == x;
  }

  /** Dividing by a positive divisor keeps a strict order. */
  lemma DivStrict(x: real, y: real, d: real)
    requires x < y && d > 0.0
    ensures x / d < y / d
  {
    DivSign(y - x, d);
    assert (y - x) / d == y / d - x / d;
  }

  /** A value between k·lo and k·hi, divided by k > 0, lies between lo and hi. */
  lemma DivBounds(s: real, k: real, lo: real, hi: real)
    requires k > 0.0 && k * lo <= s <= k * hi
    ensures lo <= s / k <= hi
  {
    DivSign(s - k * lo, k);
    assert (s - k * lo) / k == s / k - lo;
    DivSign(k * hi - s, k);
    assert (k * hi - s) / k == hi - s / k;
  }

  /**
   * A product kept behind a function symbol. The solver loses track of a
   * variable defined as a square (y == x * x); stating sign facts about
   * Mul and Sq instead of raw products keeps those facts usable.
   */
  function Mul(x: real, y: real): real { x * y }

  /** The square x ** 2. */
  function Sq(x: real): real { x * x }

  lemma MulPositiveAtom(x: real, y: real)
    requires x > 0.0 && y > 0.0
    ensures Mul(x, y) > 0.0
  {
  }

  lemma SqPositive(x: real)
    requires x != 0.0
    ensures Sq(x) > 0.0
  {
    assert Sq(x) == Mul(x, x);
    if x > 0.0 {
      MulPositiveAtom(x, x);
    } else {
      MulPositiveAtom(-x, -x);
      assert Mul(-x, -x) == Mul(x, x);
    }
  }

  lemma SqNonNegative(x: real)
    ensures Sq(x) >= 0.0
  {
    if x != 0.0 {
      SqPositive(x);
    }
  }

  /** Squaring is strictly increasing on the non-negative reals. */
  lemma SqBelow(a: real, b: real)
    requires 0.0 <= a < b
    ensures Sq(a) < Sq(b)
  {
    MulPositiveAtom(b - a, b + a);
    assert Mul(b - a, b + a) == Sq(b) - Sq(a);
  }
}
