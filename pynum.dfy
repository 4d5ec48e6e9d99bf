/**
 * Python's round(x, 3) and float(text) on the decimal literals the wizard
 * reads. Both work on exact reals here: round is to the nearest multiple of
 * 0.001 with ties to the even neighbour, float is the exact decimal value.
 */
module PyNum {
  import opened Wrappers

  // ---------------------------------------------------------------------------
  // round(x, 3)
  // ---------------------------------------------------------------------------

  /** The nearest integer, ties to the even one. */
  function RoundHalfEven(y: real): (n: int)
    ensures n as real - 0.5 <= y <= n as real + 0.5
    ensures y == y.Floor as real ==> n == y.Floor
  {
    var f := y.Floor;
    var d := y - f as real;
    if d < 0.5 then f
    else if d > 0.5 then f + 1
    else if f % 2 == 0 then f else f + 1
  }

  lemma RoundHalfEvenMonotone(x: real, y: real)
    requires x <= y
    ensures RoundHalfEven(x) <= RoundHalfEven(y)
  {
    if x.Floor < y.Floor {
      assert RoundHalfEven(x) <= x.Floor + 1 <= y.Floor <= RoundHalfEven(y);
    }
  }

  /** round(x, 3): the nearest multiple of 0.001, at most half a unit away. */
  function Round3(x: real): (r: real)
    ensures -0.0005 <= r - x <= 0.0005
  {
    RoundHalfEven(x * 1000.0) as real / 1000.0
  }

  /** Rounding keeps the order of its arguments. */
  lemma Round3Monotone(x: real, y: real)
    requires x <= y
    ensures Round3(x) <= Round3(y)
  {
    RoundHalfEvenMonotone(x * 1000.0, y * 1000.0);
  }

  /** A multiple of 0.001 is its own rounding. */
  lemma Round3Milli(k: int)
    ensures Round3(k as real / 1000.0) == k as real / 1000.0
  {
    var y := k as real / 1000.0 * 1000.0;
    assert y == k as real;
    assert y.Floor == k;
  }

  /** Rounding twice is rounding once. */
  lemma Round3Idempotent(x: real)
    ensures Round3(Round3(x)) == Round3(x)
  {
    Round3Milli(RoundHalfEven(x * 1000.0));
  }

  /** A non-negative value rounds to a non-negative value. */
  lemma Round3NonNegative(x: real)
    requires x >= 0.0
    ensures Round3(x) >= 0.0
  {
    Round3Monotone(0.0, x);
    Round3Milli(0);
  }

  // ---------------------------------------------------------------------------
  // float(text)
  // ---------------------------------------------------------------------------

  predicate IsDigit(c: char) { '0' <= c <= '9' }

  predicate AllDigits(s: string) { forall i :: 0 <= i < |s| ==> IsDigit(s[i]) }

  /** The number of leading decimal digits. */
  function DigitRun(s: string): (n: nat)
    ensures n <= |s| && AllDigits(s[..n]) && (n < |s| ==> !IsDigit(s[n]))
  {
    if s != [] && IsDigit(s[0]) then
      var n := 1 + DigitRun(s[1..]);
      assert forall i :: 1 <= i < n ==> s[..n][i] == s[1..][..n - 1][i - 1];
      n
    else 0
  }

  /** The value of one decimal digit. */
  function Digit(c: char): (n: nat)
    requires IsDigit(c)
    ensures n <= 9
  {
    c as int - '0' as int
  }

  /** The natural number a string of decimal digits spells. */
  function DigitsValue(s: string): nat
    requires AllDigits(s)
  {
    if s == [] then 0 else 10 * DigitsValue(s[..|s| - 1]) + Digit(s[|s| - 1])
  }

  lemma DigitsValueOne(d: string)
    requires |d| == 1 && AllDigits(d)
    ensures DigitsValue(d) == Digit(d[0])
  {
    assert d[..0] == [];
  }

  lemma DigitsValueTwo(d: string)
    requires |d| == 2 && AllDigits(d)
    ensures DigitsValue(d) == 10 * Digit(d[0]) + Digit(d[1])
  {
    DigitsValueOne(d[..1]);
  }

  lemma DigitsValueThree(d: string)
    requires |d| == 3 && AllDigits(d)
    ensures DigitsValue(d) == 100 * Digit(d[0]) + 10 * Digit(d[1]) + Digit(d[2])
  {
    DigitsValueTwo(d[..2]);
  }

  lemma DigitsValueFour(d: string)
    requires |d| == 4 && AllDigits(d)
    ensures DigitsValue(d) == 1000 * Digit(d[0]) + 100 * Digit(d[1]) + 10 * Digit(d[2]) + Digit(d[3])
  {
    DigitsValueThree(d[..3]);
  }

  function Pow10(n: nat): (r: nat)
    ensures r >= 1
  {
    if n == 0 then 1 else 10 * Pow10(n - 1)
  }

  /** x scaled by 10 to the power e. */
  function Scale(x: real, e: int): real
  {
    if e >= 0 then x * Pow10(e) as real else x / Pow10(-e) as real
  }

  /** The value of a literal with integer digits w, fraction digits f of length k, exponent e. */
  function Magnitude(w: nat, f: nat, k: nat, e: int): real
  {
    Scale(w as real + f as real / Pow10(k) as real, e)
  }

  lemma MagnitudeNoExponent(w: nat, f: nat, k: nat)
    ensures Magnitude(w, f, k, 0) == w as real + f as real / Pow10(k) as real
  {
    assert Pow10(0) == 1;
  }

  /** The exponent part of a literal: nothing, or e/E, an optional sign and digits. */
  function ParseExponent(t: string): (r: Option<int>)
    ensures t == [] ==> r == Some(0)
  {
    if t == [] then Some(0)
    else if t[0] != 'e' && t[0] != 'E' then None
    else
      var u := t[1..];
      var neg := u != [] && u[0] == '-';
      var ds := if u != [] && (u[0] == '-' || u[0] == '+') then u[1..] else u;
      if ds == [] || !AllDigits(ds) then None
      else
        var v: int := DigitsValue(ds);
        Some(if neg then -v else v)
  }

  /** A literal cut into its sign, integer digits, fraction digits and what follows. */
  datatype Literal = Literal(neg: bool, whole: string, frac: string, exponent: string)

  /** The leading sign, if any. */
  function Unsigned(s: string): string
  {
    if s != [] && (s[0] == '-' || s[0] == '+') then s[1..] else s
  }

  function Cut(s: string): (l: Literal)
    ensures AllDigits(l.whole) && AllDigits(l.frac)
  {
    var neg := s != [] && s[0] == '-';
    var body := Unsigned(s);
    var i := DigitRun(body);
    var rest := body[i..];
    if rest != [] && rest[0] == '.' then
      var j := DigitRun(rest[1..]);
      Literal(neg, body[..i], rest[1..][..j], rest[1..][j..])
    else Literal(neg, body[..i], [], rest)
  }

  /**
   * float(s) for a text with no surrounding whitespace: an optional sign,
   * digits with an optional decimal point (at least one digit in all) and an
   * optional exponent; anything else raises ValueError, None here.
   */
  function ParseDecimal(s: string): (r: Option<real>)
  {
    var l := Cut(s);
    if |l.whole| + |l.frac| == 0 then None
    else
      match ParseExponent(l.exponent)
      case None => None
      case Some(e) =>
        var mag := Magnitude(DigitsValue(l.whole), DigitsValue(l.frac), |l.frac|, e);
        Some(if l.neg then -mag else mag)
  }

  /** The digit run of a + t is a's digits and then t's. */
  lemma {:induction false} DigitRunConcat(a: string, t: string)
    requires AllDigits(a)
    ensures DigitRun(a + t) == |a| + DigitRun(t)
  {
    if a != [] {
      assert (a + t)[1..] == a[1..] + t;
      DigitRunConcat(a[1..], t);
    } else {
      assert a + t == t;
    }
  }

  /** A string of digits reads as the natural number it spells. */
  lemma ParseNatural(d: string)
    requires d != [] && AllDigits(d)
    ensures ParseDecimal(d) == Some(DigitsValue(d) as real)
  {
    DigitRunConcat(d, []);
    assert d + [] == d;
    var l := Cut(d);
    assert l.whole == d && l.frac == [] && l.exponent == [];
    assert Pow10(0) == 1;
    assert Magnitude(DigitsValue(d), 0, 0, 0) == DigitsValue(d) as real;
  }

  /** a.b is cut into its integer digits a and fraction digits b. */
  lemma CutFixedPoint(a: string, b: string)
    requires AllDigits(a) && AllDigits(b)
    ensures Cut(a + "." + b) == Literal(false, a, b, [])
  {
    var s := a + "." + b;
    assert Unsigned(s) == s by {
      if a == [] { assert s[0] == '.'; } else { assert s[0] == a[0]; }
    }
    assert s == a + ("." + b);
    DigitRunConcat(a, "." + b);
    assert s[|a|..] == "." + b;
    assert s[..|a|] == a;
    DigitRunConcat(b, []);
    assert b + [] == b;
  }

  /**
   * A fixed-point literal a.b reads as a plus b shifted right by its length:
   * "2.50" is 2 + 50/100.
   */
  lemma ParseFixedPoint(a: string, b: string)
    requires AllDigits(a) && AllDigits(b) && |a| + |b| > 0
    ensures ParseDecimal(a + "." + b).Some?
    ensures ParseDecimal(a + "." + b).value == DigitsValue(a) as real + DigitsValue(b) as real / Pow10(|b|) as real
  {
    var s := a + "." + b;
    CutFixedPoint(a, b);
    var l := Cut(s);
    assert ParseExponent(l.exponent) == Some(0);
    assert ParseDecimal(s) == Some(Magnitude(DigitsValue(a), DigitsValue(b), |b|, 0));
    MagnitudeNoExponent(DigitsValue(a), DigitsValue(b), |b|);
  }

  /** A minus sign negates the value of an unsigned literal. */
  lemma ParseNegative(t: string)
    requires t == [] || (t[0] != '-' && t[0] != '+')
    ensures ParseDecimal("-" + t).Some? <==> ParseDecimal(t).Some?
    ensures ParseDecimal(t).Some? ==> ParseDecimal("-" + t).value == -ParseDecimal(t).value
  {
    assert Unsigned("-" + t) == t;
    assert Unsigned(t) == t;
    var l1, l2 := Cut("-" + t), Cut(t);
    assert l1 == l2.(neg := true);
  }
}
