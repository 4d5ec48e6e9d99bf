/**
 * The text-entry helpers of the measurement wizard: parse_float_pl reads a
 * number typed with a decimal comma and thousands spaces, parse_rows reads a
 * pasted table of bench readings, one reading per line.
 */
module WizardParse {
  import opened Wrappers
  import opened PyText
  import opened PyNum

  // ---------------------------------------------------------------------------
  // parse_float_pl
  // ---------------------------------------------------------------------------

  /** Drops spaces and no-break spaces and turns decimal commas into points. */
  function CleanChars(s: string): (r: string)
    ensures |r| <= |s|
  {
    if s == [] then []
    else
      var rest := CleanChars(s[1..]);
      if s[0] == ' ' || s[0] == '\U{A0}' then rest
      else if s[0] == ',' then ['.'] + rest
      else [s[0]] + rest
  }

  lemma {:induction false} CleanCharsConcat(a: string, b: string)
    ensures CleanChars(a + b) == CleanChars(a) + CleanChars(b)
  {
    if a != [] {
      assert (a + b)[1..] == a[1..] + b;
      CleanCharsConcat(a[1..], b);
    } else {
      assert a + b == b;
    }
  }

  /** The cleaned text has no spaces, no-break spaces or commas left. */
  lemma {:induction false} CleanCharsSpec(s: string)
    ensures forall i :: 0 <= i < |CleanChars(s)| ==> CleanChars(s)[i] != ' ' && CleanChars(s)[i] != '\U{A0}' && CleanChars(s)[i] != ','
  {
    if s != [] {
      CleanCharsSpec(s[1..]);
    }
  }

  /** A text without spaces, no-break spaces and commas is left as it is. */
  lemma {:induction false} CleanCharsKeeps(s: string)
    requires forall i :: 0 <= i < |s| ==> s[i] != ' ' && s[i] != '\U{A0}' && s[i] != ','
    ensures CleanChars(s) == s
  {
    if s != [] {
      CleanCharsKeeps(s[1..]);
    }
  }

  /** The text parse_float_pl hands to float(). */
  function Clean(text: string): string
  {
    CleanChars(Strip(text))
  }

  predicate NoBorderSpace(s: string)
  {
    s == [] || (!IsSpace(s[0]) && !IsSpace(s[|s| - 1]))
  }

  /**
   * The cleaned text has no whitespace at its ends, so the whitespace that
   * float() itself would strip is already gone.
   */
  lemma CleanHasNoBorderSpace(text: string)
    ensures NoBorderSpace(Clean(text))
  {
    var t := Strip(text);
    StripSpec(text);
    if t != [] {
      var n := |t|;
      assert t == [t[0]] + t[1..];
      CleanCharsConcat([t[0]], t[1..]);
      var front := t[..n - 1];
      assert t == front + [t[n - 1]];
      CleanCharsConcat(front, [t[n - 1]]);
    }
  }

  /** parse_float_pl(text); None is the ValueError of float(). */
  function ParseFloatPl(text: string): Option<real>
  {
    ParseDecimal(Clean(text))
  }

  lemma CleanCommaAsPoint(a: string, b: string)
    ensures CleanChars(a + "," + b) == CleanChars(a + "." + b)
  {
    assert a + "," + b == a + ("," + b);
    assert a + "." + b == a + ("." + b);
    CleanCharsConcat(a, "," + b);
    CleanCharsConcat(",", b);
    CleanCharsConcat(a, "." + b);
    CleanCharsConcat(".", b);
  }

  /** A decimal comma reads exactly as a decimal point. */
  lemma DecimalComma(a: string, b: string)
    requires NoBorderSpace(a + "," + b)
    ensures ParseFloatPl(a + "," + b) == ParseFloatPl(a + "." + b)
  {
    var s, t := a + "," + b, a + "." + b;
    assert NoBorderSpace(t) by {
      assert |t| == |s|;
      assert t[0] == s[0] || (t[0] == '.' && s[0] == ',');
      assert t[|t| - 1] == s[|s| - 1] || (t[|t| - 1] == '.' && s[|s| - 1] == ',');
    }
    StripKeeps(s);
    StripKeeps(t);
    CleanCommaAsPoint(a, b);
  }

  lemma CleanDropsSeparator(a: string, sep: char, b: string)
    requires sep == ' ' || sep == '\U{A0}'
    ensures CleanChars(a + [sep] + b) == CleanChars(a + b)
  {
    CleanCharsConcat(a + [sep], b);
    CleanCharsConcat(a, [sep]);
    CleanCharsConcat(a, b);
  }

  /** A space or no-break space between the digits of a number is ignored. */
  lemma ThousandsSeparator(a: string, sep: char, b: string)
    requires sep == ' ' || sep == '\U{A0}'
    requires a != [] && b != [] && NoBorderSpace(a) && NoBorderSpace(b)
    ensures ParseFloatPl(a + [sep] + b) == ParseFloatPl(a + b)
  {
    var s, t := a + [sep] + b, a + b;
    assert s[0] == a[0] && s[|s| - 1] == b[|b| - 1];
    assert t[0] == a[0] && t[|t| - 1] == b[|b| - 1];
    StripKeeps(s);
    StripKeeps(t);
    CleanDropsSeparator(a, sep, b);
  }

  /** parse_float_pl("2,50") is 2.5. */
  lemma ParseFloatPlComma(a: string, b: string)
    requires a == "2" && b == "50"
    ensures ParseFloatPl(a + [','] + b) == Some(2.5)
  {
    ParseFloatPlFixed(a, ',', b);
    DigitsValueOne(a);
    DigitsValueTwo(b);
    assert DigitsValue(a) as real == 2.0 && DigitsValue(b) as real == 50.0;
    assert Pow10(|b|) as real == 100.0;
  }

  /** One space before and after a text with no whitespace at its ends is stripped. */
  lemma StripPadded(u: string)
    requires u != [] && NoBorderSpace(u)
    ensures Strip(" " + u + " ") == u
  {
    var s := " " + u + " ";
    var t := u + " ";
    assert s == [' '] + t;
    assert s[1..] == t;
    assert t[0] == u[0];
    assert TrimStart(t) == t;
    assert TrimStart(s) == t;
    assert t[|t| - 1] == ' ';
    assert t[..|t| - 1] == u;
    assert TrimEnd(u) == u;
  }

  /** No space, no-break space or comma: the characters clean leaves alone. */
  predicate Kept(s: string) { forall i :: 0 <= i < |s| ==> s[i] != ' ' && s[i] != '\U{A0}' && s[i] != ',' }

  /** w, a space, x, a comma, f: the space goes and the comma becomes a point. */
  lemma CleanGroupedDecimal(w: string, x: string, f: string)
    requires Kept(w) && Kept(x) && Kept(f)
    ensures CleanChars(w + " " + x + "," + f) == w + x + "." + f
  {
    CleanCharsKeeps(w);
    CleanCharsKeeps(x);
    CleanCharsKeeps(f);
    CleanCharsConcat(w + " " + x + ",", f);
    CleanCharsConcat(w + " " + x, ",");
    CleanCharsConcat(w + " ", x);
    CleanCharsConcat(w, " ");
    assert CleanChars(" ") == [] && CleanChars(",") == ['.'];
    assert CleanChars(w + " ") == w;
  }

  /** parse_float_pl(" 1 234,5 ") is 1234.5: padding stripped, the grouping space dropped, the comma a point. */
  lemma ParseFloatPlThousands(w: string, x: string, f: string)
    requires w == "1" && x == "234" && f == "5"
    ensures ParseFloatPl(" " + (w + " " + x + "," + f) + " ") == Some(1234.5)
  {
    CleanThousands(w, x, f);
    var d := w + x;
    assert d[0] == '1' && d[1] == '2' && d[2] == '3' && d[3] == '4';
    DecimalThousands(d, f);
  }

  lemma CleanThousands(w: string, x: string, f: string)
    requires w == "1" && x == "234" && f == "5"
    ensures Clean(" " + (w + " " + x + "," + f) + " ") == w + x + "." + f
  {
    var u := w + " " + x + "," + f;
    assert u[0] == '1' && u[|u| - 1] == '5';
    StripPadded(u);
    assert Kept(w) && Kept(x) && Kept(f);
    CleanGroupedDecimal(w, x, f);
  }

  lemma DecimalThousands(d: string, f: string)
    requires |d| == 4 && d[0] == '1' && d[1] == '2' && d[2] == '3' && d[3] == '4'
    requires |f| == 1 && f[0] == '5'
    ensures ParseDecimal(d + "." + f) == Some(1234.5)
  {
    assert AllDigits(d) && AllDigits(f);
    ParseFixedPoint(d, f);
    DigitsValueFour(d);
    DigitsValueOne(f);
    assert DigitsValue(d) as real == 1234.0 && DigitsValue(f) as real == 5.0;
    assert Pow10(|f|) as real == 10.0;
  }

  // ---------------------------------------------------------------------------
  // parse_rows
  // ---------------------------------------------------------------------------

  /** One reading: lift (mm, rounded to 0.001), flow (CFM), optional dp (inH2O) and swirl RPM. */
  datatype Row = Row(lift_mm: real, q_cfm: real, dp_inH2O: Option<real>, swirl_rpm: Option<real>)

  /** The checks a parsed row has to pass before it is kept. */
  predicate Acceptable(lift: real, q: real, dp: Option<real>, swirl: Option<real>)
  {
    lift >= 0.0 && q >= 0.0 && (dp.Some? ==> dp.value > 0.0) && (swirl.Some? ==> swirl.value >= 0.0)
  }

  /** What every kept row satisfies: the checks, with the lift on the 0.001 mm grid. */
  predicate RowValid(r: Row)
  {
    Acceptable(r.lift_mm, r.q_cfm, r.dp_inH2O, r.swirl_rpm) && Round3(r.lift_mm) == r.lift_mm
  }

  predicate IsSemicolon(c: char) { c == ';' }

  function StripAll(ps: seq<string>): (r: seq<string>)
    ensures |r| == |ps| && forall i :: 0 <= i < |ps| ==> r[i] == Strip(ps[i])
  {
    seq(|ps|, i requires 0 <= i < |ps| => Strip(ps[i]))
  }

  /**
   * The cells of a line: with a ';' the line is split at every ';' and each
   * cell stripped, empty cells kept; otherwise it is split at whitespace.
   */
  function Cells(line: string): seq<string>
  {
    if Contains(line, ';') then StripAll(SplitWhere(line, IsSemicolon)) else Fields(line)
  }

  /** With a ';' there is one cell more than there are semicolons: rejoined, the cells give the line back, each cell stripped. */
  lemma SemicolonCells(line: string)
    requires Contains(line, ';')
    ensures |Cells(line)| == |SplitWhere(line, IsSemicolon)|
    ensures Join(SplitWhere(line, IsSemicolon), ';') == line
    ensures forall i :: 0 <= i < |Cells(line)| ==> Cells(line)[i] == Strip(SplitWhere(line, IsSemicolon)[i])
  {
    JoinSplit(line, IsSemicolon, ';');
  }

  /** parts[:4] */
  function Take4(ps: seq<string>): (r: seq<string>)
    ensures |r| == if |ps| > 4 then 4 else |ps|
    ensures r == ps[..|r|]
  {
    if |ps| > 4 then ps[..4] else ps
  }

  /** An optional cell: missing or blank is Some(None), a number Some(Some(x)), anything else None. */
  function OptionalCell(parts: seq<string>, i: nat): (r: Option<Option<real>>)
    ensures i >= |parts| ==> r == Some(None)
  {
    if i < |parts| && Strip(parts[i]) != "" then
      match ParseFloatPl(parts[i])
      case None => None
      case Some(x) => Some(Some(x))
    else Some(None)
  }

  /** The row read from at most four cells, or None when parsing or a check fails. */
  function RowOfCells(parts: seq<string>): (r: Option<Row>)
    ensures r.Some? ==> RowValid(r.value)
    ensures r.Some? ==> |parts| >= 2 && ParseFloatPl(parts[0]).Some? && ParseFloatPl(parts[1]).Some?
    ensures r.Some? ==> r.value.lift_mm == Round3(ParseFloatPl(parts[0]).value) && r.value.q_cfm == ParseFloatPl(parts[1]).value
  {
    if |parts| < 2 then None
    else
      match (ParseFloatPl(parts[0]), ParseFloatPl(parts[1]), OptionalCell(parts, 2), OptionalCell(parts, 3))
      case (Some(lift), Some(q), Some(dp), Some(swirl)) =>
        if Acceptable(lift, q, dp, swirl) then
          Round3NonNegative(lift);
          Round3Idempotent(lift);
          Some(Row(Round3(lift), q, dp, swirl))
        else None
      case _ => None
  }

  /** One line of the table: blank lines, short lines and bad rows give None. */
  function ParseLine(raw: string): (r: Option<Row>)
    ensures r.Some? ==> RowValid(r.value)
    ensures Strip(raw) == [] ==> r.None?
  {
    var line := Strip(raw);
    if line == [] then None else RowOfCells(Take4(Cells(line)))
  }

  /** The lines of a text, split at every line break. */
  function Lines(text: string): seq<string>
  {
    SplitWhere(text, IsLineBreak)
  }

  /** The rows of the lines that parse, in line order. */
  function RowsOf(lines: seq<string>): (r: seq<Row>)
    ensures |r| <= |lines|
  {
    if lines == [] then []
    else
      var front := RowsOf(lines[..|lines| - 1]);
      match ParseLine(lines[|lines| - 1])
      case Some(row) => front + [row]
      case None => front
  }

  /** Every row parse_rows keeps passed the checks and has its lift on the 0.001 mm grid. */
  lemma {:induction false} RowsOfValid(lines: seq<string>)
    ensures forall i :: 0 <= i < |RowsOf(lines)| ==> RowValid(RowsOf(lines)[i])
  {
    if lines != [] {
      RowsOfValid(lines[..|lines| - 1]);
    }
  }

  /** The rows of consecutive blocks of lines are the rows of each block, in order. */
  lemma {:induction false} RowsOfConcat(a: seq<string>, b: seq<string>)
    ensures RowsOf(a + b) == RowsOf(a) + RowsOf(b)
  {
    if b == [] {
      assert a + b == a;
    } else {
      var b' := b[..|b| - 1];
      assert (a + b)[..|a + b| - 1] == a + b';
      assert (a + b)[|a + b| - 1] == b[|b| - 1];
      RowsOfConcat(a, b');
    }
  }

  /** A single line contributes its row if it parses and nothing otherwise. */
  lemma RowsOfOne(line: string)
    ensures RowsOf([line]) == (if ParseLine(line).Some? then [ParseLine(line).value] else [])
  {
    assert [line][..0] == [];
  }

  /** One more line adds its row, if it has one, at the end. */
  lemma RowsOfStep(lines: seq<string>, i: nat)
    requires i < |lines|
    ensures ParseLine(lines[i]).Some? ==> RowsOf(lines[..i + 1]) == RowsOf(lines[..i]) + [ParseLine(lines[i]).value]
    ensures ParseLine(lines[i]).None? ==> RowsOf(lines[..i + 1]) == RowsOf(lines[..i])
  {
    var p := lines[..i + 1];
    assert p[..|p| - 1] == lines[..i];
    assert p[|p| - 1] == lines[i];
  }

  /** parse_rows(text). */
  method ParseRows(text: string) returns (rows: seq<Row>)
    ensures rows == RowsOf(Lines(text))
  {
    var lines := Lines(text);
    rows := [];
    var i := 0;
    while i < |lines|
      invariant 0 <= i <= |lines|
      invariant rows == RowsOf(lines[..i])
    {
      RowsOfStep(lines, i);
      var row := ParseLine(lines[i]);
      if row.Some? {
        rows := rows + [row.value];
      }
      i := i + 1;
    }
    assert lines[..i] == lines;
  }

  /** A plain string of digits reads as the number it spells. */
  lemma ParseFloatPlNatural(d: string)
    requires d != [] && AllDigits(d)
    ensures ParseFloatPl(d) == Some(DigitsValue(d) as real)
  {
    StripKeeps(d);
    CleanCharsKeeps(d);
    ParseNatural(d);
  }

  /** Digits, a decimal comma or point, digits: a + b/10^|b|. */
  lemma ParseFloatPlFixed(a: string, sep: char, b: string)
    requires sep == ',' || sep == '.'
    requires AllDigits(a) && AllDigits(b) && |a| + |b| > 0
    ensures ParseFloatPl(a + [sep] + b).Some?
    ensures ParseFloatPl(a + [sep] + b).value == DigitsValue(a) as real + DigitsValue(b) as real / Pow10(|b|) as real
  {
    var s := a + [sep] + b;
    assert s[0] == (if a == [] then sep else a[0]);
    assert s[|s| - 1] == (if b == [] then sep else b[|b| - 1]);
    StripKeeps(s);
    CleanCharsConcat(a + [sep], b);
    CleanCharsConcat(a, [sep]);
    assert CleanChars([sep]) == ['.'] by {
      assert [sep][1..] == [];
    }
    CleanCharsKeeps(a);
    CleanCharsKeeps(b);
    assert CleanChars(a + [sep]) == a + ['.'];
    assert Clean(s) == a + ['.'] + b;
    assert a + ['.'] + b == a + "." + b;
    ParseFixedPoint(a, b);
  }

  /** Visible ASCII characters, none of which is whitespace. */
  predicate Visible(s: string) { forall i :: 0 <= i < |s| ==> '!' <= s[i] <= '~' }

  /** Three visible words separated by single spaces are three fields. */
  lemma FieldsThree(a: string, b: string, c: string)
    requires a != [] && b != [] && c != []
    requires Visible(a) && Visible(b) && Visible(c)
    ensures Fields(a + " " + b + " " + c) == [a, b, c]
  {
    assert a + " " + b + " " + c == a + [' '] + (b + [' '] + c);
    SplitFirstSeparator(a, ' ', b + [' '] + c, IsSpace);
    SplitFirstSeparator(b, ' ', c, IsSpace);
    SplitNoSeparator(c, IsSpace);
    NonEmptyKeeps([a, b, c]);
  }

  predicate NoSemicolon(s: string) { forall i :: 0 <= i < |s| ==> s[i] != ';' }

  lemma SplitTwo(c: string, d: string)
    requires NoSemicolon(c) && NoSemicolon(d)
    ensures SplitWhere(c + ";" + d, IsSemicolon) == [c, d]
  {
    var s := c + ";" + d;
    assert s == c + [';'] + d;
    SplitFirstSeparator(c, ';', d, IsSemicolon);
    SplitNoSeparator(d, IsSemicolon);
    assert [c] + [d] == [c, d];
  }

  lemma SplitThree(b: string, c: string, d: string)
    requires NoSemicolon(b) && NoSemicolon(c) && NoSemicolon(d)
    ensures SplitWhere(b + ";" + c + ";" + d, IsSemicolon) == [b, c, d]
  {
    var rest := c + ";" + d;
    var s := b + ";" + c + ";" + d;
    assert s == b + [';'] + rest;
    SplitFirstSeparator(b, ';', rest, IsSemicolon);
    SplitTwo(c, d);
    assert [b] + [c, d] == [b, c, d];
  }

  /** Four cells separated by semicolons split into those four cells. */
  lemma SplitFour(a: string, b: string, c: string, d: string)
    requires NoSemicolon(a) && NoSemicolon(b) && NoSemicolon(c) && NoSemicolon(d)
    ensures SplitWhere(a + ";" + b + ";" + c + ";" + d, IsSemicolon) == [a, b, c, d]
  {
    var rest := b + ";" + c + ";" + d;
    var s := a + ";" + b + ";" + c + ";" + d;
    assert s == a + [';'] + rest;
    SplitFirstSeparator(a, ';', rest, IsSemicolon);
    SplitThree(b, c, d);
    assert [a] + [b, c, d] == [a, b, c, d];
  }

  /** A single leading space is stripped from a visible word. */
  lemma StripLeadingSpace(w: string)
    requires w != [] && Visible(w)
    ensures Strip(" " + w) == w
  {
    assert (" " + w)[1..] == w;
    StripKeeps(w);
  }

  /** One digit, a decimal comma or point, one digit. */
  lemma FixedOneOne(a: string, sep: char, b: string)
    requires sep == ',' || sep == '.'
    requires |a| == 1 && |b| == 1 && AllDigits(a) && AllDigits(b)
    ensures ParseFloatPl(a + [sep] + b) == Some(Digit(a[0]) as real + Digit(b[0]) as real / 10.0)
  {
    ParseFloatPlFixed(a, sep, b);
    DigitsValueOne(a);
    DigitsValueOne(b);
    assert Pow10(|b|) as real == 10.0;
    assert DigitsValue(b) as real / Pow10(|b|) as real == Digit(b[0]) as real / 10.0;
  }

  /** "2,0" reads as 2. */
  lemma TwoCommaZero()
    ensures ParseFloatPl("2" + [','] + "0") == Some(2.0)
  {
    FixedOneOne("2", ',', "0");
  }

  lemma TextsOfExamples()
    ensures "2" + [','] + "0" == "2,0" && "3" + ['.'] + "5" == "3.5"
  {
  }

  /** "3.5" reads as 3.5. */
  lemma ThreePointFive()
    ensures ParseFloatPl("3" + ['.'] + "5") == Some(3.5)
  {
    FixedOneOne("3", '.', "5");
  }

  lemma Float180()
    ensures ParseFloatPl("180") == Some(180.0)
  {
    DigitsValueThree("180");
    ParseFloatPlNatural("180");
  }

  lemma Float220()
    ensures ParseFloatPl("220") == Some(220.0)
  {
    DigitsValueThree("220");
    ParseFloatPlNatural("220");
  }

  lemma Float28()
    ensures ParseFloatPl("28") == Some(28.0) && Strip("28") == "28"
  {
    DigitsValueTwo("28");
    ParseFloatPlNatural("28");
    StripKeeps("28");
  }

  lemma Float900()
    ensures ParseFloatPl("900") == Some(900.0) && Strip("900") == "900"
  {
    DigitsValueThree("900");
    ParseFloatPlNatural("900");
    StripKeeps("900");
  }

  lemma Round3Examples()
    ensures Round3(2.0) == 2.0 && Round3(3.5) == 3.5
  {
    Round3Milli(2000);
    Round3Milli(3500);
  }

  /** A row is kept whenever its first two cells and its optional cells parse and the checks pass. */
  lemma RowOfCellsAccepts(parts: seq<string>, lift: real, q: real, dp: Option<real>, swirl: Option<real>)
    requires |parts| >= 2 && ParseFloatPl(parts[0]) == Some(lift) && ParseFloatPl(parts[1]) == Some(q)
    requires OptionalCell(parts, 2) == Some(dp) && OptionalCell(parts, 3) == Some(swirl)
    requires Acceptable(lift, q, dp, swirl)
    ensures RowOfCells(parts) == Some(Row(Round3(lift), q, dp, swirl))
  {
  }

  /** A present, non-blank optional cell holding a number. */
  lemma OptionalNumber(parts: seq<string>, i: nat, x: real)
    requires i < |parts| && Strip(parts[i]) != [] && ParseFloatPl(parts[i]) == Some(x)
    ensures OptionalCell(parts, i) == Some(Some(x))
  {
  }

  lemma CellsOfSpaces()
    ensures Cells("2,0 180 28") == ["2,0", "180", "28"]
  {
    var line := "2,0 180 28";
    assert !Contains(line, ';') by {
      assert forall i :: 0 <= i < |line| ==> line[i] != ';';
    }
    assert line == "2,0" + " " + "180" + " " + "28";
    FieldsThree("2,0", "180", "28");
  }

  lemma RowOfSpaces(x: string, y: string, z: string)
    requires x == "2" + [','] + "0" && y == "180" && z == "28"
    ensures RowOfCells([x, y, z]) == Some(Row(2.0, 180.0, Some(28.0), None))
  {
    TwoCommaZero();
    Float180();
    Float28();
    Round3Examples();
    OptionalNumber([x, y, z], 2, 28.0);
    RowOfCellsAccepts([x, y, z], 2.0, 180.0, Some(28.0), None);
  }

  /** "2,0 180 28" is lift 2, flow 180, dp 28 and no swirl. */
  lemma ParseLineSpaces()
    ensures ParseLine("2,0 180 28") == Some(Row(2.0, 180.0, Some(28.0), None))
  {
    StripKeeps("2,0 180 28");
    CellsOfSpaces();
    TextsOfExamples();
    RowOfSpaces("2,0", "180", "28");
  }

  lemma StripOfSemicolonCells()
    ensures Strip("3.5") == "3.5" && Strip(" 220") == "220" && Strip(" ") == "" && Strip(" 900") == "900"
  {
    StripKeeps("3.5");
    StripLeadingSpace("220");
    StripLeadingSpace("900");
    assert " "[1..] == "";
  }

  lemma SplitOfSemicolons(line: string)
    requires line == "3.5; 220; ; 900"
    ensures SplitWhere(line, IsSemicolon) == ["3.5", " 220", " ", " 900"]
  {
    assert line == "3.5" + ";" + " 220" + ";" + " " + ";" + " 900";
    SplitFour("3.5", " 220", " ", " 900");
  }

  lemma CellsOfSemicolons(line: string)
    requires line == "3.5; 220; ; 900"
    ensures Cells(line) == ["3.5", "220", "", "900"]
  {
    assert Contains(line, ';') by { assert line[3] == ';'; }
    var ps := SplitWhere(line, IsSemicolon);
    SplitOfSemicolons(line);
    StripOfSemicolonCells();
    assert StripAll(ps) == [Strip(ps[0]), Strip(ps[1]), Strip(ps[2]), Strip(ps[3])];
  }

  lemma RowOfSemicolons(w: string, x: string, y: string, z: string)
    requires w == "3" + ['.'] + "5" && x == "220" && y == "" && z == "900"
    ensures RowOfCells([w, x, y, z]) == Some(Row(3.5, 220.0, None, Some(900.0)))
  {
    ThreePointFive();
    Float220();
    Float900();
    Round3Examples();
    assert Strip(y) == [];
    OptionalNumber([w, x, y, z], 3, 900.0);
    RowOfCellsAccepts([w, x, y, z], 3.5, 220.0, None, Some(900.0));
  }

  /** "3.5; 220; ; 900" keeps the empty third cell: no dp, swirl 900. */
  lemma ParseLineSemicolons()
    ensures ParseLine("3.5; 220; ; 900") == Some(Row(3.5, 220.0, None, Some(900.0)))
  {
    StripKeeps("3.5; 220; ; 900");
    CellsOfSemicolons("3.5; 220; ; 900");
    TextsOfExamples();
    RowOfSemicolons("3.5", "220", "", "900");
  }
}
