/**
 * The few Python `str` builtins the wizard relies on: isspace, strip,
 * split on a separator, split on whitespace and lower (ASCII letters).
 */
module PyText {

  /** str.isspace() for one character: the Unicode whitespace of Python 3. */
  predicate IsSpace(c: char)
  {
    || c == ' ' || ('\t' <= c <= '\r') || ('\U{1C}' <= c <= '\U{1F}')
    || c == '\U{85}' || c == '\U{A0}' || c == '\U{1680}'
    || ('\U{2000}' <= c <= '\U{200A}') || c == '\U{2028}' || c == '\U{2029}'
    || c == '\U{202F}' || c == '\U{205F}' || c == '\U{3000}'
  }

  /** The characters at which str.splitlines() breaks a text. */
  predicate IsLineBreak(c: char)
  {
    || ('\n' <= c <= '\r') || ('\U{1C}' <= c <= '\U{1E}')
    || c == '\U{85}' || c == '\U{2028}' || c == '\U{2029}'
  }

  /** Every line break is whitespace, so stripping a piece removes stray breaks. */
  lemma LineBreakIsSpace(c: char)
    requires IsLineBreak(c)
    ensures IsSpace(c)
  {
  }

  /** s.lstrip() */
  function TrimStart(s: string): (r: string)
    ensures |r| <= |s|
  {
    if s != [] && IsSpace(s[0]) then TrimStart(s[1..]) else s
  }

  /** s.rstrip() */
  function TrimEnd(s: string): (r: string)
    ensures |r| <= |s|
  {
    if s != [] && IsSpace(s[|s| - 1]) then TrimEnd(s[..|s| - 1]) else s
  }

  /** lstrip leaves the suffix after the leading whitespace. */
  lemma {:induction false} TrimStartSpec(s: string)
    ensures TrimStart(s) == s[|s| - |TrimStart(s)|..]
    ensures TrimStart(s) == [] || !IsSpace(TrimStart(s)[0])
    ensures forall i :: 0 <= i < |s| - |TrimStart(s)| ==> IsSpace(s[i])
  {
    if s != [] && IsSpace(s[0]) {
      TrimStartSpec(s[1..]);
      var r := TrimStart(s[1..]);
      assert forall i :: 1 <= i < |s| - |r| ==> s[i] == s[1..][i - 1];
    }
  }

  /** rstrip leaves the prefix before the trailing whitespace. */
  lemma {:induction false} TrimEndSpec(s: string)
    ensures TrimEnd(s) == s[..|TrimEnd(s)|]
    ensures TrimEnd(s) == [] || !IsSpace(TrimEnd(s)[|TrimEnd(s)| - 1])
    ensures forall i :: |TrimEnd(s)| <= i < |s| ==> IsSpace(s[i])
  {
    if s != [] && IsSpace(s[|s| - 1]) {
      TrimEndSpec(s[..|s| - 1]);
      var r := TrimEnd(s[..|s| - 1]);
      assert forall i :: |r| <= i < |s| - 1 ==> s[i] == s[..|s| - 1][i];
    }
  }

  /** s.strip() */
  function Strip(s: string): (r: string)
    ensures |r| <= |s|
  {
    TrimEnd(TrimStart(s))
  }

  /** strip leaves a slice of s with no whitespace at either end and cuts only whitespace. */
  lemma StripSpec(s: string)
    ensures Strip(s) == [] || (!IsSpace(Strip(s)[0]) && !IsSpace(Strip(s)[|Strip(s)| - 1]))
    ensures |s| - |TrimStart(s)| + |Strip(s)| <= |s|
    ensures Strip(s) == s[|s| - |TrimStart(s)|..|s| - |TrimStart(s)| + |Strip(s)|]
    ensures forall i :: 0 <= i < |s| - |TrimStart(s)| ==> IsSpace(s[i])
    ensures forall i :: |s| - |TrimStart(s)| + |Strip(s)| <= i < |s| ==> IsSpace(s[i])
  {
    var t := TrimStart(s);
    var a := |s| - |t|;
    var r := TrimEnd(t);
    TrimStartSpec(s);
    TrimEndSpec(t);
    assert t == s[a..];
    assert r == s[a..a + |r|] by {
      assert r == t[..|r|];
      assert s[a..][..|r|] == s[a..a + |r|];
    }
    assert forall i :: a + |r| <= i < |s| ==> IsSpace(s[i]) by {
      forall i | a + |r| <= i < |s| ensures IsSpace(s[i]) {
        assert s[i] == t[i - a];
      }
    }
  }

  /** A text with no whitespace at its ends is its own strip. */
  lemma StripKeeps(s: string)
    requires s == [] || (!IsSpace(s[0]) && !IsSpace(s[|s| - 1]))
    ensures Strip(s) == s
  {
  }

  /** Stripping twice is stripping once. */
  lemma StripIdempotent(s: string)
    ensures Strip(Strip(s)) == Strip(s)
  {
    StripSpec(s);
    StripKeeps(Strip(s));
  }

  /** A text made of whitespace only strips to the empty text, and only such a text does. */
  lemma StripEmpty(s: string)
    ensures Strip(s) == [] <==> forall i :: 0 <= i < |s| ==> IsSpace(s[i])
  {
    StripSpec(s);
    var k := |s| - |TrimStart(s)|;
    if Strip(s) != [] {
      assert s[k] == Strip(s)[0];
    }
  }

  /**
   * str.split(sep) generalised to a set of separator characters: the pieces
   * between separators, empty pieces included, so there is always one more
   * piece than separators.
   */
  function SplitWhere(s: string, sep: char -> bool): (r: seq<string>)
    ensures |r| >= 1
  {
    if s == [] then [[]]
    else
      var rest := SplitWhere(s[1..], sep);
      if sep(s[0]) then [[]] + rest
      else [[s[0]] + rest[0]] + rest[1..]
  }

  /** No piece contains a separator. */
  lemma {:induction false} SplitPieces(s: string, sep: char -> bool)
    ensures forall i, j :: 0 <= i < |SplitWhere(s, sep)| && 0 <= j < |SplitWhere(s, sep)[i]| ==> !sep(SplitWhere(s, sep)[i][j])
  {
    if s != [] {
      SplitPieces(s[1..], sep);
      var rest := SplitWhere(s[1..], sep);
      var r := SplitWhere(s, sep);
      if !sep(s[0]) {
        assert forall i :: 1 <= i < |r| ==> r[i] == rest[i];
        assert forall j :: 1 <= j < |r[0]| ==> r[0][j] == rest[0][j - 1];
      }
    }
  }

  /** A text without separators is a single piece. */
  lemma {:induction false} SplitNoSeparator(a: string, sep: char -> bool)
    requires forall i :: 0 <= i < |a| ==> !sep(a[i])
    ensures SplitWhere(a, sep) == [a]
  {
    if a != [] {
      SplitNoSeparator(a[1..], sep);
      assert a == [a[0]] + a[1..];
    }
  }

  /** The first piece ends at the first separator. */
  lemma {:induction false} SplitFirstSeparator(a: string, c: char, b: string, sep: char -> bool)
    requires forall i :: 0 <= i < |a| ==> !sep(a[i])
    requires sep(c)
    ensures SplitWhere(a + [c] + b, sep) == [a] + SplitWhere(b, sep)
  {
    if a == [] {
      assert a + [c] + b == [c] + b;
      assert ([c] + b)[1..] == b;
    } else {
      var s := a + [c] + b;
      assert s[1..] == a[1..] + [c] + b;
      SplitFirstSeparator(a[1..], c, b, sep);
      assert a == [a[0]] + a[1..];
    }
  }

  /** sep.join(parts) for a one-character separator. */
  function Join(parts: seq<string>, c: char): string
    requires |parts| >= 1
  {
    if |parts| == 1 then parts[0] else parts[0] + [c] + Join(parts[1..], c)
  }

  /** Prepending a character to the first piece prepends it to the joined text. */
  lemma JoinCons(x: char, rest: seq<string>, c: char)
    requires |rest| >= 1
    ensures Join([[x] + rest[0]] + rest[1..], c) == [x] + Join(rest, c)
  {
    var r := [[x] + rest[0]] + rest[1..];
    assert r[0] == [x] + rest[0] && r[1..] == rest[1..];
    if |rest| > 1 {
      assert Join(rest, c) == rest[0] + [c] + Join(rest[1..], c);
      assert ([x] + rest[0]) + [c] + Join(rest[1..], c) == [x] + (rest[0] + [c] + Join(rest[1..], c));
    }
  }

  /** An empty first piece joins to a leading separator. */
  lemma JoinEmptyFirst(rest: seq<string>, c: char)
    requires |rest| >= 1
    ensures Join([[]] + rest, c) == [c] + Join(rest, c)
  {
    var r := [[]] + rest;
    assert r[0] == [] && r[1..] == rest;
  }

  /** Joining the pieces of a split with the separator gives the text back. */
  lemma {:induction false} JoinSplit(s: string, sep: char -> bool, c: char)
    requires forall x :: sep(x) <==> x == c
    ensures Join(SplitWhere(s, sep), c) == s
  {
    if s != [] {
      var rest := SplitWhere(s[1..], sep);
      JoinSplit(s[1..], sep, c);
      if sep(s[0]) {
        JoinEmptyFirst(rest, c);
        assert s == [c] + s[1..];
      } else {
        JoinCons(s[0], rest, c);
        assert s == [s[0]] + s[1..];
      }
    }
  }

  /** The pieces that are not empty, in order. */
  function NonEmpty(ps: seq<string>): (r: seq<string>)
    ensures |r| <= |ps|
    ensures forall i :: 0 <= i < |r| ==> r[i] != [] && r[i] in ps
  {
    if ps == [] then []
    else
      var rest := NonEmpty(ps[1..]);
      if ps[0] == [] then rest else [ps[0]] + rest
  }

  /** Pieces that are all non-empty are all kept. */
  lemma {:induction false} NonEmptyKeeps(ps: seq<string>)
    requires forall i :: 0 <= i < |ps| ==> ps[i] != []
    ensures NonEmpty(ps) == ps
  {
    if ps != [] {
      NonEmptyKeeps(ps[1..]);
      assert ps == [ps[0]] + ps[1..];
    }
  }

  /** str.split() with no argument: the maximal runs of non-whitespace. */
  function Fields(s: string): seq<string>
  {
    NonEmpty(SplitWhere(s, IsSpace))
  }

  /** Every field is a non-empty run without whitespace. */
  lemma FieldsSpec(s: string)
    ensures forall i :: 0 <= i < |Fields(s)| ==> Fields(s)[i] != []
    ensures forall i, j :: 0 <= i < |Fields(s)| && 0 <= j < |Fields(s)[i]| ==> !IsSpace(Fields(s)[i][j])
  {
    var ps := SplitWhere(s, IsSpace);
    var r := NonEmpty(ps);
    SplitPieces(s, IsSpace);
    assert forall i :: 0 <= i < |r| ==> exists k :: 0 <= k < |ps| && r[i] == ps[k];
  }

  /** The texts one after the other. */
  function Concat(ps: seq<string>): string
  {
    if ps == [] then [] else ps[0] + Concat(ps[1..])
  }

  /** The characters of s that are not separators, in order. */
  function Remove(s: string, sep: char -> bool): (r: string)
    ensures forall j :: 0 <= j < |r| ==> !sep(r[j])
  {
    if s == [] then []
    else if sep(s[0]) then Remove(s[1..], sep)
    else [s[0]] + Remove(s[1..], sep)
  }

  lemma {:induction false} ConcatSplit(s: string, sep: char -> bool)
    ensures Concat(SplitWhere(s, sep)) == Remove(s, sep)
  {
    if s != [] {
      ConcatSplit(s[1..], sep);
      var rest := SplitWhere(s[1..], sep);
      if !sep(s[0]) {
        var r := SplitWhere(s, sep);
        assert r[1..] == rest[1..];
        assert Concat(rest) == rest[0] + Concat(rest[1..]);
      }
    }
  }

  lemma {:induction false} ConcatNonEmpty(ps: seq<string>)
    ensures Concat(NonEmpty(ps)) == Concat(ps)
  {
    if ps != [] {
      ConcatNonEmpty(ps[1..]);
    }
  }

  /**
   * The whitespace fields of a text, put back together, are exactly its
   * non-whitespace characters: nothing is lost or reordered but whitespace.
   */
  lemma FieldsKeepText(s: string)
    ensures Concat(Fields(s)) == Remove(s, IsSpace)
  {
    ConcatNonEmpty(SplitWhere(s, IsSpace));
    ConcatSplit(s, IsSpace);
  }

  /** c in s. */
  predicate Contains(s: string, c: char)
  {
    exists i :: 0 <= i < |s| && s[i] == c
  }

  /** str.lower() on ASCII letters; every other character is kept. */
  function Lower(s: string): (r: string)
    ensures |r| == |s|
    ensures forall i :: 0 <= i < |s| ==> r[i] == (if 'A' <= s[i] <= 'Z' then (s[i] as int + 32) as char else s[i])
  {
    seq(|s|, i requires 0 <= i < |s| => if 'A' <= s[i] <= 'Z' then (s[i] as int + 32) as char else s[i])
  }
}
