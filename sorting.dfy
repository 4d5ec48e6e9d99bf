/**
 * Python's sorted(), sum() and max() on lists of floats, as the head-flow
 * selection and the grid helpers of the wizard use them.
 */
module Sorting {
  import opened RealMath

  predicate SortedAsc(s: seq<real>)
  {
    forall i, j :: 0 <= i < j < |s| ==> s[i] <= s[j]
  }

  /** Insert x before the first element not smaller than it. */
  function Insert(x: real, s: seq<real>): (r: seq<real>)
    ensures |r| == |s| + 1
  {
    if s == [] then [x]
    else if x <= s[0] then [x] + s
    else [s[0]] + Insert(x, s[1..])
  }

  /** Insertion adds exactly x. */
  lemma {:induction false} InsertPerm(x: real, s: seq<real>)
    ensures multiset(Insert(x, s)) == multiset(s) + multiset{x}
  {
    if s != [] && x > s[0] {
      InsertPerm(x, s[1..]);
      assert s == [s[0]] + s[1..];
    }
  }

  /** Insertion into a sorted list keeps it sorted. */
  lemma {:induction false} InsertSorted(x: real, s: seq<real>)
    requires SortedAsc(s)
    ensures SortedAsc(Insert(x, s))
  {
    if s != [] && x > s[0] {
      var rest := Insert(x, s[1..]);
      InsertSorted(x, s[1..]);
      InsertPerm(x, s[1..]);
      forall k | 0 <= k < |rest| ensures s[0] <= rest[k] {
        assert rest[k] in multiset(rest);
        assert rest[k] in multiset(s[1..]) + multiset{x};
      }
    }
  }

  /** sorted(s), as an insertion sort. */
  function SortAsc(s: seq<real>): (r: seq<real>)
    ensures |r| == |s|
  {
    if s == [] then [] else Insert(s[0], SortAsc(s[1..]))
  }

  /** sorted(s) is ascending. */
  lemma {:induction false} SortAscSorted(s: seq<real>)
    ensures SortedAsc(SortAsc(s))
  {
    if s != [] {
      SortAscSorted(s[1..]);
      InsertSorted(s[0], SortAsc(s[1..]));
    }
  }

  /** sorted(s) is a permutation of s. */
  lemma {:induction false} SortAscPerm(s: seq<real>)
    ensures multiset(SortAsc(s)) == multiset(s)
  {
    if s != [] {
      SortAscPerm(s[1..]);
      InsertPerm(s[0], SortAsc(s[1..]));
      assert s == [s[0]] + s[1..];
    }
  }

  /** An ascending list is its own sorting. */
  lemma {:induction false} SortAscKeeps(s: seq<real>)
    requires SortedAsc(s)
    ensures SortAsc(s) == s
  {
    if s != [] {
      SortAscKeeps(s[1..]);
      assert s == [s[0]] + s[1..];
    }
  }

  function Sum(s: seq<real>): real
  {
    if s == [] then 0.0 else Sum(s[..|s| - 1]) + s[|s| - 1]
  }

  /** sum(s) / len(s) of a non-empty list. */
  function Mean(s: seq<real>): real
    requires |s| > 0
  {
    Sum(s) / |s| as real
  }

  /** max(s) of a non-empty list. */
  function SeqMax(s: seq<real>): real
    requires |s| > 0
  {
    if |s| == 1 then s[0]
    else
      var m := SeqMax(s[..|s| - 1]);
      if s[|s| - 1] > m then s[|s| - 1] else m
  }

  /** min(s) of a non-empty list. */
  function SeqMin(s: seq<real>): real
    requires |s| > 0
  {
    if |s| == 1 then s[0]
    else
      var m := SeqMin(s[..|s| - 1]);
      if s[|s| - 1] < m then s[|s| - 1] else m
  }

  /** max(s) is an element of s and no element exceeds it. */
  lemma {:induction false} SeqMaxIsMax(s: seq<real>)
    requires |s| > 0
    ensures SeqMax(s) in s && forall i :: 0 <= i < |s| ==> s[i] <= SeqMax(s)
  {
    if |s| > 1 {
      var front := s[..|s| - 1];
      SeqMaxIsMax(front);
      assert forall i :: 0 <= i < |front| ==> front[i] == s[i];
    }
  }

  /** min(s) is an element of s and no element is below it. */
  lemma {:induction false} SeqMinIsMin(s: seq<real>)
    requires |s| > 0
    ensures SeqMin(s) in s && forall i :: 0 <= i < |s| ==> SeqMin(s) <= s[i]
  {
    if |s| > 1 {
      var front := s[..|s| - 1];
      SeqMinIsMin(front);
      assert forall i :: 0 <= i < |front| ==> front[i] == s[i];
    }
  }

  /** f applied to every element. */
  function MapSeq(f: real -> real, s: seq<real>): (r: seq<real>)
    ensures |r| == |s| && forall i :: 0 <= i < |s| ==> r[i] == f(s[i])
  {
    seq(|s|, i requires 0 <= i < |s| => f(s[i]))
  }

  ghost predicate Increasing(f: real -> real)
  {
    forall x, y :: x < y ==> f(x) < f(y)
  }

  /** Multiplication by c. */
  function ScaleBy(c: real): real -> real
  {
    x => c * x
  }

  lemma ScaleByIncreasing(c: real)
    requires c > 0.0
    ensures Increasing(ScaleBy(c))
  {
    forall x, y | x < y ensures ScaleBy(c)(x) < ScaleBy(c)(y) {
      assert c * (y - x) > 0.0;
    }
  }

  /** For c > 1 multiplication by c makes every positive value larger. */
  lemma ScaleByGrows(c: real)
    requires c > 1.0
    ensures forall x :: x > 0.0 ==> ScaleBy(c)(x) > x
  {
    forall x | x > 0.0 ensures ScaleBy(c)(x) > x {
      assert (c - 1.0) * x > 0.0;
      assert ScaleBy(c)(x) == c * x;
    }
  }

  /** A sum of values in [lo, hi] lies between |s|·lo and |s|·hi. */
  lemma {:induction false} SumBounds(s: seq<real>, lo: real, hi: real)
    requires forall i :: 0 <= i < |s| ==> lo <= s[i] <= hi
    ensures |s| as real * lo <= Sum(s) <= |s| as real * hi
  {
    if s != [] {
      var front := s[..|s| - 1];
      assert forall i :: 0 <= i < |front| ==> front[i] == s[i];
      SumBounds(front, lo, hi);
      var n := |front| as real;
      assert |s| as real * lo == n * lo + lo && |s| as real * hi == n * hi + hi;
    }
  }

  /** A list that is larger element by element has the larger sum. */
  lemma {:induction false} SumStrict(s: seq<real>, t: seq<real>)
    requires |s| == |t| > 0 && forall i :: 0 <= i < |s| ==> s[i] < t[i]
    ensures Sum(s) < Sum(t)
  {
    var n := |s|;
    if n > 1 {
      var s1, t1 := s[..n - 1], t[..n - 1];
      assert forall i :: 0 <= i < |s1| ==> s1[i] == s[i] && t1[i] == t[i];
      SumStrict(s1, t1);
    }
  }

  /** The mean of values in [lo, hi] lies in [lo, hi]. */
  lemma MeanBounds(s: seq<real>, lo: real, hi: real)
    requires |s| > 0 && forall i :: 0 <= i < |s| ==> lo <= s[i] <= hi
    ensures lo <= Mean(s) <= hi
  {
    SumBounds(s, lo, hi);
    DivBounds(Sum(s), |s| as real, lo, hi);
  }

  /** A list that is larger element by element has the larger mean. */
  lemma MeanStrict(s: seq<real>, t: seq<real>)
    requires |s| == |t| > 0 && forall i :: 0 <= i < |s| ==> s[i] < t[i]
    ensures Mean(s) < Mean(t)
  {
    SumStrict(s, t);
    DivStrict(Sum(s), Sum(t), |s| as real);
  }

  /** An increasing map keeps the order, so it commutes with insertion. */
  lemma {:induction false} InsertMap(f: real -> real, x: real, s: seq<real>)
    requires Increasing(f)
    ensures Insert(f(x), MapSeq(f, s)) == MapSeq(f, Insert(x, s))
  {
    var t := MapSeq(f, s);
    if s == [] {
      assert t == [];
      assert MapSeq(f, [x]) == [f(x)];
    } else if x <= s[0] {
      assert f(x) <= t[0] by { if x < s[0] { assert f(x) < f(s[0]); } }
      MapCons(f, x, s);
    } else {
      assert f(s[0]) < f(x);
      MapTail(f, s);
      InsertMap(f, x, s[1..]);
      MapCons(f, s[0], Insert(x, s[1..]));
    }
  }

  /** Sorting commutes with an increasing map. */
  lemma {:induction false} SortMap(f: real -> real, s: seq<real>)
    requires Increasing(f)
    ensures SortAsc(MapSeq(f, s)) == MapSeq(f, SortAsc(s))
  {
    if s != [] {
      MapTail(f, s);
      SortMap(f, s[1..]);
      InsertMap(f, s[0], SortAsc(s[1..]));
      assert MapSeq(f, s)[0] == f(s[0]);
    }
  }

  /** The maximum commutes with an increasing map. */
  lemma {:induction false} MaxMap(f: real -> real, s: seq<real>)
    requires |s| > 0 && Increasing(f)
    ensures SeqMax(MapSeq(f, s)) == f(SeqMax(s))
  {
    if |s| > 1 {
      var front := s[..|s| - 1];
      MapFront(f, s);
      MaxMap(f, front);
      var m := SeqMax(front);
      if s[|s| - 1] > m {
        assert f(s[|s| - 1]) > f(m);
      } else if s[|s| - 1] < m {
        assert f(s[|s| - 1]) < f(m);
      }
    }
  }

  lemma MapSlice(f: real -> real, s: seq<real>, a: nat)
    requires a <= |s|
    ensures MapSeq(f, s)[a..] == MapSeq(f, s[a..])
  {
    var x, y := MapSeq(f, s)[a..], MapSeq(f, s[a..]);
    assert |x| == |y|;
    forall i | 0 <= i < |x| ensures x[i] == y[i] {
      assert x[i] == MapSeq(f, s)[a + i];
    }
  }

  lemma MapFront(f: real -> real, s: seq<real>)
    requires |s| > 0
    ensures MapSeq(f, s)[..|s| - 1] == MapSeq(f, s[..|s| - 1])
  {
    var a, b := MapSeq(f, s)[..|s| - 1], MapSeq(f, s[..|s| - 1]);
    assert |a| == |b|;
    forall i | 0 <= i < |a| ensures a[i] == b[i] { }
  }

  lemma MapTail(f: real -> real, s: seq<real>)
    requires |s| > 0
    ensures MapSeq(f, s)[1..] == MapSeq(f, s[1..])
  {
    var a, b := MapSeq(f, s)[1..], MapSeq(f, s[1..]);
    assert |a| == |b|;
    forall i | 0 <= i < |a| ensures a[i] == b[i] {
      assert a[i] == MapSeq(f, s)[i + 1];
    }
  }

  lemma MapCons(f: real -> real, x: real, s: seq<real>)
    ensures [f(x)] + MapSeq(f, s) == MapSeq(f, [x] + s)
  {
    var a, b := [f(x)] + MapSeq(f, s), MapSeq(f, [x] + s);
    assert |a| == |b|;
    forall i | 0 <= i < |a| ensures a[i] == b[i] {
      if i > 0 { assert ([x] + s)[i] == s[i - 1]; }
    }
  }
}
