/**
 * The lift-plan helpers of the wizard: sorted-unique of a list of lifts and
 * the evenly spaced grid of lifts between two bounds.
 */
module WizardGrid {
  import opened RealMath
  import opened Sorting
  import opened PyNum

  predicate StrictlyIncreasing(s: seq<real>)
  {
    forall i, j :: 0 <= i < j < |s| ==> s[i] < s[j]
  }

  predicate Distinct(s: seq<real>)
  {
    forall i, j :: 0 <= i < j < |s| ==> s[i] != s[j]
  }

  /** A list is without repeats exactly when each value occurs at most once in its multiset. */
  lemma {:induction false} DistinctMultiset(s: seq<real>)
    ensures Distinct(s) <==> forall x :: multiset(s)[x] <= 1
  {
    if s != [] {
      var t := s[1..];
      DistinctMultiset(t);
      assert s == [s[0]] + t;
      assert multiset(s) == multiset{s[0]} + multiset(t);
      if Distinct(s) {
        assert Distinct(t) by {
          forall i, j | 0 <= i < j < |t| ensures t[i] != t[j] {
            assert t[i] == s[i + 1] && t[j] == s[j + 1];
          }
        }
        assert s[0] !in t by {
          forall j | 0 <= j < |t| ensures t[j] != s[0] {
            assert t[j] == s[j + 1];
          }
        }
      }
      if forall x :: multiset(s)[x] <= 1 {
        assert multiset(t)[s[0]] == 0 by {
          assert multiset(s)[s[0]] == 1 + multiset(t)[s[0]];
        }
        assert forall x :: multiset(t)[x] <= 1 by {
          forall x ensures multiset(t)[x] <= 1 {
            assert multiset(s)[x] >= multiset(t)[x];
          }
        }
        forall i, j | 0 <= i < j < |s| ensures s[i] != s[j] {
          if i == 0 {
            assert s[j] == t[j - 1];
            assert t[j - 1] in t;
          } else {
            assert s[i] == t[i - 1] && s[j] == t[j - 1];
          }
        }
      }
    }
  }

  /** Sorting a list gives a strictly increasing one exactly when the list has no repeats. */
  lemma SortedStrictIffDistinct(xs: seq<real>)
    ensures StrictlyIncreasing(SortAsc(xs)) <==> Distinct(xs)
  {
    SortAscSorted(xs);
    SortAscPerm(xs);
    DistinctMultiset(xs);
    DistinctMultiset(SortAsc(xs));
  }

  /** Python's `all(xs[i] < xs[i + 1] ...)`: each value below its successor. */
  predicate StepsUp(xs: seq<real>)
  {
    forall i :: 0 <= i < |xs| - 1 ==> xs[i] < xs[i + 1]
  }

  /** Comparing neighbours decides the same as comparing every pair. */
  lemma {:induction false} StepsUpIff(xs: seq<real>)
    ensures StepsUp(xs) <==> StrictlyIncreasing(xs)
  {
    if StepsUp(xs) && |xs| > 1 {
      StepsUpIff(xs[1..]);
      assert StepsUp(xs[1..]) by {
        forall i | 0 <= i < |xs[1..]| - 1 ensures xs[1..][i] < xs[1..][i + 1] {
          assert xs[1..][i] == xs[i + 1] && xs[1..][i + 1] == xs[i + 2];
        }
      }
      forall i, j | 0 <= i < j < |xs| ensures xs[i] < xs[j] {
        if i == 0 {
          assert xs[0] < xs[1];
          if j > 1 {
            assert xs[1..][0] < xs[1..][j - 1];
          }
        } else {
          assert xs[1..][i - 1] < xs[1..][j - 1];
        }
      }
    }
  }

  // ---------------------------------------------------------------------------
  // _sorted_unique
  // ---------------------------------------------------------------------------

  /** The values of s without repeats, each kept where it first occurs. */
  function Dedup(s: seq<real>): seq<real>
  {
    if s == [] then []
    else
      var front := Dedup(s[..|s| - 1]);
      if s[|s| - 1] in front then front else front + [s[|s| - 1]]
  }

  /** Dedup keeps exactly the values of s. */
  lemma {:induction false} DedupMembers(s: seq<real>)
    ensures forall x :: x in Dedup(s) <==> x in s
  {
    if s != [] {
      DedupMembers(s[..|s| - 1]);
      assert s == s[..|s| - 1] + [s[|s| - 1]];
    }
  }

  /** On an ascending list Dedup leaves a strictly increasing one. */
  lemma {:induction false} DedupSortedStrict(s: seq<real>)
    requires SortedAsc(s)
    ensures StrictlyIncreasing(Dedup(s))
  {
    if s != [] {
      var init := s[..|s| - 1];
      var last := s[|s| - 1];
      var front := Dedup(init);
      DedupSortedStrict(init);
      DedupMembers(init);
      if last !in front {
        forall i | 0 <= i < |front| ensures front[i] < last {
          assert front[i] in front;
          assert front[i] in init;
          var j :| 0 <= j < |init| && init[j] == front[i];
          assert s[j] <= s[|s| - 1];
        }
      }
    }
  }

  /** A list without repeats is left as it is. */
  lemma {:induction false} DedupKeeps(s: seq<real>)
    requires StrictlyIncreasing(s)
    ensures Dedup(s) == s
  {
    if s != [] {
      var init := s[..|s| - 1];
      DedupKeeps(init);
      assert s[|s| - 1] !in init by {
        forall j | 0 <= j < |init| ensures init[j] != s[|s| - 1] {
          assert init[j] == s[j];
        }
      }
      assert s == init + [s[|s| - 1]];
    }
  }

  /** A list with no values is empty. */
  lemma NoMembersEmpty(b: seq<real>)
    requires forall x :: x !in b
    ensures b == []
  {
    var y := if |b| > 0 then b[0] else 0.0;
    assert y !in b;
    assert |b| > 0 ==> y in b;
  }

  /** Two strictly increasing lists with the same values are the same list. */
  lemma {:induction false} IncreasingUnique(a: seq<real>, b: seq<real>)
    requires StrictlyIncreasing(a) && StrictlyIncreasing(b)
    requires forall x :: x in a <==> x in b
    ensures a == b
    decreases |a|
  {
    if a == [] {
      NoMembersEmpty(b);
    } else {
      assert a[0] in a;
      assert b != [];
      SameHead(a, b);
      SameHead(b, a);
      forall x ensures x in a[1..] <==> x in b[1..] {
        if x in a[1..] {
          TailMember(a, b, x);
        }
        if x in b[1..] {
          TailMember(b, a, x);
        }
      }
      var ta, tb := a[1..], b[1..];
      assert StrictlyIncreasing(ta) by {
        forall i, j | 0 <= i < j < |ta| ensures ta[i] < ta[j] {
          assert ta[i] == a[i + 1] && ta[j] == a[j + 1];
        }
      }
      assert StrictlyIncreasing(tb) by {
        forall i, j | 0 <= i < j < |tb| ensures tb[i] < tb[j] {
          assert tb[i] == b[i + 1] && tb[j] == b[j + 1];
        }
      }
      IncreasingUnique(ta, tb);
      assert a == [a[0]] + ta;
      assert b == [b[0]] + tb;
    }
  }

  /** The head of a strictly increasing list is no larger than the other's head when their values agree. */
  lemma SameHead(a: seq<real>, b: seq<real>)
    requires a != [] && b != []
    requires StrictlyIncreasing(a) && StrictlyIncreasing(b)
    requires forall x :: x in a <==> x in b
    ensures a[0] <= b[0]
  {
    assert b[0] in b;
    var i :| 0 <= i < |a| && a[i] == b[0];
    assert i == 0 || a[0] < a[i];
  }

  /** A value in the tail of one list is in the tail of the other, once the heads agree. */
  lemma TailMember(a: seq<real>, b: seq<real>, x: real)
    requires a != [] && b != [] && a[0] == b[0]
    requires StrictlyIncreasing(a) && StrictlyIncreasing(b)
    requires forall y :: y in a <==> y in b
    requires x in a[1..]
    ensures x in b[1..]
  {
    var k :| 0 <= k < |a[1..]| && a[1..][k] == x;
    assert a[k + 1] == x && a[0] < a[k + 1];
    assert x in b;
    var l :| 0 <= l < |b| && b[l] == x;
    assert l != 0;
    assert b[1..][l - 1] == x;
  }

  /** sorted(set(xs)), as _sorted_unique builds it: sort, then drop repeats. */
  function SortedUniqueSpec(xs: seq<real>): seq<real>
  {
    Dedup(SortAsc(xs))
  }

  /** The result is strictly increasing and holds exactly the values of xs. */
  lemma SortedUniqueSpecProps(xs: seq<real>)
    ensures StrictlyIncreasing(SortedUniqueSpec(xs))
    ensures forall x :: x in SortedUniqueSpec(xs) <==> x in xs
  {
    SortAscSorted(xs);
    SortAscPerm(xs);
    DedupSortedStrict(SortAsc(xs));
    DedupMembers(SortAsc(xs));
    assert forall x :: x in SortAsc(xs) <==> x in multiset(xs);
  }

  /** It is the only strictly increasing list of the values of xs. */
  lemma SortedUniqueExactly(xs: seq<real>, ys: seq<real>)
    requires StrictlyIncreasing(ys)
    requires forall x :: x in ys <==> x in xs
    ensures SortedUniqueSpec(xs) == ys
  {
    SortedUniqueSpecProps(xs);
    IncreasingUnique(SortedUniqueSpec(xs), ys);
  }

  /** A strictly increasing list is its own sorted-unique. */
  lemma SortedUniqueKeeps(xs: seq<real>)
    requires StrictlyIncreasing(xs)
    ensures SortedUniqueSpec(xs) == xs
  {
    SortAscKeeps(xs);
    DedupKeeps(xs);
  }

  /** Applying sorted-unique twice is applying it once. */
  lemma SortedUniqueIdempotent(xs: seq<real>)
    ensures SortedUniqueSpec(SortedUniqueSpec(xs)) == SortedUniqueSpec(xs)
  {
    SortedUniqueSpecProps(xs);
    SortedUniqueKeeps(SortedUniqueSpec(xs));
  }

  /** _sorted_unique: walk the sorted list, appending each value not seen before. */
  method SortedUnique(xs: seq<real>) returns (out: seq<real>)
    ensures out == SortedUniqueSpec(xs)
  {
    var sorted := SortAsc(xs);
    var seen: set<real> := {};
    out := [];
    for i := 0 to |sorted|
      invariant out == Dedup(sorted[..i])
      invariant forall x :: x in seen <==> x in out
    {
      var v := sorted[i];
      assert sorted[..i + 1][..i] == sorted[..i];
      if v !in seen {
        seen := seen + {v};
        out := out + [v];
      }
    }
    assert sorted[..|sorted|] == sorted;
  }

  // ---------------------------------------------------------------------------
  // gen_grid
  // ---------------------------------------------------------------------------

  /** The slack gen_grid allows past the upper bound. */
  const Slack: real := 0.000000001

  /** How many times the loop runs: the k >= 0 with lo + k·step <= hi + slack. */
  function GridCount(lo: real, hi: real, step: real): (n: nat)
    requires step > 0.0 && lo <= hi
  {
    DivSign(hi + Slack - lo, step);
    ((hi + Slack - lo) / step).Floor + 1
  }

  /** The k-th loop value passes the loop test exactly when k is below the count. */
  lemma GridBound(lo: real, hi: real, step: real, k: nat)
    requires step > 0.0 && lo <= hi
    ensures lo + Mul(k as real, step) <= hi + Slack <==> k < GridCount(lo, hi, step)
  {
    var d := hi + Slack - lo;
    var q := d / step;
    assert q * step == d;
    MulSign(step, k as real - q);
    assert step * (k as real - q) == Mul(k as real, step) - d;
  }

  /** The rounded values lo, lo + step, lo + 2·step, ... of the first n loop runs. */
  function RawGrid(lo: real, step: real, n: nat): (r: seq<real>)
    ensures |r| == n
  {
    seq(n, k requires 0 <= k < n => Round3(lo + Mul(k as real, step)))
  }

  /** One more loop run appends the next rounded value and advances v by one step. */
  lemma RawGridStep(lo: real, step: real, k: nat)
    ensures RawGrid(lo, step, k) + [Round3(lo + Mul(k as real, step))] == RawGrid(lo, step, k + 1)
    ensures lo + Mul(k as real, step) + step == lo + Mul((k + 1) as real, step)
  {
    assert (k + 1) as real * step == k as real * step + step;
  }

  /** gen_grid(start, stop, step): no grid for a step that is not positive; bounds in either order. */
  function GenGridSpec(start: real, stop: real, step: real): seq<real>
  {
    if step <= 0.0 then []
    else
      SortedUniqueSpec(RawGrid(Lo(start, stop), step, GridCount(Lo(start, stop), Hi(start, stop), step)))
  }

  /** gen_grid: step from the lower bound while within the upper bound plus slack, rounding each value. */
  method GenGrid(start: real, stop: real, step: real) returns (r: seq<real>)
    ensures r == GenGridSpec(start, stop, step)
  {
    if step <= 0.0 {
      return [];
    }
    var lo, hi := start, stop;
    if stop < start {
      lo, hi := stop, start;
    }
    assert lo == Lo(start, stop) && hi == Hi(start, stop);
    ghost var n := GridCount(lo, hi, step);
    ghost var k: nat := 0;
    var vals: seq<real> := [];
    var v := lo;
    while v <= hi + Slack
      invariant k <= n
      invariant v == lo + Mul(k as real, step)
      invariant vals == RawGrid(lo, step, k)
      decreases n - k
    {
      GridBound(lo, hi, step, k);
      RawGridStep(lo, step, k);
      vals := vals + [Round3(v)];
      v := v + step;
      k := k + 1;
    }
    GridBound(lo, hi, step, k);
    r := SortedUnique(vals);
  }

  /** The loop values rise with k. */
  lemma RawGridSorted(lo: real, step: real, n: nat)
    requires step > 0.0
    ensures SortedAsc(RawGrid(lo, step, n))
  {
    var r := RawGrid(lo, step, n);
    forall i, j | 0 <= i < j < n ensures r[i] <= r[j] {
      MulSign(step, (j - i) as real);
      assert step * (j - i) as real == Mul(j as real, step) - Mul(i as real, step);
      Round3Monotone(lo + Mul(i as real, step), lo + Mul(j as real, step));
    }
  }

  /** The grid is empty exactly when the step is not positive. */
  lemma GenGridEmpty(start: real, stop: real, step: real)
    ensures GenGridSpec(start, stop, step) == [] <==> step <= 0.0
  {
    if step > 0.0 {
      GenGridFirst(start, stop, step);
    }
  }

  /** The bounds of gen_grid after the swap. */
  function Lo(start: real, stop: real): real { if stop < start then stop else start }

  function Hi(start: real, stop: real): real { if stop < start then start else stop }

  /** With a positive step the grid is the loop values themselves, already in order. */
  lemma GenGridRaw(start: real, stop: real, step: real)
    requires step > 0.0
    ensures GenGridSpec(start, stop, step) == Dedup(RawGrid(Lo(start, stop), step, GridCount(Lo(start, stop), Hi(start, stop), step)))
    ensures SortedAsc(RawGrid(Lo(start, stop), step, GridCount(Lo(start, stop), Hi(start, stop), step)))
  {
    var raw := RawGrid(Lo(start, stop), step, GridCount(Lo(start, stop), Hi(start, stop), step));
    RawGridSorted(Lo(start, stop), step, GridCount(Lo(start, stop), Hi(start, stop), step));
    SortAscKeeps(raw);
  }

  /** With a positive step the grid is strictly increasing. */
  lemma GenGridIncreasing(start: real, stop: real, step: real)
    requires step > 0.0
    ensures StrictlyIncreasing(GenGridSpec(start, stop, step))
  {
    GenGridRaw(start, stop, step);
    DedupSortedStrict(RawGrid(Lo(start, stop), step, GridCount(Lo(start, stop), Hi(start, stop), step)));
  }

  /** With a positive step the grid starts at the rounded lower bound. */
  lemma GenGridFirst(start: real, stop: real, step: real)
    requires step > 0.0
    ensures GenGridSpec(start, stop, step) != []
    ensures GenGridSpec(start, stop, step)[0] == Round3(Lo(start, stop))
  {
    var raw := RawGrid(Lo(start, stop), step, GridCount(Lo(start, stop), Hi(start, stop), step));
    GenGridRaw(start, stop, step);
    DedupFirst(raw);
    assert Mul(0 as real, step) == 0.0;
    assert raw[0] == Round3(Lo(start, stop) + Mul(0 as real, step));
  }

  /** One loop value, rounded, lies between the rounded bounds. */
  lemma RawGridBound(lo: real, hi: real, step: real, k: nat)
    requires step > 0.0 && lo <= hi && k < GridCount(lo, hi, step)
    ensures Round3(lo) <= RawGrid(lo, step, GridCount(lo, hi, step))[k] <= Round3(hi + Slack)
  {
    GridBound(lo, hi, step, k);
    MulSign(step, k as real);
    assert Mul(k as real, step) == step * k as real;
    Round3Monotone(lo, lo + Mul(k as real, step));
    Round3Monotone(lo + Mul(k as real, step), hi + Slack);
  }

  /** Every grid value lies between the rounded lower bound and the rounded upper bound plus slack. */
  lemma GenGridBounds(start: real, stop: real, step: real)
    requires step > 0.0
    ensures forall x :: x in GenGridSpec(start, stop, step) ==> Round3(Lo(start, stop)) <= x <= Round3(Hi(start, stop) + Slack)
  {
    var lo, hi := Lo(start, stop), Hi(start, stop);
    var n := GridCount(lo, hi, step);
    var raw := RawGrid(lo, step, n);
    GenGridRaw(start, stop, step);
    DedupMembers(raw);
    forall x | x in GenGridSpec(start, stop, step) ensures Round3(lo) <= x <= Round3(hi + Slack) {
      assert x in raw;
      var k :| 0 <= k < n && raw[k] == x;
      RawGridBound(lo, hi, step, k);
    }
  }

  /** Dedup keeps the first value in front. */
  lemma {:induction false} DedupFirst(s: seq<real>)
    requires s != []
    ensures Dedup(s) != [] && Dedup(s)[0] == s[0]
  {
    if |s| > 1 {
      DedupFirst(s[..|s| - 1]);
    }
  }

  /** Swapping the bounds gives the same grid. */
  lemma GenGridSwap(start: real, stop: real, step: real)
    ensures GenGridSpec(start, stop, step) == GenGridSpec(stop, start, step)
  {
  }

  lemma HalfStepCount(lo: real, hi: real, step: real)
    requires lo == 1.0 && hi == 5.0 && step == 0.5
    ensures GridCount(lo, hi, step) == 9
  {
    assert (hi + Slack - lo) / step == 8.000000002;
  }

  lemma HalfStepValues(lo: real, step: real, k: nat)
    requires lo == 1.0 && step == 0.5 && k < 9
    ensures RawGrid(lo, step, 9)[k] == 1.0 + 0.5 * k as real
  {
    Round3Milli(1000 + 500 * k);
    assert (1000 + 500 * k) as real / 1000.0 == lo + Mul(k as real, step);
  }

  lemma HalfStepsIncreasing(lo: real, step: real)
    requires lo == 1.0 && step == 0.5
    ensures StrictlyIncreasing(RawGrid(lo, step, 9))
  {
    var raw := RawGrid(lo, step, 9);
    forall i, j | 0 <= i < j < 9 ensures raw[i] < raw[j] {
      HalfStepValues(lo, step, i);
      HalfStepValues(lo, step, j);
    }
  }

  lemma HalfStepsGrid(start: real, stop: real, step: real)
    requires start == 1.0 && stop == 5.0 && step == 0.5
    ensures GenGridSpec(start, stop, step) == RawGrid(start, step, 9)
  {
    assert Lo(start, stop) == start && Hi(start, stop) == stop;
    HalfStepCount(start, stop, step);
    GenGridRaw(start, stop, step);
    HalfStepsIncreasing(start, step);
    DedupKeeps(RawGrid(start, step, 9));
  }

  /** gen_grid(1, 5, 0.5) is the nine values 1.0, 1.5, ..., 5.0. */
  lemma GenGridHalfSteps(start: real, stop: real, step: real)
    requires start == 1.0 && stop == 5.0 && step == 0.5
    ensures |GenGridSpec(start, stop, step)| == 9
    ensures GenGridSpec(start, stop, step)[0] == 1.0
    ensures GenGridSpec(start, stop, step)[8] == 5.0
    ensures 3.0 in GenGridSpec(start, stop, step)
  {
    HalfStepsGrid(start, stop, step);
    var raw := RawGrid(start, step, 9);
    HalfStepValues(start, step, 0);
    HalfStepValues(start, step, 4);
    HalfStepValues(start, step, 8);
    assert raw[4] == 3.0;
  }
}
