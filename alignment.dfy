/**
 * Pairing the rows of two series by lift. Both series are walked with one
 * index each: rows whose lifts agree within the tolerance are paired and
 * both indices advance; otherwise the index at the smaller lift advances.
 * The E/I computation and the before/after comparison use this walk.
 */
module Alignment {
  import opened Wrappers
  import opened ComputePoint

  /** The index pairs the walk produces from positions i and j onwards. */
  function AlignIdx(la: seq<real>, lb: seq<real>, tol: real, i: nat, j: nat): (r: seq<(nat, nat)>)
    requires i <= |la| && j <= |lb|
    ensures forall k :: 0 <= k < |r| ==> i <= r[k].0 < |la| && j <= r[k].1 < |lb|
    ensures forall k :: 0 <= k < |r| ==> Abs(la[r[k].0] - lb[r[k].1]) <= tol
    ensures forall k, l :: 0 <= k < l < |r| ==> r[k].0 < r[l].0 && r[k].1 < r[l].1
    ensures |r| <= |la| - i && |r| <= |lb| - j
    decreases |la| - i + |lb| - j
  {
    if i == |la| || j == |lb| then []
    else if Abs(la[i] - lb[j]) <= tol then [(i, j)] + AlignIdx(la, lb, tol, i + 1, j + 1)
    else if la[i] < lb[j] then AlignIdx(la, lb, tol, i + 1, j)
    else AlignIdx(la, lb, tol, i, j + 1)
  }

  /** The lift column of a series. */
  function Lifts(rows: seq<PointMetrics>): (ls: seq<real>)
    ensures |ls| == |rows|
    ensures forall k :: 0 <= k < |rows| ==> ls[k] == rows[k].lift_m
  {
    seq(|rows|, k requires 0 <= k < |rows| => rows[k].lift_m)
  }

  /** The row pairs an index list names. */
  function MapPairs(a: seq<PointMetrics>, b: seq<PointMetrics>, idx: seq<(nat, nat)>): (r: seq<(PointMetrics, PointMetrics)>)
    requires forall k :: 0 <= k < |idx| ==> idx[k].0 < |a| && idx[k].1 < |b|
    ensures |r| == |idx|
    ensures forall k :: 0 <= k < |idx| ==> r[k] == (a[idx[k].0], b[idx[k].1])
  {
    seq(|idx|, k requires 0 <= k < |idx| => (a[idx[k].0], b[idx[k].1]))
  }

  /** The aligned pairs of two series. */
  function Aligned(a: seq<PointMetrics>, b: seq<PointMetrics>, tol: real): seq<(PointMetrics, PointMetrics)>
  {
    MapPairs(a, b, AlignIdx(Lifts(a), Lifts(b), tol, 0, 0))
  }

  lemma MapPairsCons(a: seq<PointMetrics>, b: seq<PointMetrics>, p: (nat, nat), rest: seq<(nat, nat)>)
    requires p.0 < |a| && p.1 < |b|
    requires forall k :: 0 <= k < |rest| ==> rest[k].0 < |a| && rest[k].1 < |b|
    ensures MapPairs(a, b, [p] + rest) == [(a[p.0], b[p.1])] + MapPairs(a, b, rest)
  {
    var idx := [p] + rest;
    assert forall k :: 1 <= k < |idx| ==> idx[k] == rest[k - 1];
  }

  /** Every aligned pair agrees in lift within the tolerance, and there are no more pairs than rows on either side. */
  lemma AlignedWithinTolerance(a: seq<PointMetrics>, b: seq<PointMetrics>, tol: real)
    ensures |Aligned(a, b, tol)| <= |a| && |Aligned(a, b, tol)| <= |b|
    ensures forall k :: 0 <= k < |Aligned(a, b, tol)| ==>
      Abs(Aligned(a, b, tol)[k].0.lift_m - Aligned(a, b, tol)[k].1.lift_m) <= tol
  {
    var idx := AlignIdx(Lifts(a), Lifts(b), tol, 0, 0);
    forall k | 0 <= k < |idx|
      ensures Abs(Aligned(a, b, tol)[k].0.lift_m - Aligned(a, b, tol)[k].1.lift_m) <= tol
    {
      assert Aligned(a, b, tol)[k] == (a[idx[k].0], b[idx[k].1]);
      assert Lifts(a)[idx[k].0] == a[idx[k].0].lift_m;
    }
  }

  /** The diagonal index list (i, i), (i+1, i+1), ... up to n. */
  function Diagonal(i: nat, n: nat): (r: seq<(nat, nat)>)
    requires i <= n
    ensures |r| == n - i
    ensures forall k :: 0 <= k < |r| ==> r[k] == (i + k, i + k)
  {
    seq(n - i, k requires 0 <= k < n - i => (i + k, i + k))
  }

  /** A series aligned with its own lift grid pairs every row with itself. */
  lemma {:induction false} AlignIdentical(la: seq<real>, tol: real, i: nat)
    requires tol >= 0.0 && i <= |la|
    ensures AlignIdx(la, la, tol, i, i) == Diagonal(i, |la|)
    decreases |la| - i
  {
    if i < |la| {
      AlignIdentical(la, tol, i + 1);
      assert Abs(la[i] - la[i]) <= tol;
      assert Diagonal(i, |la|) == [(i, i)] + Diagonal(i + 1, |la|);
    }
  }

  /** Two series on the same lift grid align in full, row k with row k. */
  lemma AlignedSameGrid(a: seq<PointMetrics>, b: seq<PointMetrics>, tol: real)
    requires tol >= 0.0 && Lifts(a) == Lifts(b)
    ensures |Aligned(a, b, tol)| == |a|
    ensures forall k :: 0 <= k < |a| ==> Aligned(a, b, tol)[k] == (a[k], b[k])
  {
    AlignIdentical(Lifts(a), tol, 0);
  }
}
