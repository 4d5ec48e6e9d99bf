/**
 * The series pipeline: every lift point of one side is normalised and turned
 * into a metrics row, in input order; and the exhaust/intake flow ratio on
 * the lifts both sides share.
 */
module ComputeSeries {
  import opened Wrappers
  import opened RealMath
  import opened Schemas
  import opened Normalize
  import opened ComputePoint
  import opened Alignment

  /** The points of the side: anything other than "intake" is the exhaust side. */
  function SideLifts(s: Session, side: string): (ps: seq<LiftPoint>)
    ensures side == "intake" ==> ps == s.lifts.intake
    ensures side != "intake" ==> ps == s.lifts.exhaust
  {
    if side == "intake" then s.lifts.intake else s.lifts.exhaust
  }

  /** `air_ref or air_meas`: an air-conditions record is always truthy. */
  function RefAir(s: Session, airRef: Option<AirConditions>): AirConditions
  {
    if airRef.Some? then airRef.value else s.air
  }

  /** The metrics row of one normalised point, with its swirl ratio merged in. */
  function PointRow(m: MathLib, np: NormalizedPoint, geom: Geometry, airRef: AirConditions, side: string,
                    aRefMode: string, effMode: string, ld0: real, k: real): (r: Result<PointMetrics>)
    ensures r.Ok? <==> ComputeMetricsForPoint(m, np, geom, airRef, side, aRefMode, effMode, ld0, k).Ok? &&
                       ComputeSwirlForPoint(np, geom).Ok?
    ensures r.Ok? ==> r.value == ComputeMetricsForPoint(m, np, geom, airRef, side, aRefMode, effMode, ld0, k).value
                                   .(SR := ComputeSwirlForPoint(np, geom).value)
  {
    var pm :- ComputeMetricsForPoint(m, np, geom, airRef, side, aRefMode, effMode, ld0, k);
    var sr :- ComputeSwirlForPoint(np, geom);
    Ok(pm.(SR := sr))
  }

  /** The rows of a list of normalised points, built front to back; the first failing point decides the error. */
  function MetricsRows(m: MathLib, nps: seq<NormalizedPoint>, geom: Geometry, airRef: AirConditions, side: string,
                       aRefMode: string, effMode: string, ld0: real, k: real): (r: Result<seq<PointMetrics>>)
    ensures r.Ok? ==> |r.value| == |nps|
    decreases |nps|
  {
    if nps == [] then Ok([])
    else
      var init :- MetricsRows(m, nps[..|nps| - 1], geom, airRef, side, aRefMode, effMode, ld0, k);
      var row :- PointRow(m, nps[|nps| - 1], geom, airRef, side, aRefMode, effMode, ld0, k);
      Ok(init + [row])
  }

  /** One point yields a row. */
  predicate RowOk(m: MathLib, np: NormalizedPoint, geom: Geometry, airRef: AirConditions, side: string,
                  aRefMode: string, effMode: string, ld0: real, k: real)
  {
    PointRow(m, np, geom, airRef, side, aRefMode, effMode, ld0, k).Ok?
  }

  /** Every point yields a row. */
  predicate RowsOk(m: MathLib, nps: seq<NormalizedPoint>, geom: Geometry, airRef: AirConditions, side: string,
                   aRefMode: string, effMode: string, ld0: real, k: real)
  {
    forall i :: 0 <= i < |nps| ==> RowOk(m, nps[i], geom, airRef, side, aRefMode, effMode, ld0, k)
  }

  lemma RowsOkSplit(m: MathLib, nps: seq<NormalizedPoint>, geom: Geometry, airRef: AirConditions, side: string,
                    aRefMode: string, effMode: string, ld0: real, k: real)
    requires nps != []
    ensures RowsOk(m, nps, geom, airRef, side, aRefMode, effMode, ld0, k) <==>
            RowsOk(m, nps[..|nps| - 1], geom, airRef, side, aRefMode, effMode, ld0, k) &&
            RowOk(m, nps[|nps| - 1], geom, airRef, side, aRefMode, effMode, ld0, k)
  {
    var front := nps[..|nps| - 1];
    assert forall i :: 0 <= i < |front| ==> front[i] == nps[i];
  }

  /** The rows exist exactly when every point yields one. */
  lemma {:induction false} MetricsRowsOk(m: MathLib, nps: seq<NormalizedPoint>, geom: Geometry, airRef: AirConditions, side: string,
                                         aRefMode: string, effMode: string, ld0: real, k: real)
    ensures MetricsRows(m, nps, geom, airRef, side, aRefMode, effMode, ld0, k).Ok? <==>
            RowsOk(m, nps, geom, airRef, side, aRefMode, effMode, ld0, k)
    decreases |nps|
  {
    if nps != [] {
      MetricsRowsOk(m, nps[..|nps| - 1], geom, airRef, side, aRefMode, effMode, ld0, k);
      RowsOkSplit(m, nps, geom, airRef, side, aRefMode, effMode, ld0, k);
    }
  }

  /** Row i is the row of point i. */
  lemma {:induction false} MetricsRowsItems(m: MathLib, nps: seq<NormalizedPoint>, geom: Geometry, airRef: AirConditions, side: string,
                                            aRefMode: string, effMode: string, ld0: real, k: real)
    requires MetricsRows(m, nps, geom, airRef, side, aRefMode, effMode, ld0, k).Ok?
    ensures forall i :: 0 <= i < |nps| ==>
      PointRow(m, nps[i], geom, airRef, side, aRefMode, effMode, ld0, k) == Ok(MetricsRows(m, nps, geom, airRef, side, aRefMode, effMode, ld0, k).value[i])
    decreases |nps|
  {
    if nps != [] {
      var front := nps[..|nps| - 1];
      MetricsRowsItems(m, front, geom, airRef, side, aRefMode, effMode, ld0, k);
      var init := MetricsRows(m, front, geom, airRef, side, aRefMode, effMode, ld0, k).value;
      var out := MetricsRows(m, nps, geom, airRef, side, aRefMode, effMode, ld0, k).value;
      assert out == init + [PointRow(m, nps[|nps| - 1], geom, airRef, side, aRefMode, effMode, ld0, k).value];
      forall i | 0 <= i < |nps|
        ensures PointRow(m, nps[i], geom, airRef, side, aRefMode, effMode, ld0, k) == Ok(out[i])
      {
        if i < |front| {
          assert front[i] == nps[i] && out[i] == init[i];
        }
      }
    }
  }

  /** Once a prefix fails, the whole list fails with the same error. */
  lemma {:induction false} MetricsRowsErrSticks(m: MathLib, nps: seq<NormalizedPoint>, n: nat, geom: Geometry, airRef: AirConditions, side: string,
                                                aRefMode: string, effMode: string, ld0: real, k: real)
    requires n <= |nps|
    requires MetricsRows(m, nps[..n], geom, airRef, side, aRefMode, effMode, ld0, k).Err?
    ensures MetricsRows(m, nps, geom, airRef, side, aRefMode, effMode, ld0, k) ==
            MetricsRows(m, nps[..n], geom, airRef, side, aRefMode, effMode, ld0, k)
    decreases |nps|
  {
    if n < |nps| {
      var front := nps[..|nps| - 1];
      assert front[..n] == nps[..n];
      MetricsRowsErrSticks(m, front, n, geom, airRef, side, aRefMode, effMode, ld0, k);
    } else {
      assert nps[..n] == nps;
    }
  }

  /** What compute_series returns: [] for a side without points, otherwise one row per point. */
  function SeriesSpec(m: MathLib, s: Session, side: string, aRefMode: string, effMode: string, ld0: real, k: real,
                      dpRefInH2O: real, airRef: Option<AirConditions>): Result<seq<PointMetrics>>
  {
    var lifts := SideLifts(s, side);
    if lifts == [] then Ok([])
    else
      var nps :- NormalizeSeries(m, lifts, s.air, dpRefInH2O, Some(RefAir(s, airRef)));
      MetricsRows(m, nps, s.geom, RefAir(s, airRef), side, aRefMode, effMode, ld0, k)
  }

  /**
   * The series is a strict 1:1 map of the side's points: it succeeds iff every
   * point normalises and yields a row, and then row i is built from point i.
   */
  lemma SeriesIsPointwise(m: MathLib, s: Session, side: string, aRefMode: string, effMode: string, ld0: real, k: real,
                          dpRefInH2O: real, airRef: Option<AirConditions>)
    ensures var lifts := SideLifts(s, side);
            var air := RefAir(s, airRef);
            var r := SeriesSpec(m, s, side, aRefMode, effMode, ld0, k, dpRefInH2O, airRef);
            (lifts == [] ==> r == Ok([])) &&
            (r.Ok? <==> forall i :: 0 <= i < |lifts| ==>
                          NormalizeLiftPoint(m, lifts[i], s.air, dpRefInH2O, Some(air)).Ok? &&
                          PointRow(m, NormalizeLiftPoint(m, lifts[i], s.air, dpRefInH2O, Some(air)).value,
                                   s.geom, air, side, aRefMode, effMode, ld0, k).Ok?) &&
            (r.Ok? ==> |r.value| == |lifts| &&
                       forall i :: 0 <= i < |lifts| ==>
                         r.value[i] == PointRow(m, NormalizeLiftPoint(m, lifts[i], s.air, dpRefInH2O, Some(air)).value,
                                                s.geom, air, side, aRefMode, effMode, ld0, k).value)
  {
    var lifts := SideLifts(s, side);
    var air := RefAir(s, airRef);
    if lifts != [] {
      var ns := NormalizeSeries(m, lifts, s.air, dpRefInH2O, Some(air));
      if ns.Err? {
        var i :| 0 <= i < |lifts| && !NormalizeLiftPoint(m, lifts[i], s.air, dpRefInH2O, Some(air)).Ok?;
      } else {
        var nps := ns.value;
        MetricsRowsOk(m, nps, s.geom, air, side, aRefMode, effMode, ld0, k);
        if MetricsRows(m, nps, s.geom, air, side, aRefMode, effMode, ld0, k).Ok? {
          MetricsRowsItems(m, nps, s.geom, air, side, aRefMode, effMode, ld0, k);
        }
      }
    }
  }

  /** compute_series: normalise the side's points, then one metrics row per point. */
  method ComputeSeriesRows(m: MathLib, s: Session, side: string, aRefMode: string, effMode: string, ld0: real, k: real,
                           dpRefInH2O: real, airRef: Option<AirConditions>) returns (r: Result<seq<PointMetrics>>)
    ensures r == SeriesSpec(m, s, side, aRefMode, effMode, ld0, k, dpRefInH2O, airRef)
  {
    var lifts := if side == "intake" then s.lifts.intake else s.lifts.exhaust;
    if |lifts| == 0 {
      return Ok([]);
    }
    var air := if airRef.Some? then airRef.value else s.air;
    var nps :- NormalizeSeries(m, lifts, s.air, dpRefInH2O, Some(air));
    r := RowsLoop(m, nps, s.geom, air, side, aRefMode, effMode, ld0, k);
  }

  lemma MetricsRowsStep(m: MathLib, nps: seq<NormalizedPoint>, i: nat, geom: Geometry, airRef: AirConditions, side: string,
                        aRefMode: string, effMode: string, ld0: real, k: real)
    requires i < |nps|
    ensures MetricsRows(m, nps[..i + 1], geom, airRef, side, aRefMode, effMode, ld0, k) ==
            (var init :- MetricsRows(m, nps[..i], geom, airRef, side, aRefMode, effMode, ld0, k);
             var row :- PointRow(m, nps[i], geom, airRef, side, aRefMode, effMode, ld0, k);
             Ok(init + [row]))
  {
    var t := nps[..i + 1];
    assert t[..|t| - 1] == nps[..i] && t[|t| - 1] == nps[i];
  }

  /** The loop of compute_series over the normalised points. */
  method RowsLoop(m: MathLib, nps: seq<NormalizedPoint>, geom: Geometry, air: AirConditions, side: string,
                  aRefMode: string, effMode: string, ld0: real, k: real) returns (r: Result<seq<PointMetrics>>)
    ensures r == MetricsRows(m, nps, geom, air, side, aRefMode, effMode, ld0, k)
  {
    var out: seq<PointMetrics> := [];
    var i := 0;
    while i < |nps|
      invariant 0 <= i <= |nps|
      invariant MetricsRows(m, nps[..i], geom, air, side, aRefMode, effMode, ld0, k) == Ok(out)
    {
      var row := PointRow(m, nps[i], geom, air, side, aRefMode, effMode, ld0, k);
      MetricsRowsStep(m, nps, i, geom, air, side, aRefMode, effMode, ld0, k);
      if row.Err? {
        MetricsRowsErrSticks(m, nps, i + 1, geom, air, side, aRefMode, effMode, ld0, k);
        return Err(row.msg);
      }
      out := out + [row.value];
      i := i + 1;
    }
    assert nps[..i] == nps;
    r := Ok(out);
  }

  /** `_align_by_lift` of compute_series.py: compares the lifts directly. */
  method AlignByLift(a: seq<PointMetrics>, b: seq<PointMetrics>, tol: real) returns (out: seq<(PointMetrics, PointMetrics)>)
    ensures out == Aligned(a, b, tol)
  {
    out := [];
    var i, j := 0, 0;
    while i < |a| && j < |b|
      invariant 0 <= i <= |a| && 0 <= j <= |b|
      invariant out + MapPairs(a, b, AlignIdx(Lifts(a), Lifts(b), tol, i, j)) == Aligned(a, b, tol)
      decreases |a| - i + |b| - j
    {
      var la := a[i].lift_m;
      var lb := b[j].lift_m;
      if Abs(la - lb) <= tol {
        MapPairsCons(a, b, (i, j), AlignIdx(Lifts(a), Lifts(b), tol, i + 1, j + 1));
        out := out + [(a[i], b[j])];
        i, j := i + 1, j + 1;
      } else if la < lb {
        i := i + 1;
      } else {
        j := j + 1;
      }
    }
  }

  /** One row of the E/I table. */
  datatype EiRow = EiRow(lift_m: real, q_int_m3s: real, q_exh_m3s: real, EI: real)

  /** The E/I row of one aligned pair; pairs without intake flow give none. */
  function EiOf(p: (PointMetrics, PointMetrics)): (r: Option<EiRow>)
    ensures r.None? <==> p.0.q_m3s_ref <= 0.0
    ensures r.Some? ==> r.value.lift_m == p.0.lift_m && r.value.q_int_m3s == p.0.q_m3s_ref &&
                        r.value.q_exh_m3s == p.1.q_m3s_ref && r.value.EI * r.value.q_int_m3s == r.value.q_exh_m3s
  {
    var qInt := p.0.q_m3s_ref;
    var qExh := p.1.q_m3s_ref;
    if qInt <= 0.0 then None else Some(EiRow(p.0.lift_m, qInt, qExh, qExh / qInt))
  }

  /** The E/I rows of a list of pairs, in pair order. */
  function EiRows(ps: seq<(PointMetrics, PointMetrics)>): (r: seq<EiRow>)
    ensures |r| <= |ps|
    decreases |ps|
  {
    if ps == [] then []
    else
      var init := EiRows(ps[..|ps| - 1]);
      var last := EiOf(ps[|ps| - 1]);
      if last.None? then init else init + [last.value]
  }

  /** Every E/I row has a positive intake flow and E/I times the intake flow is the exhaust flow. */
  lemma {:induction false} EiRowsRatio(ps: seq<(PointMetrics, PointMetrics)>)
    ensures forall k :: 0 <= k < |EiRows(ps)| ==>
              EiRows(ps)[k].q_int_m3s > 0.0 && EiRows(ps)[k].EI * EiRows(ps)[k].q_int_m3s == EiRows(ps)[k].q_exh_m3s
    decreases |ps|
  {
    if ps != [] {
      EiRowsRatio(ps[..|ps| - 1]);
    }
  }

  /** With positive intake flows throughout, no pair is skipped and row k is the row of pair k. */
  lemma {:induction false} EiRowsFull(ps: seq<(PointMetrics, PointMetrics)>)
    requires forall k :: 0 <= k < |ps| ==> ps[k].0.q_m3s_ref > 0.0
    ensures |EiRows(ps)| == |ps|
    ensures forall k :: 0 <= k < |ps| ==> Some(EiRows(ps)[k]) == EiOf(ps[k])
    decreases |ps|
  {
    if ps != [] {
      var front := ps[..|ps| - 1];
      assert forall k :: 0 <= k < |front| ==> front[k] == ps[k];
      EiRowsFull(front);
    }
  }

  lemma EiRowsStep(ps: seq<(PointMetrics, PointMetrics)>, i: nat)
    requires i < |ps|
    ensures EiRows(ps[..i + 1]) == if EiOf(ps[i]).None? then EiRows(ps[..i]) else EiRows(ps[..i]) + [EiOf(ps[i]).value]
  {
    var t := ps[..i + 1];
    assert t[..|t| - 1] == ps[..i] && t[|t| - 1] == ps[i];
  }

  /** compute_ei: the E/I rows of the aligned intake and exhaust series. */
  method ComputeEi(intake: seq<PointMetrics>, exhaust: seq<PointMetrics>, tol: real) returns (out: seq<EiRow>)
    ensures out == EiRows(Aligned(intake, exhaust, tol))
  {
    var aligned := AlignByLift(intake, exhaust, tol);
    out := [];
    var i := 0;
    while i < |aligned|
      invariant 0 <= i <= |aligned|
      invariant out == EiRows(aligned[..i])
    {
      EiRowsStep(aligned, i);
      var qInt := aligned[i].0.q_m3s_ref;
      var qExh := aligned[i].1.q_m3s_ref;
      if qInt > 0.0 {
        out := out + [EiRow(aligned[i].0.lift_m, qInt, qExh, qExh / qInt)];
      }
      i := i + 1;
    }
    assert aligned[..i] == aligned;
  }

  /** On identical lift grids with positive intake flows there is one E/I row per lift. */
  lemma EiFullOnSameGrid(intake: seq<PointMetrics>, exhaust: seq<PointMetrics>, tol: real)
    requires tol >= 0.0 && Lifts(intake) == Lifts(exhaust)
    requires forall k :: 0 <= k < |intake| ==> intake[k].q_m3s_ref > 0.0
    ensures |EiRows(Aligned(intake, exhaust, tol))| == |intake|
  {
    AlignedSameGrid(intake, exhaust, tol);
    var al := Aligned(intake, exhaust, tol);
    assert forall k :: 0 <= k < |al| ==> al[k].0.q_m3s_ref > 0.0 by {
      forall k | 0 <= k < |al| ensures al[k].0.q_m3s_ref > 0.0 {
        assert al[k] == (intake[k], exhaust[k]);
      }
    }
    EiRowsFull(al);
  }
}
