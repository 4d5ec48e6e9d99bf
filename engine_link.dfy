/**
 * Linking the head's flow to an engine: the head flow a series stands for,
 * the volumetric efficiency in use, the RPM those support, the RPM an
 * average port area supports at a target speed, and the Mach number at the
 * minimum port area.
 */
module EngineLink {
  import opened Wrappers
  import opened RealMath
  import opened Formulas
  import opened Schemas
  import opened ComputePoint
  import opened Sorting

  /** max(1, ceil(n / 3)): how many of the largest flows the mean is taken over. */
  function TopCount(n: nat): (k: nat)
    ensures 1 <= k && 3 * k >= n && (n > 0 ==> k <= n)
  {
    if (n + 2) / 3 > 1 then (n + 2) / 3 else 1
  }

  /** The largest TopCount(|values|) values, smallest first. */
  function TopThird(values: seq<real>): (top: seq<real>)
    requires |values| > 0
    ensures |top| == TopCount(|values|)
  {
    var sorted := SortAsc(values);
    sorted[|values| - TopCount(|values|)..]
  }

  /** The values kept are the largest ones: none left out exceeds any kept. */
  lemma TopThirdIsLargest(values: seq<real>)
    requires |values| > 0
    ensures var sorted := SortAsc(values);
            var cut := |values| - TopCount(|values|);
            forall i, j :: 0 <= i < cut <= j < |values| ==> sorted[i] <= sorted[j]
  {
    SortAscSorted(values);
  }

  /** The mean of the largest TopCount(|values|) values. */
  function MeanTopThird(values: seq<real>): real
    requires |values| > 0
  {
    Mean(TopThird(values))
  }

  /** _select_q_head: the maximum, or the mean of the top third. */
  function SelectQHead(values: seq<real>, strategy: string): (r: Result<real>)
    ensures r.Ok? <==> |values| > 0 && (forall i :: 0 <= i < |values| ==> values[i] > 0.0) &&
                       (strategy == "max" || strategy == "mean_top_third")
    ensures r.Ok? && strategy == "max" ==> r.value == SeqMax(values)
    ensures r.Ok? && strategy == "mean_top_third" ==> r.value == MeanTopThird(values)
  {
    if |values| == 0 then Err("series must not be empty")
    else if exists i :: 0 <= i < |values| && values[i] <= 0.0 then Err("q_m3s_ref must be > 0 for all points")
    else if strategy == "max" then Ok(SeqMax(values))
    else if strategy == "mean_top_third" then Ok(MeanTopThird(values))
    else Err("Unknown strategy")
  }

  /** Every element of the sorted list, and so of its top third, is an element of the input. */
  lemma SortedElementIn(values: seq<real>, j: nat) returns (i: nat)
    requires j < |values|
    ensures i < |values| && values[i] == SortAsc(values)[j]
  {
    var sorted := SortAsc(values);
    SortAscPerm(values);
    assert sorted[j] in multiset(sorted);
    assert sorted[j] in multiset(values);
    i :| i < |values| && values[i] == sorted[j];
  }

  /** The head flow is positive, like every value it is chosen from. */
  lemma SelectQHeadPositive(values: seq<real>, strategy: string)
    requires SelectQHead(values, strategy).Ok?
    ensures SelectQHead(values, strategy).value > 0.0
  {
    SelectQHeadBetween(values, strategy);
    SeqMinIsMin(values);
  }

  /** Whichever strategy is chosen, the head flow lies between the smallest and the largest flow. */
  lemma SelectQHeadBetween(values: seq<real>, strategy: string)
    requires SelectQHead(values, strategy).Ok?
    ensures SeqMin(values) <= SelectQHead(values, strategy).value <= SeqMax(values)
  {
    if strategy == "mean_top_third" {
      MeanTopThirdBetween(values);
    } else {
      SeqMinIsMin(values);
      SeqMaxIsMax(values);
    }
  }

  /** The mean of the top third lies between the minimum and the maximum of all values. */
  lemma MeanTopThirdBetween(values: seq<real>)
    requires |values| > 0
    ensures SeqMin(values) <= MeanTopThird(values) <= SeqMax(values)
  {
    TopThirdBetween(values);
    MeanBounds(TopThird(values), SeqMin(values), SeqMax(values));
  }

  /** Every value of the top third lies between the minimum and the maximum of all values. */
  lemma TopThirdBetween(values: seq<real>)
    requires |values| > 0
    ensures forall i :: 0 <= i < |TopThird(values)| ==> SeqMin(values) <= TopThird(values)[i] <= SeqMax(values)
  {
    var top := TopThird(values);
    SeqMinIsMin(values);
    SeqMaxIsMax(values);
    var cut := |values| - |top|;
    forall i | 0 <= i < |top| ensures SeqMin(values) <= top[i] <= SeqMax(values) {
      assert top[i] == SortAsc(values)[cut + i];
      var w := SortedElementIn(values, cut + i);
      assert SeqMin(values) <= values[w] <= SeqMax(values);
    }
  }

  /**
   * A head that flows more at every point gets a larger head flow: mapping
   * every value through an increasing f with f(x) > x for x > 0 raises the
   * selected value, for either strategy.
   */
  lemma SelectQHeadGrows(values: seq<real>, strategy: string, f: real -> real)
    requires SelectQHead(values, strategy).Ok?
    requires Increasing(f) && forall x :: x > 0.0 ==> f(x) > x
    ensures SelectQHead(MapSeq(f, values), strategy).Ok?
    ensures SelectQHead(MapSeq(f, values), strategy).value > SelectQHead(values, strategy).value
  {
    var fv := MapSeq(f, values);
    assert forall i :: 0 <= i < |fv| ==> fv[i] > 0.0 by {
      forall i | 0 <= i < |fv| ensures fv[i] > 0.0 {
        assert f(values[i]) > values[i];
      }
    }
    if strategy == "max" {
      MaxMap(f, values);
      SeqMaxIsMax(values);
      assert SeqMax(values) > 0.0;
    } else {
      MeanTopThirdGrows(values, f);
    }
  }

  /** The mean of the top third rises when every positive value rises under an increasing map. */
  lemma MeanTopThirdGrows(values: seq<real>, f: real -> real)
    requires |values| > 0 && forall i :: 0 <= i < |values| ==> values[i] > 0.0
    requires Increasing(f) && forall x :: x > 0.0 ==> f(x) > x
    ensures MeanTopThird(MapSeq(f, values)) > MeanTopThird(values)
  {
    var top := TopThird(values);
    TopThirdMap(values, f);
    forall i | 0 <= i < |top| ensures top[i] < MapSeq(f, top)[i] {
      var w := SortedElementIn(values, |values| - |top| + i);
      assert top[i] == values[w];
      assert f(top[i]) > top[i];
    }
    MeanStrict(top, MapSeq(f, top));
  }

  /** The top third of the mapped values is the mapped top third. */
  lemma TopThirdMap(values: seq<real>, f: real -> real)
    requires |values| > 0 && Increasing(f)
    ensures TopThird(MapSeq(f, values)) == MapSeq(f, TopThird(values))
  {
    SortMap(f, values);
    MapSlice(f, SortAsc(values), |values| - TopCount(|values|));
  }

  /** _resolve_ve: the engine's own VE when it has one, else the fallback; it must be positive. */
  function ResolveVe(engine: Engine, veFallback: real): (r: Result<real>)
    ensures engine.ve.Some? ==> (r.Ok? <==> engine.ve.value > 0.0) && (r.Ok? ==> r.value == engine.ve.value)
    ensures engine.ve.None? ==> (r.Ok? <==> veFallback > 0.0) && (r.Ok? ==> r.value == veFallback)
  {
    var ve := if engine.ve.Some? then engine.ve.value else veFallback;
    if ve <= 0.0 then Err("VE must be > 0") else Ok(ve)
  }

  /** An engine the schema accepts with VE 0 is refused here, whatever the fallback. */
  lemma ZeroVeRefused(engine: Engine, veFallback: real)
    requires engine.Valid() && engine.ve == Some(0.0)
    ensures ResolveVe(engine, veFallback).Err?
  {
  }

  /** The flow column of a series. */
  function Flows(series: seq<PointMetrics>): (qs: seq<real>)
    ensures |qs| == |series| && forall i :: 0 <= i < |series| ==> qs[i] == series[i].q_m3s_ref
  {
    seq(|series|, i requires 0 <= i < |series| => series[i].q_m3s_ref)
  }

  /** What rpm_limited_by_flow_for_series returns. */
  function RpmForSeries(series: seq<PointMetrics>, engine: Engine, veFallback: real, strategy: string): (r: Result<real>)
    ensures r.Ok? <==> |series| > 0 && (forall i :: 0 <= i < |series| ==> series[i].q_m3s_ref > 0.0) &&
                       (strategy == "max" || strategy == "mean_top_third") &&
                       ResolveVe(engine, veFallback).Ok? && engine.displ_L > 0.0
    ensures r.Ok? ==> r.value > 0.0
    ensures r.Ok? ==> EngineVolumetricFlow(engine.displ_L, r.value, ResolveVe(engine, veFallback).value) ==
                      Ok(SelectQHead(Flows(series), strategy).value)
  {
    if |series| == 0 then Err("series must not be empty")
    else if exists i :: 0 <= i < |series| && series[i].q_m3s_ref <= 0.0 then Err("q_m3s_ref must be > 0")
    else
      var qHead :- SelectQHead(Flows(series), strategy);
      SelectQHeadPositive(Flows(series), strategy);
      var ve :- ResolveVe(engine, veFallback);
      var rpm :- RpmLimitedByFlow(qHead, engine.displ_L, ve);
      if rpm <= 0.0 then Err("computed RPM must be > 0") else Ok(rpm)
  }

  /** rpm_limited_by_flow_for_series: collect the flows, select the head flow, invert the engine demand. */
  method RpmLimitedByFlowForSeries(series: seq<PointMetrics>, engine: Engine, veFallback: real, strategy: string)
    returns (r: Result<real>)
    ensures r == RpmForSeries(series, engine, veFallback, strategy)
  {
    if |series| == 0 {
      return Err("series must not be empty");
    }
    var qVals: seq<real> := [];
    var i := 0;
    while i < |series|
      invariant 0 <= i <= |series|
      invariant qVals == Flows(series[..i])
      invariant forall k :: 0 <= k < i ==> series[k].q_m3s_ref > 0.0
    {
      var q := series[i].q_m3s_ref;
      if q <= 0.0 {
        return Err("q_m3s_ref must be > 0");
      }
      qVals := qVals + [q];
      i := i + 1;
    }
    assert series[..i] == series;
    var qHead :- SelectQHead(qVals, strategy);
    var ve :- ResolveVe(engine, veFallback);
    var rpm :- RpmLimitedByFlow(qHead, engine.displ_L, ve);
    if rpm <= 0.0 {
      return Err("computed RPM must be > 0");
    }
    r := Ok(rpm);
  }

  /** Every row's flow mapped through f. */
  function MapFlows(series: seq<PointMetrics>, f: real -> real): (r: seq<PointMetrics>)
    ensures |r| == |series| && forall i :: 0 <= i < |series| ==> r[i] == series[i].(q_m3s_ref := f(series[i].q_m3s_ref))
  {
    seq(|series|, i requires 0 <= i < |series| => series[i].(q_m3s_ref := f(series[i].q_m3s_ref)))
  }

  lemma FlowsMap(series: seq<PointMetrics>, f: real -> real)
    ensures Flows(MapFlows(series, f)) == MapSeq(f, Flows(series))
  {
    var x, y := Flows(MapFlows(series, f)), MapSeq(f, Flows(series));
    assert |x| == |y|;
    forall i | 0 <= i < |x| ensures x[i] == y[i] { }
  }

  /** The RPM the head supports rises strictly with the head flow. */
  lemma RpmLimitedIncreasing(q1: real, q2: real, displL: real, ve: real)
    requires RpmLimitedByFlow(q1, displL, ve).Ok? && q1 < q2
    ensures RpmLimitedByFlow(q2, displL, ve).Ok?
    ensures RpmLimitedByFlow(q1, displL, ve).value < RpmLimitedByFlow(q2, displL, ve).value
  {
    var vd := displL * 0.001;
    assert vd * ve > 0.0;
    DivStrict(q1 * 60.0 * 2.0, q2 * 60.0 * 2.0, vd * ve);
  }

  /** A head that flows more at every point supports a strictly higher RPM. */
  lemma RpmForSeriesGrows(series: seq<PointMetrics>, engine: Engine, veFallback: real, strategy: string, f: real -> real)
    requires RpmForSeries(series, engine, veFallback, strategy).Ok?
    requires Increasing(f) && forall x :: x > 0.0 ==> f(x) > x
    ensures RpmForSeries(MapFlows(series, f), engine, veFallback, strategy).Ok?
    ensures RpmForSeries(MapFlows(series, f), engine, veFallback, strategy).value >
            RpmForSeries(series, engine, veFallback, strategy).value
  {
    var grown := MapFlows(series, f);
    FlowsMap(series, f);
    assert forall i :: 0 <= i < |grown| ==> grown[i].q_m3s_ref > 0.0 by {
      forall i | 0 <= i < |grown| ensures grown[i].q_m3s_ref > 0.0 {
        assert f(series[i].q_m3s_ref) > series[i].q_m3s_ref;
      }
    }
    SelectQHeadGrows(Flows(series), strategy, f);
    RpmLimitedIncreasing(SelectQHead(Flows(series), strategy).value, SelectQHead(Flows(grown), strategy).value,
                         engine.displ_L, ResolveVe(engine, veFallback).value);
    RpmForSeriesUnfold(series, engine, veFallback, strategy);
    RpmForSeriesUnfold(grown, engine, veFallback, strategy);
  }

  /** Scaling every flow by c > 1 strictly raises the RPM. */
  lemma RpmForSeriesScales(series: seq<PointMetrics>, engine: Engine, veFallback: real, strategy: string, c: real)
    requires c > 1.0 && RpmForSeries(series, engine, veFallback, strategy).Ok?
    ensures RpmForSeries(MapFlows(series, ScaleBy(c)), engine, veFallback, strategy).Ok?
    ensures RpmForSeries(MapFlows(series, ScaleBy(c)), engine, veFallback, strategy).value >
            RpmForSeries(series, engine, veFallback, strategy).value
  {
    ScaleByIncreasing(c);
    ScaleByGrows(c);
    RpmForSeriesGrows(series, engine, veFallback, strategy, ScaleBy(c));
  }

  lemma RpmForSeriesUnfold(series: seq<PointMetrics>, engine: Engine, veFallback: real, strategy: string)
    requires RpmForSeries(series, engine, veFallback, strategy).Ok?
    ensures RpmLimitedByFlow(SelectQHead(Flows(series), strategy).value, engine.displ_L,
                             ResolveVe(engine, veFallback).value) == RpmForSeries(series, engine, veFallback, strategy)
  {
  }

  /** rpm_from_csa_with_target: None without an average area, else the RPM that area supports at the target speed. */
  function RpmFromCsaWithTarget(aAvg: Option<real>, engine: Engine, vTarget: real, veFallback: real): (r: Result<Option<real>>)
    ensures aAvg.None? ==> r == Ok(None)
    ensures aAvg.Some? && (aAvg.value <= 0.0 || vTarget <= 0.0) ==> r.Err?
    ensures aAvg.Some? ==> (r.Ok? <==> aAvg.value > 0.0 && vTarget > 0.0 && ResolveVe(engine, veFallback).Ok? && engine.displ_L > 0.0)
    ensures aAvg.Some? && r.Ok? ==>
      r.value.Some? && RpmFromCsa(aAvg.value, engine.displ_L, ResolveVe(engine, veFallback).value, vTarget) == Ok(r.value.value)
  {
    if aAvg.None? then Ok(None)
    else if aAvg.value <= 0.0 then Err("A_avg_m2 must be > 0")
    else if vTarget <= 0.0 then Err("v_target must be > 0")
    else
      var ve :- ResolveVe(engine, veFallback);
      var rpm :- RpmFromCsa(aAvg.value, engine.displ_L, ve, vTarget);
      Ok(Some(rpm))
  }

  /** A higher target speed through the same area gives a strictly higher RPM. */
  lemma RpmFromCsaIncreasing(aAvg: real, engine: Engine, v1: real, v2: real, veFallback: real)
    requires RpmFromCsaWithTarget(Some(aAvg), engine, v1, veFallback).Ok? && v1 < v2
    ensures RpmFromCsaWithTarget(Some(aAvg), engine, v2, veFallback).Ok?
    ensures RpmFromCsaWithTarget(Some(aAvg), engine, v1, veFallback).value.value <
            RpmFromCsaWithTarget(Some(aAvg), engine, v2, veFallback).value.value
  {
    var ve := ResolveVe(engine, veFallback).value;
    var q1, q2 := aAvg * v1, aAvg * v2;
    MulStrict(aAvg, v1, v2);
    assert RpmFromCsa(aAvg, engine.displ_L, ve, v2) == RpmLimitedByFlow(q2, engine.displ_L, ve);
    RpmLimitedStrict(q1, q2, engine.displ_L, ve);
  }

  /** More flow through the head needs a strictly higher RPM. */
  lemma RpmLimitedStrict(q1: real, q2: real, displL: real, ve: real)
    requires 0.0 < q1 < q2 && displL > 0.0 && ve > 0.0
    ensures RpmLimitedByFlow(q1, displL, ve).value < RpmLimitedByFlow(q2, displL, ve).value
  {
    var vd := displL * 0.001;
    assert vd * ve > 0.0;
    assert RpmLimitedByFlow(q1, displL, ve).value == (q1 * 60.0 * 2.0) / (vd * ve);
    assert RpmLimitedByFlow(q2, displL, ve).value == (q2 * 60.0 * 2.0) / (vd * ve);
    DivStrict(q1 * 60.0 * 2.0, q2 * 60.0 * 2.0, vd * ve);
  }

  lemma MulStrict(c: real, x: real, y: real)
    requires c > 0.0 && x < y
    ensures c * x < c * y
  {
    assert c * (y - x) > 0.0;
  }

  /** The Mach number at the minimum port area of one row. */
  function MachRow(m: MathLib, row: PointMetrics, minCsa: real, air: AirConditions): (r: Result<real>)
    ensures row.q_m3s_ref <= 0.0 ==> r.Err?
    ensures row.q_m3s_ref > 0.0 ==> r == MachAtMinCsa(m, row.q_m3s_ref, minCsa, air.T)
  {
    if row.q_m3s_ref <= 0.0 then Err("q_m3s_ref must be > 0") else MachAtMinCsa(m, row.q_m3s_ref, minCsa, air.T)
  }

  /** The Mach numbers of a list of rows, front to back. */
  function MachRows(m: MathLib, series: seq<PointMetrics>, minCsa: real, air: AirConditions): (r: Result<seq<real>>)
    ensures r.Ok? <==> forall i :: 0 <= i < |series| ==> MachRow(m, series[i], minCsa, air).Ok?
    ensures r.Ok? ==> |r.value| == |series|
    ensures r.Ok? ==> forall i :: 0 <= i < |series| ==> r.value[i] == MachRow(m, series[i], minCsa, air).value
    decreases |series|
  {
    if series == [] then Ok([])
    else
      var init :- MachRows(m, series[..|series| - 1], minCsa, air);
      var last :- MachRow(m, series[|series| - 1], minCsa, air);
      Ok(init + [last])
  }

  lemma {:induction false} MachRowsErrSticks(m: MathLib, series: seq<PointMetrics>, n: nat, minCsa: real, air: AirConditions)
    requires n <= |series| && MachRows(m, series[..n], minCsa, air).Err?
    ensures MachRows(m, series, minCsa, air) == MachRows(m, series[..n], minCsa, air)
    decreases |series|
  {
    if n < |series| {
      var front := series[..|series| - 1];
      assert front[..n] == series[..n];
      MachRowsErrSticks(m, front, n, minCsa, air);
    } else {
      assert series[..n] == series;
    }
  }

  /** What mach_at_min_csa_for_series returns. */
  function MachSeriesSpec(m: MathLib, series: seq<PointMetrics>, minCsa: real, air: AirConditions): (r: Result<seq<real>>)
    ensures minCsa <= 0.0 ==> r.Err?
    ensures Lawful(m) && air.Valid() ==>
      (r.Ok? <==> minCsa > 0.0 && forall i :: 0 <= i < |series| ==> series[i].q_m3s_ref > 0.0)
    ensures r.Ok? ==> |r.value| == |series|
    ensures r.Ok? ==> forall i :: 0 <= i < |series| ==>
      MachFromVelocity(m, series[i].q_m3s_ref / minCsa, air.T) == Ok(r.value[i])
  {
    if minCsa <= 0.0 then Err("min_csa_m2 must be > 0") else MachRows(m, series, minCsa, air)
  }

  /** mach_at_min_csa_for_series: one Mach number per row, in order. */
  method MachAtMinCsaForSeries(m: MathLib, series: seq<PointMetrics>, minCsa: real, air: AirConditions)
    returns (r: Result<seq<real>>)
    ensures r == MachSeriesSpec(m, series, minCsa, air)
  {
    if minCsa <= 0.0 {
      return Err("min_csa_m2 must be > 0");
    }
    var out: seq<real> := [];
    var i := 0;
    while i < |series|
      invariant 0 <= i <= |series|
      invariant MachRows(m, series[..i], minCsa, air) == Ok(out)
    {
      assert series[..i + 1][..i] == series[..i];
      var q := series[i].q_m3s_ref;
      if q <= 0.0 {
        MachRowsErrSticks(m, series, i + 1, minCsa, air);
        return Err("q_m3s_ref must be > 0");
      }
      var mach := MachAtMinCsa(m, q, minCsa, air.T);
      if mach.Err? {
        MachRowsErrSticks(m, series, i + 1, minCsa, air);
        return Err(mach.msg);
      }
      out := out + [mach.value];
      i := i + 1;
    }
    assert series[..i] == series;
    r := Ok(out);
  }
}
