/**
 * The two entry points of the library: processing one session end to end,
 * and comparing a session before and after a change. Each result section is
 * present or absent depending on which inputs the session has.
 */
module Api {
  import opened Wrappers
  import opened RealMath
  import opened Wire
  import opened Schemas
  import opened ComputePoint
  import opened Alignment
  import opened ComputeSeries
  import opened EngineLink
  import opened Compare

  /** The VE the engine metrics fall back on when the engine records none. */
  const VE_FALLBACK: real := 0.95

  /** The options of run_all; the defaults are DEFAULT_RUN_OPTIONS. */
  datatype RunOptions = RunOptions(dpRefInH2O: real, aRefMode: string, effMode: string, ld0: real, k: real,
                                   eiTol: real, vTarget: real)

  const DEFAULT_RUN_OPTIONS: RunOptions := RunOptions(28.0, "eff", "smoothmin", 0.30, 12.0, 0.0000005, 100.0)

  /** The "params" section of run_all: the options echoed, without the E/I tolerance. */
  datatype RunParams = RunParams(dpRefInH2O: real, aRefMode: string, effMode: string, ld0: real, k: real, vTarget: real)

  /** The result of run_all. */
  datatype RunResult = RunResult(
    intake: seq<PointMetrics>, exhaust: seq<PointMetrics>, ei: seq<EiRow>,
    rpmFlowLimit: Option<real>, rpmFromCsa: Option<real>, machMinCsa: Option<seq<real>>,
    params: RunParams, meta: Json, mode: Json)

  /** One side's series, normalised to the session's own air. */
  function Series(m: MathLib, s: Session, side: string, o: RunOptions): Result<seq<PointMetrics>>
  {
    SeriesSpec(m, s, side, o.aRefMode, o.effMode, o.ld0, o.k, o.dpRefInH2O, Some(s.air))
  }

  /** The E/I table: empty unless both series have rows. */
  function EiSection(intake: seq<PointMetrics>, exhaust: seq<PointMetrics>, tol: real): (ei: seq<EiRow>)
    ensures intake == [] || exhaust == [] ==> ei == []
    ensures intake != [] && exhaust != [] ==> ei == EiRows(Aligned(intake, exhaust, tol))
  {
    if intake != [] && exhaust != [] then EiRows(Aligned(intake, exhaust, tol)) else []
  }

  /** The flow-limited RPM: none without intake rows, otherwise from the largest intake flow. */
  function FlowLimitSection(intake: seq<PointMetrics>, engine: Engine): (r: Result<Option<real>>)
    ensures intake == [] ==> r == Ok(None)
    ensures intake != [] ==> (r.Ok? <==> RpmForSeries(intake, engine, VE_FALLBACK, "max").Ok?)
    ensures intake != [] && r.Ok? ==> r.value.Some? && r.value.value > 0.0 &&
                                      RpmForSeries(intake, engine, VE_FALLBACK, "max") == Ok(r.value.value)
  {
    if intake == [] then Ok(None)
    else
      var rpm :- RpmForSeries(intake, engine, VE_FALLBACK, "max");
      Ok(Some(rpm))
  }

  /** The RPM the average cross-section supports: none without a CSA profile or its average. */
  function CsaSection(s: Session, vTarget: real): (r: Result<Option<real>>)
    ensures s.csa.None? ==> r == Ok(None)
    ensures s.csa.Some? ==> r == RpmFromCsaWithTarget(s.csa.value.avg_csa_m2, s.engine, vTarget, VE_FALLBACK)
  {
    if s.csa.Some? then RpmFromCsaWithTarget(s.csa.value.avg_csa_m2, s.engine, vTarget, VE_FALLBACK) else Ok(None)
  }

  /** Whether the Mach numbers at the minimum cross-section are computed. */
  predicate HasMachInputs(s: Session, intake: seq<PointMetrics>)
  {
    s.csa.Some? && s.csa.value.min_csa_m2.Some? && intake != []
  }

  /** Mach at the minimum cross-section, one per intake row, when the profile names that area. */
  function MachSection(m: MathLib, s: Session, intake: seq<PointMetrics>): (r: Result<Option<seq<real>>>)
    ensures !HasMachInputs(s, intake) ==> r == Ok(None)
    ensures HasMachInputs(s, intake) ==> (r.Ok? <==> MachSeriesSpec(m, intake, s.csa.value.min_csa_m2.value, s.air).Ok?)
    ensures HasMachInputs(s, intake) && r.Ok? ==>
              r.value.Some? && |r.value.value| == |intake| &&
              MachSeriesSpec(m, intake, s.csa.value.min_csa_m2.value, s.air) == Ok(r.value.value)
  {
    if !HasMachInputs(s, intake) then Ok(None)
    else
      var ms :- MachSeriesSpec(m, intake, s.csa.value.min_csa_m2.value, s.air);
      Ok(Some(ms))
  }

  /**
   * run_all: both series, then E/I, the flow-limited RPM, the CSA RPM and
   * the Mach numbers, in that order; the first failure is the result.
   */
  function RunAll(m: MathLib, s: Session, o: RunOptions): (r: Result<RunResult>)
    ensures r.Ok? <==> Series(m, s, "intake", o).Ok? && Series(m, s, "exhaust", o).Ok? &&
                       FlowLimitSection(Series(m, s, "intake", o).value, s.engine).Ok? &&
                       CsaSection(s, o.vTarget).Ok? &&
                       MachSection(m, s, Series(m, s, "intake", o).value).Ok?
    ensures r.Ok? ==> r.value.intake == Series(m, s, "intake", o).value &&
                      r.value.exhaust == Series(m, s, "exhaust", o).value
    ensures r.Ok? ==> (r.value.ei != [] ==> r.value.intake != [] && r.value.exhaust != [])
    ensures r.Ok? ==> r.value.ei == EiSection(r.value.intake, r.value.exhaust, o.eiTol)
    ensures r.Ok? ==> (r.value.rpmFlowLimit.None? <==> r.value.intake == [])
    ensures r.Ok? && r.value.rpmFlowLimit.Some? ==>
              r.value.rpmFlowLimit.value > 0.0 &&
              RpmForSeries(r.value.intake, s.engine, VE_FALLBACK, "max") == Ok(r.value.rpmFlowLimit.value)
    ensures r.Ok? && (s.csa.None? || s.csa.value.avg_csa_m2.None?) ==> r.value.rpmFromCsa.None?
    ensures r.Ok? && s.csa.Some? && s.csa.value.avg_csa_m2.Some? ==> r.value.rpmFromCsa.Some?
    ensures r.Ok? ==> (r.value.machMinCsa.Some? <==> HasMachInputs(s, r.value.intake))
    ensures r.Ok? && r.value.machMinCsa.Some? ==> |r.value.machMinCsa.value| == |r.value.intake|
    ensures r.Ok? ==> r.value.params == RunParams(o.dpRefInH2O, o.aRefMode, o.effMode, o.ld0, o.k, o.vTarget)
    ensures r.Ok? ==> r.value.meta == s.meta && r.value.mode == s.mode
  {
    var intake :- Series(m, s, "intake", o);
    var exhaust :- Series(m, s, "exhaust", o);
    var ei := EiSection(intake, exhaust, o.eiTol);
    var rpmFlow :- FlowLimitSection(intake, s.engine);
    var rpmCsa :- CsaSection(s, o.vTarget);
    var mach :- MachSection(m, s, intake);
    Ok(RunResult(intake, exhaust, ei, rpmFlow, rpmCsa, mach,
                 RunParams(o.dpRefInH2O, o.aRefMode, o.effMode, o.ld0, o.k, o.vTarget), s.meta, s.mode))
  }

  /** A session without intake points has no E/I table, no flow-limited RPM and no Mach numbers. */
  lemma RunAllWithoutIntake(m: MathLib, s: Session, o: RunOptions)
    requires s.lifts.intake == [] && RunAll(m, s, o).Ok?
    ensures RunAll(m, s, o).value.intake == []
    ensures RunAll(m, s, o).value.ei == [] && RunAll(m, s, o).value.rpmFlowLimit.None?
    ensures RunAll(m, s, o).value.machMinCsa.None?
  {
    assert Series(m, s, "intake", o) == Ok([]);
  }

  /** Each series has one row per point of its side. */
  lemma RunAllIntakeRows(m: MathLib, s: Session, o: RunOptions)
    requires RunAll(m, s, o).Ok?
    ensures |RunAll(m, s, o).value.intake| == |s.lifts.intake|
    ensures |RunAll(m, s, o).value.exhaust| == |s.lifts.exhaust|
  {
    SeriesIsPointwise(m, s, "intake", o.aRefMode, o.effMode, o.ld0, o.k, o.dpRefInH2O, Some(s.air));
    SeriesIsPointwise(m, s, "exhaust", o.aRefMode, o.effMode, o.ld0, o.k, o.dpRefInH2O, Some(s.air));
  }

  // ---------------------------------------------------------------------------
  // run_compare
  // ---------------------------------------------------------------------------

  /** The options of run_compare; the defaults are DEFAULT_COMPARE_OPTIONS. */
  datatype CompareOptions = CompareOptions(keys: seq<string>, dpRefInH2O: real, aRefMode: string, effMode: string,
                                           ld0: real, k: real, tol: real)

  const DEFAULT_COMPARE_OPTIONS: CompareOptions :=
    CompareOptions(["q_m3s_ref", "Cd_ref", "V_ref", "Mach_ref"], 28.0, "eff", "smoothmin", 0.30, 12.0, 0.0000005)

  /** One side of a comparison. */
  datatype SideResult = SideResult(before: seq<PointMetrics>, after: seq<PointMetrics>, alignedLen: nat,
                                   diffs: map<string, seq<DiffRow>>)

  /** The "params" section of run_compare. */
  datatype CompareParams = CompareParams(dpRefInH2O: real, aRefMode: string, effMode: string, ld0: real, k: real,
                                         keys: seq<string>)

  /** The result of run_compare. */
  datatype CompareResult = CompareResult(intake: SideResult, exhaust: SideResult, params: CompareParams,
                                         metaBefore: Json, metaAfter: Json)

  /** The diff tables of the requested keys, one per distinct key; the first failing key fails. */
  function DiffMap(aligned: seq<(PointMetrics, PointMetrics)>, keys: seq<string>): (r: Result<map<string, seq<DiffRow>>>)
    decreases |keys|
  {
    if keys == [] then Ok(map[])
    else
      var d :- DiffMap(aligned, keys[..|keys| - 1]);
      var rows :- DiffRows(aligned, keys[|keys| - 1]);
      Ok(d[keys[|keys| - 1] := rows])
  }

  /** Every requested key can be diffed. */
  predicate DiffKeysOk(aligned: seq<(PointMetrics, PointMetrics)>, keys: seq<string>)
  {
    forall i :: 0 <= i < |keys| ==> KeyDiffOk(aligned, keys[i])
  }

  predicate KeyDiffOk(aligned: seq<(PointMetrics, PointMetrics)>, key: string)
  {
    DiffRows(aligned, key).Ok?
  }

  lemma DiffKeysOkSplit(aligned: seq<(PointMetrics, PointMetrics)>, keys: seq<string>)
    requires keys != []
    ensures DiffKeysOk(aligned, keys) <==> DiffKeysOk(aligned, keys[..|keys| - 1]) && KeyDiffOk(aligned, keys[|keys| - 1])
  {
    var front := keys[..|keys| - 1];
    assert forall i :: 0 <= i < |front| ==> front[i] == keys[i];
  }

  /** The diff map exists exactly when every requested key can be diffed. */
  lemma {:induction false} DiffMapOk(aligned: seq<(PointMetrics, PointMetrics)>, keys: seq<string>)
    ensures DiffMap(aligned, keys).Ok? <==> DiffKeysOk(aligned, keys)
    decreases |keys|
  {
    if keys != [] {
      DiffMapOk(aligned, keys[..|keys| - 1]);
      DiffKeysOkSplit(aligned, keys);
    }
  }

  /** The keys of a list, as a set. */
  function KeySet(keys: seq<string>): set<string>
  {
    set i | 0 <= i < |keys| :: keys[i]
  }

  lemma KeySetSnoc(keys: seq<string>)
    requires keys != []
    ensures KeySet(keys) == KeySet(keys[..|keys| - 1]) + {keys[|keys| - 1]}
  {
    var front := keys[..|keys| - 1];
    assert forall i :: 0 <= i < |front| ==> front[i] == keys[i];
  }

  /** The diff map holds one table per requested key, the key's diff rows. */
  lemma {:induction false} DiffMapContents(aligned: seq<(PointMetrics, PointMetrics)>, keys: seq<string>)
    requires DiffMap(aligned, keys).Ok?
    ensures DiffMap(aligned, keys).value.Keys == KeySet(keys)
    ensures forall key :: key in DiffMap(aligned, keys).value ==> DiffRows(aligned, key) == Ok(DiffMap(aligned, keys).value[key])
    decreases |keys|
  {
    if keys != [] {
      var front, last := keys[..|keys| - 1], keys[|keys| - 1];
      DiffMapContents(aligned, front);
      KeySetSnoc(keys);
      var d := DiffMap(aligned, front).value;
      assert DiffMap(aligned, keys).value == d[last := DiffRows(aligned, last).value];
    }
  }

  /** One side of run_compare: each session normalised to its own air, aligned by lift, diffed per key. */
  function CompareSide(m: MathLib, before: Session, after: Session, side: string, o: CompareOptions): (r: Result<SideResult>)
    ensures r.Ok? ==> SeriesSpec(m, before, side, o.aRefMode, o.effMode, o.ld0, o.k, o.dpRefInH2O, Some(before.air)) == Ok(r.value.before)
    ensures r.Ok? ==> SeriesSpec(m, after, side, o.aRefMode, o.effMode, o.ld0, o.k, o.dpRefInH2O, Some(after.air)) == Ok(r.value.after)
    ensures r.Ok? ==> r.value.alignedLen == |Aligned(r.value.before, r.value.after, o.tol)|
    ensures r.Ok? ==> r.value.alignedLen <= |r.value.before| && r.value.alignedLen <= |r.value.after|
    ensures r.Ok? ==> r.value.diffs.Keys == KeySet(o.keys)
    ensures r.Ok? ==> forall key :: key in r.value.diffs ==>
                        DiffRows(Aligned(r.value.before, r.value.after, o.tol), key) == Ok(r.value.diffs[key])
  {
    var s1 :- SeriesSpec(m, before, side, o.aRefMode, o.effMode, o.ld0, o.k, o.dpRefInH2O, Some(before.air));
    var s2 :- SeriesSpec(m, after, side, o.aRefMode, o.effMode, o.ld0, o.k, o.dpRefInH2O, Some(after.air));
    var aligned := Aligned(s1, s2, o.tol);
    var diffs :- DiffMap(aligned, o.keys);
    DiffMapContents(aligned, o.keys);
    Ok(SideResult(s1, s2, |aligned|, diffs))
  }

  /** run_compare: the intake side, then the exhaust side, the parameters and both sessions' meta. */
  function RunCompare(m: MathLib, before: Session, after: Session, o: CompareOptions): (r: Result<CompareResult>)
    ensures r.Ok? <==> CompareSide(m, before, after, "intake", o).Ok? && CompareSide(m, before, after, "exhaust", o).Ok?
    ensures r.Ok? ==> r.value.intake == CompareSide(m, before, after, "intake", o).value &&
                      r.value.exhaust == CompareSide(m, before, after, "exhaust", o).value
    ensures r.Ok? ==> r.value.params == CompareParams(o.dpRefInH2O, o.aRefMode, o.effMode, o.ld0, o.k, o.keys)
    ensures r.Ok? ==> r.value.metaBefore == before.meta && r.value.metaAfter == after.meta
  {
    var intake :- CompareSide(m, before, after, "intake", o);
    var exhaust :- CompareSide(m, before, after, "exhaust", o);
    Ok(CompareResult(intake, exhaust, CompareParams(o.dpRefInH2O, o.aRefMode, o.effMode, o.ld0, o.k, o.keys),
                     before.meta, after.meta))
  }

  /**
   * Comparing rows with themselves reports no change: every diff row has the
   * after value equal to the before value and a delta of 0 %, as long as no
   * row has zero flow (the flow ratio of such a row is taken as 0).
   */
  lemma {:induction false} SelfDiffZero(aligned: seq<(PointMetrics, PointMetrics)>, key: string)
    requires forall i :: 0 <= i < |aligned| ==> aligned[i].0 == aligned[i].1 && aligned[i].0.q_m3s_ref != 0.0
    requires DiffRows(aligned, key).Ok?
    ensures forall k :: 0 <= k < |DiffRows(aligned, key).value| ==>
              DiffRows(aligned, key).value[k].after == DiffRows(aligned, key).value[k].before &&
              DiffRows(aligned, key).value[k].delta_pct == 0.0
    decreases |aligned|
  {
    if aligned != [] {
      var front := aligned[..|aligned| - 1];
      assert forall i :: 0 <= i < |front| ==> front[i] == aligned[i];
      SelfDiffZero(front, key);
      var pr := aligned[|aligned| - 1];
      var last := DiffOf(pr, key).value;
      if last.Some? {
        var d := last.value;
        if Derived(key) {
          assert FlowRatio(pr.0, pr.1) == 1.0;
        }
        assert d.after == d.before;
        assert d.delta_pct * d.before == 0.0;
      }
    }
  }

  /** A session compared with itself: both sides align in full and every diff is 0 %. */
  lemma RunCompareSelf(m: MathLib, s: Session, o: CompareOptions, side: string)
    requires o.tol >= 0.0 && CompareSide(m, s, s, side, o).Ok?
    requires forall i :: 0 <= i < |CompareSide(m, s, s, side, o).value.before| ==>
               CompareSide(m, s, s, side, o).value.before[i].q_m3s_ref != 0.0
    ensures var c := CompareSide(m, s, s, side, o).value;
            c.before == c.after && c.alignedLen == |c.before| &&
            forall key, k :: key in c.diffs && 0 <= k < |c.diffs[key]| ==>
              c.diffs[key][k].after == c.diffs[key][k].before && c.diffs[key][k].delta_pct == 0.0
  {
    var c := CompareSide(m, s, s, side, o).value;
    AlignedSameGrid(c.before, c.after, o.tol);
    var aligned := Aligned(c.before, c.after, o.tol);
    forall key | key in c.diffs
      ensures forall k :: 0 <= k < |c.diffs[key]| ==>
                c.diffs[key][k].after == c.diffs[key][k].before && c.diffs[key][k].delta_pct == 0.0
    {
      SelfDiffZero(aligned, key);
    }
  }
}
