/**
 * The wizard's state object of the GUI: its fields, the per-step validators,
 * the setters the steps call, and how a Session for the compute engine is
 * built from the measurement rows the user typed in.
 */
module Wizard {
  import opened Wrappers
  import opened Wire
  import opened Schemas
  import opened PyText
  import opened PyNum
  import opened Sorting
  import opened WizardGrid

  // ---------------------------------------------------------------------------
  // The state
  // ---------------------------------------------------------------------------

  /** A snapshot of every field of the state object. */
  datatype StateValue = StateValue(
    meta: map<string, Json>,
    air_dp_ref_inH2O: real,
    air_dp_meas_inH2O: Option<real>,
    air: Option<AirConditions>,
    engine: Option<Engine>,
    engine_target_rpm: Option<int>,
    geometry: Option<Geometry>,
    lifts_intake_mm: seq<real>,
    lifts_exhaust_mm: seq<real>,
    dp_per_point_inH2O: map<(string, real), real>,
    will_enter_swirl: bool,
    measure_intake: seq<map<string, Json>>,
    measure_exhaust: seq<map<string, Json>>,
    csa_min_m2: Option<real>,
    csa_avg_m2: Option<real>,
    engine_v_target: Option<real>,
    points_int: seq<map<string, Json>>,
    points_exh: seq<map<string, Json>>,
    results: map<string, Json>,
    tuning: map<string, Json>)
  {
    /** The parts built through their checked constructors passed those checks. */
    predicate WellFormed()
    {
      && (air.Some? ==> air.value.Valid())
      && (engine.Some? ==> engine.value.Valid())
      && (geometry.Some? ==> geometry.value.Valid())
    }
  }

  const DEFAULT_META: map<string, Json> := map[
    "project_name" := JStr(""), "client" := JStr(""), "date_iso" := JStr(""),
    "mode" := JStr("baseline"), "display_units" := JStr("workshop_pl"), "notes" := JNull]

  const DEFAULT_DP_REF_INH2O: real := 28.0

  /** The field defaults of a fresh state. */
  function Default(): (v: StateValue)
    ensures v.WellFormed()
  {
    StateValue(DEFAULT_META, DEFAULT_DP_REF_INH2O, None, None, None, None, None, [], [], map[], false,
      [], [], None, None, None, [], [], map[], map[])
  }

  // ---------------------------------------------------------------------------
  // Python conversions applied to the loosely typed row dictionaries
  // ---------------------------------------------------------------------------

  /** float(x): numbers and booleans convert, text is parsed, None and containers raise (None here). */
  function ToFloat(j: Json): (r: Option<real>)
    ensures j.JNum? ==> r == Some(j.r)
    ensures j.JInt? ==> r == Some(j.i as real)
    ensures j.JNull? || j.JArr? || j.JObj? ==> r.None?
  {
    match j
    case JNum(x) => Some(x)
    case JInt(i) => Some(i as real)
    case JBool(b) => Some(if b then 1.0 else 0.0)
    case JStr(s) => ParseDecimal(Strip(s))
    case _ => None
  }

  /** d.get(key, dflt) */
  function Get(d: map<string, Json>, key: string, dflt: Json): Json
  {
    if key in d then d[key] else dflt
  }

  // ---------------------------------------------------------------------------
  // to_points inside build_session_*
  // ---------------------------------------------------------------------------

  /** The rounded lift and the flow of a row, or None when either fails to convert (the row is skipped). */
  function RowKey(row: map<string, Json>): (r: Option<(real, real)>)
    ensures r.Some? ==> Round3(r.value.0) == r.value.0
  {
    match ToFloat(Get(row, "lift_mm", JNum(0.0)))
    case None => None
    case Some(lift) =>
      match ToFloat(Get(row, "q_cfm", JNum(0.0)))
      case None => None
      case Some(q) =>
        Round3Idempotent(lift);
        Some((Round3(lift), q))
  }

  /** A dp or swirl cell: None stays None, any other value must convert, or the build raises. */
  function OptFloat(row: map<string, Json>, key: string): (r: Result<Option<real>>)
    ensures r.Err? <==> Get(row, key, JNull) != JNull && ToFloat(row[key]).None?
    ensures r.Ok? && r.value.Some? ==> key in row && ToFloat(row[key]) == r.value
  {
    var v := Get(row, key, JNull);
    if v == JNull then Ok(None)
    else
      match ToFloat(v)
      case None => Err("could not convert to float: " + key)
      case Some(x) => Ok(Some(x))
  }

  /** The dictionary to_points stores for one row: lift and flow clamped at zero. */
  datatype Entry = Entry(lift_mm: real, q_cfm: real, dp_inH2O: Option<real>, swirl_rpm: Option<real>)

  /** The key and entry of a row, None for a skipped row, Err when dp or swirl raise. */
  function RowEntry(row: map<string, Json>): (r: Result<Option<(real, Entry)>>)
    ensures r.Ok? ==> (r.value.Some? <==> RowKey(row).Some?)
    ensures r.Ok? && r.value.Some? ==> r.value.value.0 == RowKey(row).value.0
  {
    match RowKey(row)
    case None => Ok(None)
    case Some(kq) =>
      var dp :- OptFloat(row, "dp_inH2O");
      var swirl :- OptFloat(row, "swirl_rpm");
      Ok(Some((kq.0, Entry(Max(kq.0, 0.0), Max(kq.1, 0.0), dp, swirl))))
  }

  /** `LiftPoint(**entry)` without its checks. */
  function PointOf(e: Entry): LiftPoint
  {
    LiftPoint(e.lift_mm, e.q_cfm, e.dp_inH2O, e.swirl_rpm)
  }

  /** The by_lift dictionary and the order in which its keys were first inserted. */
  datatype Collected = Collected(byLift: map<real, Entry>, order: seq<real>)

  /** The loop of to_points over the rows: a later row with the same rounded lift replaces the entry. */
  function Collect(rows: seq<map<string, Json>>): (r: Result<Collected>)
    decreases |rows|
  {
    if rows == [] then Ok(Collected(map[], []))
    else
      var c :- Collect(rows[..|rows| - 1]);
      var e :- RowEntry(rows[|rows| - 1]);
      if e.None? then Ok(c)
      else
        var lift := e.value.0;
        Ok(Collected(c.byLift[lift := e.value.1], if lift in c.byLift then c.order else c.order + [lift]))
  }

  /** Once a row raises, the rest of the rows do not matter. */
  lemma {:induction false} CollectErrSticks(rows: seq<map<string, Json>>, n: nat)
    requires n <= |rows| && Collect(rows[..n]).Err?
    ensures Collect(rows) == Collect(rows[..n])
    decreases |rows|
  {
    if n < |rows| {
      var front := rows[..|rows| - 1];
      assert front[..n] == rows[..n];
      CollectErrSticks(front, n);
    } else {
      assert rows[..n] == rows;
    }
  }

  /**
   * The insertion order lists every key once, and each entry carries its key
   * clamped at zero as lift and a non-negative flow.
   */
  lemma {:induction false} CollectKeys(rows: seq<map<string, Json>>)
    requires Collect(rows).Ok?
    ensures forall k :: k in Collect(rows).value.order <==> k in Collect(rows).value.byLift
    ensures Distinct(Collect(rows).value.order)
    ensures forall k :: k in Collect(rows).value.byLift ==> Collect(rows).value.byLift[k].lift_mm == Max(k, 0.0)
    ensures forall k :: k in Collect(rows).value.byLift ==> Collect(rows).value.byLift[k].q_cfm >= 0.0
    decreases |rows|
  {
    if rows != [] {
      CollectKeys(rows[..|rows| - 1]);
    }
  }

  /** Every entry comes from some row with that rounded lift. */
  lemma {:induction false} CollectOrigin(rows: seq<map<string, Json>>)
    requires Collect(rows).Ok?
    ensures forall k :: k in Collect(rows).value.byLift ==>
      (exists t :: 0 <= t < |rows| && RowEntry(rows[t]) == Ok(Some((k, Collect(rows).value.byLift[k]))))
    decreases |rows|
  {
    if rows != [] {
      var front := rows[..|rows| - 1];
      CollectOrigin(front);
      var m := Collect(rows).value.byLift;
      forall k | k in m ensures exists t :: 0 <= t < |rows| && RowEntry(rows[t]) == Ok(Some((k, m[k]))) {
        var e := RowEntry(rows[|rows| - 1]);
        if e.value.Some? && e.value.value.0 == k {
          assert RowEntry(rows[|rows| - 1]) == Ok(Some((k, m[k])));
        } else {
          var t :| 0 <= t < |front| && RowEntry(front[t]) == Ok(Some((k, Collect(front).value.byLift[k])));
          assert rows[t] == front[t];
        }
      }
    }
  }

  /** A row whose rounded lift no later row repeats is the one whose entry is kept. */
  lemma {:induction false} CollectLastWins(rows: seq<map<string, Json>>, t: nat, k: real, e: Entry)
    requires Collect(rows).Ok? && t < |rows| && RowEntry(rows[t]) == Ok(Some((k, e)))
    requires forall u :: t < u < |rows| ==> RowKey(rows[u]).None? || RowKey(rows[u]).value.0 != k
    ensures k in Collect(rows).value.byLift && Collect(rows).value.byLift[k] == e
    decreases |rows|
  {
    var front := rows[..|rows| - 1];
    if t < |rows| - 1 {
      assert front[t] == rows[t];
      CollectLastWins(front, t, k, e);
    }
  }

  /** The lifts of the dictionary in ascending order: sorted(by_lift.keys()). */
  function SortedKeys(c: Collected): seq<real>
  {
    SortAsc(c.order)
  }

  /** `[LiftPoint(**by_lift[lift]) for lift in keys]`: the checks of LiftPoint may raise. */
  function MakePoints(m: map<real, Entry>, keys: seq<real>): (r: Result<seq<LiftPoint>>)
    requires forall i :: 0 <= i < |keys| ==> keys[i] in m
    decreases |keys|
  {
    if keys == [] then Ok([])
    else
      var ps :- MakePoints(m, keys[..|keys| - 1]);
      var e := m[keys[|keys| - 1]];
      var p :- MkLiftPoint(e.lift_mm, e.q_cfm, e.dp_inH2O, e.swirl_rpm);
      Ok(ps + [p])
  }

  /** Point i is the checked point of key i's entry; the build fails exactly when one check fails. */
  lemma {:induction false} MakePointsSpec(m: map<real, Entry>, keys: seq<real>)
    requires forall i :: 0 <= i < |keys| ==> keys[i] in m
    ensures MakePoints(m, keys).Ok? <==>
      (forall i :: 0 <= i < |keys| ==> MkLiftPoint(m[keys[i]].lift_mm, m[keys[i]].q_cfm, m[keys[i]].dp_inH2O, m[keys[i]].swirl_rpm).Ok?)
    ensures MakePoints(m, keys).Ok? ==> |MakePoints(m, keys).value| == |keys|
    ensures MakePoints(m, keys).Ok? ==> forall i :: 0 <= i < |keys| ==> MakePoints(m, keys).value[i] == PointOf(m[keys[i]])
    decreases |keys|
  {
    if keys != [] {
      MakePointsSpec(m, keys[..|keys| - 1]);
    }
  }

  lemma SortedKeysInMap(rows: seq<map<string, Json>>)
    requires Collect(rows).Ok?
    ensures forall i :: 0 <= i < |SortedKeys(Collect(rows).value)| ==> SortedKeys(Collect(rows).value)[i] in Collect(rows).value.byLift
  {
    var c := Collect(rows).value;
    CollectKeys(rows);
    SortAscPerm(c.order);
    forall i | 0 <= i < |SortedKeys(c)| ensures SortedKeys(c)[i] in c.byLift {
      assert SortedKeys(c)[i] in multiset(SortAsc(c.order));
    }
  }

  /** to_points(rows) */
  function Points(rows: seq<map<string, Json>>): (r: Result<seq<LiftPoint>>)
  {
    var c :- Collect(rows);
    SortedKeysInMap(rows);
    MakePoints(c.byLift, SortedKeys(c))
  }

  /**
   * The points come out ordered by lift. Two points share a lift only where
   * negative lifts were clamped to zero; every positive lift occurs once.
   * Each point passes the LiftPoint checks.
   */
  lemma PointsSorted(rows: seq<map<string, Json>>)
    requires Points(rows).Ok?
    ensures forall i :: 0 <= i < |Points(rows).value| ==> Points(rows).value[i].Valid()
    ensures forall i, j :: 0 <= i < j < |Points(rows).value| ==> Points(rows).value[i].lift_mm <= Points(rows).value[j].lift_mm
    ensures forall i, j :: 0 <= i < j < |Points(rows).value| && Points(rows).value[j].lift_mm > 0.0 ==>
      Points(rows).value[i].lift_mm < Points(rows).value[j].lift_mm
  {
    var c := Collect(rows).value;
    var keys := SortedKeys(c);
    CollectKeys(rows);
    SortedKeysInMap(rows);
    SortedStrictIffDistinct(c.order);
    MakePointsSpec(c.byLift, keys);
    var ps := Points(rows).value;
    forall i | 0 <= i < |ps| ensures ps[i].Valid() {
      assert MkLiftPoint(c.byLift[keys[i]].lift_mm, c.byLift[keys[i]].q_cfm, c.byLift[keys[i]].dp_inH2O, c.byLift[keys[i]].swirl_rpm).Ok?;
    }
    forall i, j | 0 <= i < j < |ps| ensures ps[i].lift_mm <= ps[j].lift_mm && (ps[j].lift_mm > 0.0 ==> ps[i].lift_mm < ps[j].lift_mm) {
      assert keys[i] < keys[j];
      assert ps[i].lift_mm == Max(keys[i], 0.0) && ps[j].lift_mm == Max(keys[j], 0.0);
    }
  }

  /**
   * Every point stands for a row: there is a row whose rounded lift is the
   * point's key and whose clamped values and dp and swirl the point carries.
   */
  lemma PointsFromRows(rows: seq<map<string, Json>>)
    requires Points(rows).Ok?
    ensures forall i :: 0 <= i < |Points(rows).value| ==>
      (exists t: nat, k: real, e: Entry :: t < |rows| && RowEntry(rows[t]) == Ok(Some((k, e))) && Points(rows).value[i] == PointOf(e))
  {
    var c := Collect(rows).value;
    var keys := SortedKeys(c);
    SortedKeysInMap(rows);
    CollectOrigin(rows);
    MakePointsSpec(c.byLift, keys);
    var ps := Points(rows).value;
    forall i | 0 <= i < |ps|
      ensures exists t: nat, k: real, e: Entry :: t < |rows| && RowEntry(rows[t]) == Ok(Some((k, e))) && ps[i] == PointOf(e)
    {
      var k := keys[i];
      var t :| 0 <= t < |rows| && RowEntry(rows[t]) == Ok(Some((k, c.byLift[k])));
    }
  }

  /** The last row with a given rounded lift is the one that makes it to the points. */
  lemma PointsLastWins(rows: seq<map<string, Json>>, t: nat, k: real, e: Entry)
    requires Points(rows).Ok? && t < |rows| && RowEntry(rows[t]) == Ok(Some((k, e)))
    requires forall u :: t < u < |rows| ==> RowKey(rows[u]).None? || RowKey(rows[u]).value.0 != k
    ensures PointOf(e) in Points(rows).value
  {
    var c := Collect(rows).value;
    var keys := SortedKeys(c);
    CollectLastWins(rows, t, k, e);
    CollectKeys(rows);
    SortedKeysInMap(rows);
    SortAscPerm(c.order);
    MakePointsSpec(c.byLift, keys);
    assert k in multiset(keys);
    var i :| 0 <= i < |keys| && keys[i] == k;
    assert Points(rows).value[i] == PointOf(e);
  }

  /** to_points: fill by_lift row by row, then build the points in ascending lift order. */
  method ToPoints(rows: seq<map<string, Json>>) returns (r: Result<seq<LiftPoint>>)
    ensures r == Points(rows)
  {
    var byLift: map<real, Entry> := map[];
    var order: seq<real> := [];
    for i := 0 to |rows|
      invariant Collect(rows[..i]) == Ok(Collected(byLift, order))
    {
      assert rows[..i + 1][..i] == rows[..i];
      var e := RowEntry(rows[i]);
      if e.Err? {
        CollectErrSticks(rows, i + 1);
        return Err(e.msg);
      }
      if e.value.Some? {
        var lift := e.value.value.0;
        if lift !in byLift {
          order := order + [lift];
        }
        byLift := byLift[lift := e.value.value.1];
      }
    }
    assert rows[..|rows|] == rows;
    SortedKeysInMap(rows);
    var keys := SortAsc(order);
    assert keys == SortedKeys(Collect(rows).value);
    var points: seq<LiftPoint> := [];
    for j := 0 to |keys|
      invariant forall i :: 0 <= i < |keys| ==> keys[i] in byLift
      invariant MakePoints(byLift, keys[..j]) == Ok(points)
    {
      assert keys[..j + 1][..j] == keys[..j];
      var entry := byLift[keys[j]];
      var p := MkLiftPoint(entry.lift_mm, entry.q_cfm, entry.dp_inH2O, entry.swirl_rpm);
      if p.Err? {
        MakePointsErrSticks(byLift, keys, j + 1);
        return Err(p.msg);
      }
      points := points + [p.value];
    }
    assert keys[..|keys|] == keys;
    r := Ok(points);
  }

  lemma {:induction false} MakePointsErrSticks(m: map<real, Entry>, keys: seq<real>, n: nat)
    requires forall i :: 0 <= i < |keys| ==> keys[i] in m
    requires n <= |keys| && MakePoints(m, keys[..n]).Err?
    ensures MakePoints(m, keys) == MakePoints(m, keys[..n])
    decreases |keys|
  {
    if n < |keys| {
      var front := keys[..|keys| - 1];
      assert front[..n] == keys[..n];
      MakePointsErrSticks(m, front, n);
    } else {
      assert keys[..n] == keys;
    }
  }

  // ---------------------------------------------------------------------------
  // build_session_*
  // ---------------------------------------------------------------------------

  /**
   * The session mode: the meta "mode" lowered, when that is one of the two
   * mode words, and "baseline" otherwise. Only text can lower to a mode word:
   * str() of None, a boolean, a number or a container never does.
   */
  function ModeOf(meta: map<string, Json>): (r: string)
    ensures r == "baseline" || r == "after"
    ensures "mode" !in meta || !meta["mode"].JStr? ==> r == "baseline"
  {
    if "mode" in meta && meta["mode"].JStr? && Lower(meta["mode"].s) in {"baseline", "after"} then Lower(meta["mode"].s)
    else "baseline"
  }

  /** Lowering twice is lowering once. */
  lemma LowerIdempotent(s: string)
    ensures Lower(Lower(s)) == Lower(s)
  {
    var l := Lower(s);
    forall i | 0 <= i < |s| ensures Lower(l)[i] == l[i] {
      assert !('A' <= l[i] <= 'Z');
    }
  }

  /** The mode word is read without regard to case: "After" and "after" give the same mode. */
  lemma ModeIgnoresCase(meta: map<string, Json>, s: string)
    requires "mode" in meta && meta["mode"] == JStr(s)
    ensures ModeOf(meta) == ModeOf(meta["mode" := JStr(Lower(s))])
    ensures ModeOf(meta) == "after" <==> Lower(s) == "after"
  {
    LowerIdempotent(s);
  }

  /** The guard and the two point lists of build_session_from_wizard_for_compute; no CSA profile. */
  function SessionForCompute(v: StateValue): (r: Result<Session>)
    ensures r.Ok? <==>
      v.air.Some? && v.engine.Some? && v.geometry.Some? && Points(v.measure_intake).Ok? && Points(v.measure_exhaust).Ok?
    ensures r.Ok? ==> r.value.csa.None? && r.value.tuning == JNull && r.value.meta == JObj(v.meta)
    ensures r.Ok? ==> r.value.air == v.air.value && r.value.engine == v.engine.value && r.value.geom == v.geometry.value
    ensures r.Ok? ==> r.value.lifts == FlowSeries(Points(v.measure_intake).value, Points(v.measure_exhaust).value)
  {
    if v.air.None? || v.engine.None? || v.geometry.None? then Err("Missing air/engine/geometry in wizard state")
    else
      var intake :- Points(v.measure_intake);
      var exhaust :- Points(v.measure_exhaust);
      Ok(Session(JObj(v.meta), JStr(ModeOf(v.meta)), v.air.value, v.engine.value, v.geometry.value,
        FlowSeries(intake, exhaust), None, JNull))
  }

  /** The CSA profile of build_session_for_run_all: built when either cross-section is set. */
  function CsaOf(v: StateValue): (r: Result<Option<CSAProfile>>)
    ensures r.Ok? <==> PosIfPresent(v.csa_min_m2) && PosIfPresent(v.csa_avg_m2)
    ensures r.Ok? ==> (r.value.Some? <==> v.csa_min_m2.Some? || v.csa_avg_m2.Some?)
    ensures r.Ok? && r.value.Some? ==> r.value.value == CSAProfile(v.csa_min_m2, v.csa_avg_m2)
  {
    if v.csa_min_m2.Some? || v.csa_avg_m2.Some? then
      var c :- MkCSAProfile(v.csa_min_m2, v.csa_avg_m2);
      Ok(Some(c))
    else Ok(None)
  }

  /** build_session_for_run_all: the session for compute, then the CSA profile. */
  function SessionForRunAll(v: StateValue): (r: Result<Session>)
    ensures r.Ok? <==> SessionForCompute(v).Ok? && PosIfPresent(v.csa_min_m2) && PosIfPresent(v.csa_avg_m2)
    ensures r.Ok? ==> r.value == SessionForCompute(v).value.(csa := CsaOf(v).value)
  {
    var s :- SessionForCompute(v);
    var csa :- CsaOf(v);
    Ok(s.(csa := csa))
  }

  /** A session built from a well-formed state passes every check of the schema. */
  lemma SessionForComputeValid(v: StateValue)
    requires v.WellFormed() && SessionForCompute(v).Ok?
    ensures SessionForCompute(v).value.Valid()
  {
    PointsSorted(v.measure_intake);
    PointsSorted(v.measure_exhaust);
  }

  lemma SessionForRunAllValid(v: StateValue)
    requires v.WellFormed() && SessionForRunAll(v).Ok?
    ensures SessionForRunAll(v).value.Valid()
  {
    SessionForComputeValid(v);
  }

  // ---------------------------------------------------------------------------
  // set_csa_from_ui
  // ---------------------------------------------------------------------------

  /** A cross-section typed in mm^2, in m^2: kept only when positive. */
  function CsaFromUi(x: Option<real>): (r: Option<real>)
    ensures r.Some? <==> x.Some? && x.value > 0.0
    ensures r.Some? ==> r.value > 0.0 && r.value * 1000000.0 == x.value
  {
    if x.Some? && x.value > 0.0 then Some(x.value / 1000000.0) else None
  }

  /** A target velocity: kept only when positive. */
  function PositiveOrNone(x: Option<real>): (r: Option<real>)
    ensures r.Some? <==> x.Some? && x.value > 0.0
    ensures r.Some? ==> r == x
  {
    if x.Some? && x.value > 0.0 then x else None
  }

  /** The state after set_csa_from_ui. */
  function WithCsa(v: StateValue, min_csa_mm2: Option<real>, avg_csa_mm2: Option<real>, v_target: Option<real>): StateValue
  {
    v.(csa_min_m2 := CsaFromUi(min_csa_mm2), csa_avg_m2 := CsaFromUi(avg_csa_mm2), engine_v_target := PositiveOrNone(v_target))
  }

  /**
   * Whatever the user types, the CSA values set from the UI never make the
   * CSAProfile checks fail: the full session builds exactly when the one for
   * compute does, and it carries a profile exactly when a positive value was typed.
   */
  lemma CsaFromUiNeverFails(v: StateValue, min_csa_mm2: Option<real>, avg_csa_mm2: Option<real>, v_target: Option<real>)
    ensures SessionForRunAll(WithCsa(v, min_csa_mm2, avg_csa_mm2, v_target)).Ok? <==> SessionForCompute(v).Ok?
    ensures SessionForRunAll(WithCsa(v, min_csa_mm2, avg_csa_mm2, v_target)).Ok? ==>
      (SessionForRunAll(WithCsa(v, min_csa_mm2, avg_csa_mm2, v_target)).value.csa.Some? <==>
        (min_csa_mm2.Some? && min_csa_mm2.value > 0.0) || (avg_csa_mm2.Some? && avg_csa_mm2.value > 0.0))
  {
    var w := WithCsa(v, min_csa_mm2, avg_csa_mm2, v_target);
    assert SessionForCompute(w) == SessionForCompute(v);
  }

  // ---------------------------------------------------------------------------
  // The state object
  // ---------------------------------------------------------------------------

  class WizardState {
    var meta: map<string, Json>
    var air_dp_ref_inH2O: real
    var air_dp_meas_inH2O: Option<real>
    var air: Option<AirConditions>
    var engine: Option<Engine>
    var engine_target_rpm: Option<int>
    var geometry: Option<Geometry>
    var lifts_intake_mm: seq<real>
    var lifts_exhaust_mm: seq<real>
    var dp_per_point_inH2O: map<(string, real), real>
    var will_enter_swirl: bool
    var measure_intake: seq<map<string, Json>>
    var measure_exhaust: seq<map<string, Json>>
    var csa_min_m2: Option<real>
    var csa_avg_m2: Option<real>
    var engine_v_target: Option<real>
    var points_int: seq<map<string, Json>>
    var points_exh: seq<map<string, Json>>
    var results: map<string, Json>
    var tuning: map<string, Json>

    /** Every field at its default. */
    constructor()
      ensures Value() == Default()
    {
      meta := DEFAULT_META;
      air_dp_ref_inH2O := DEFAULT_DP_REF_INH2O;
      air_dp_meas_inH2O := None;
      air := None;
      engine := None;
      engine_target_rpm := None;
      geometry := None;
      lifts_intake_mm := [];
      lifts_exhaust_mm := [];
      dp_per_point_inH2O := map[];
      will_enter_swirl := false;
      measure_intake := [];
      measure_exhaust := [];
      csa_min_m2 := None;
      csa_avg_m2 := None;
      engine_v_target := None;
      points_int := [];
      points_exh := [];
      results := map[];
      tuning := map[];
    }

    function Value(): StateValue
      reads this
    {
      StateValue(meta, air_dp_ref_inH2O, air_dp_meas_inH2O, air, engine, engine_target_rpm, geometry,
        lifts_intake_mm, lifts_exhaust_mm, dp_per_point_inH2O, will_enter_swirl, measure_intake, measure_exhaust,
        csa_min_m2, csa_avg_m2, engine_v_target, points_int, points_exh, results, tuning)
    }

    /** Store the cross-sections in m^2 and the target velocity; non-positive entries become None. */
    method SetCsaFromUi(min_csa_mm2: Option<real>, avg_csa_mm2: Option<real>, v_target: Option<real>)
      modifies this
      ensures Value() == WithCsa(old(Value()), min_csa_mm2, avg_csa_mm2, v_target)
    {
      csa_min_m2 := if min_csa_mm2.Some? && min_csa_mm2.value > 0.0 then Some(min_csa_mm2.value / 1000000.0) else None;
      csa_avg_m2 := if avg_csa_mm2.Some? && avg_csa_mm2.value > 0.0 then Some(avg_csa_mm2.value / 1000000.0) else None;
      engine_v_target := if v_target.Some? && v_target.value > 0.0 then v_target else None;
    }

    method BuildSessionFromWizardForCompute() returns (r: Result<Session>)
      ensures r == SessionForCompute(Value())
    {
      if air.None? || engine.None? || geometry.None? {
        return Err("Missing air/engine/geometry in wizard state");
      }
      var intake := ToPoints(measure_intake);
      if intake.Err? {
        return Err(intake.msg);
      }
      var exhaust := ToPoints(measure_exhaust);
      if exhaust.Err? {
        return Err(exhaust.msg);
      }
      r := Ok(Session(JObj(meta), JStr(ModeOf(meta)), air.value, engine.value, geometry.value,
        FlowSeries(intake.value, exhaust.value), None, JNull));
    }

    method BuildSessionForRunAll() returns (r: Result<Session>)
      ensures r == SessionForRunAll(Value())
    {
      var s := BuildSessionFromWizardForCompute();
      if s.Err? {
        return s;
      }
      var csa: Option<CSAProfile> := None;
      if csa_min_m2.Some? || csa_avg_m2.Some? {
        var c := MkCSAProfile(csa_min_m2, csa_avg_m2);
        if c.Err? {
          return Err(c.msg);
        }
        csa := Some(c.value);
      }
      r := Ok(s.value.(csa := csa));
    }
  }

  // ---------------------------------------------------------------------------
  // Step validators
  // ---------------------------------------------------------------------------

  /** bool(str(m.get(key, "")).strip()): text must hold a non-blank character; any other value counts as filled in. */
  predicate Filled(m: map<string, Json>, key: string)
  {
    key in m && (m[key].JStr? ==> Strip(m[key].s) != [])
  }

  predicate HasText(m: map<string, Json>, key: string)
  {
    key in m && (m[key].JStr? ==> exists i :: 0 <= i < |m[key].s| && !IsSpace(m[key].s[i]))
  }

  predicate IsValidStepStart(v: StateValue)
  {
    Filled(v.meta, "project_name") && Filled(v.meta, "client")
  }

  /** The start step needs a project name and a client that are not only whitespace. */
  lemma StartNeedsText(v: StateValue)
    ensures IsValidStepStart(v) <==> HasText(v.meta, "project_name") && HasText(v.meta, "client")
  {
    if "project_name" in v.meta && v.meta["project_name"].JStr? {
      StripEmpty(v.meta["project_name"].s);
    }
    if "client" in v.meta && v.meta["client"].JStr? {
      StripEmpty(v.meta["client"].s);
    }
  }

  /** A fresh state has an empty project name and client, so the start step is not yet valid. */
  lemma FreshStateNotStarted()
    ensures !IsValidStepStart(Default())
  {
    StartNeedsText(Default());
    assert |DEFAULT_META["project_name"].s| == 0;
  }

  predicate IsValidStepBench(v: StateValue)
  {
    v.air_dp_ref_inH2O > 0.0 && v.air.Some? && v.air.value.p_tot > 0.0 && 0.0 <= v.air.value.RH <= 1.0
  }

  /** With checked air conditions the bench step only asks for them and a positive reference dp. */
  lemma BenchStepFollowsAir(v: StateValue)
    requires v.WellFormed()
    ensures IsValidStepBench(v) <==> v.air_dp_ref_inH2O > 0.0 && v.air.Some?
  {
  }

  predicate IsValidStepEngine(v: StateValue)
  {
    && v.engine.Some?
    && v.engine.value.displ_L > 0.0 && v.engine.value.cylinders > 0
    && (v.engine.value.ve.Some? ==> v.engine.value.ve.value >= 0.0)
    && (v.engine_target_rpm.Some? ==> v.engine_target_rpm.value > 0)
  }

  /** The engine step repeats the Engine checks and adds a positive target rpm when one is set. */
  lemma EngineStepIsEngineChecks(v: StateValue)
    ensures IsValidStepEngine(v) <==>
      v.engine.Some? && v.engine.value.Valid() && (v.engine_target_rpm.Some? ==> v.engine_target_rpm.value > 0)
  {
  }

  /** is_valid_step_geometry on a present geometry. */
  predicate GeometryStepOk(g: Geometry)
  {
    && g.bore_m > 0.0 && g.valve_int_m > 0.0 && g.valve_exh_m > 0.0 && g.throat_m > 0.0 && g.stem_m > 0.0
    && g.stem_m < g.throat_m
    && g.valve_int_m > g.throat_m && g.valve_exh_m > g.throat_m
    && (g.port_volume_cc.Some? ==> g.port_volume_cc.value >= 0.0)
    && (g.port_length_m.Some? ==> g.port_length_m.value > 0.0)
    && (g.seat_width_m.Some? ==> g.seat_width_m.value >= 0.0)
  }

  predicate IsValidStepGeometry(v: StateValue)
  {
    v.geometry.Some? && GeometryStepOk(v.geometry.value)
  }

  /**
   * On a checked geometry the step adds exactly what the Geometry checks
   * leave out: a stem of positive width and valves wider than the throat.
   */
  lemma GeometryStepAddsValves(g: Geometry)
    requires g.Valid()
    ensures GeometryStepOk(g) <==> g.stem_m > 0.0 && g.valve_int_m > g.throat_m && g.valve_exh_m > g.throat_m
  {
  }

  predicate IsValidStepPlan(v: StateValue)
  {
    && v.lifts_intake_mm != []
    && StepsUp(SortAsc(v.lifts_intake_mm))
    && (v.lifts_exhaust_mm != [] ==> StepsUp(SortAsc(v.lifts_exhaust_mm)))
    && (forall k :: k in v.dp_per_point_inH2O ==> v.dp_per_point_inH2O[k] > 0.0)
  }

  /**
   * The plan step holds exactly when there is an intake lift, no lift is
   * planned twice on either side and every stored dp is positive.
   */
  lemma PlanStepIff(v: StateValue)
    ensures IsValidStepPlan(v) <==>
      v.lifts_intake_mm != [] && Distinct(v.lifts_intake_mm) && Distinct(v.lifts_exhaust_mm)
      && (forall k :: k in v.dp_per_point_inH2O ==> v.dp_per_point_inH2O[k] > 0.0)
  {
    StepsUpIff(SortAsc(v.lifts_intake_mm));
    StepsUpIff(SortAsc(v.lifts_exhaust_mm));
    SortedStrictIffDistinct(v.lifts_intake_mm);
    SortedStrictIffDistinct(v.lifts_exhaust_mm);
  }

  // ---------------------------------------------------------------------------
  // set_plan_from_ui
  // ---------------------------------------------------------------------------

  /** The planned lifts of one side: rounded to 3 decimals, sorted, without repeats. */
  function PlanOf(xs: seq<real>): seq<real>
  {
    SortedUniqueSpec(MapSeq(Round3, xs))
  }

  /** Exactly the rounded inputs, strictly increasing; empty only for an empty input. */
  lemma PlanOfProps(xs: seq<real>)
    ensures StrictlyIncreasing(PlanOf(xs))
    ensures forall x :: x in PlanOf(xs) <==> exists i :: 0 <= i < |xs| && x == Round3(xs[i])
    ensures PlanOf(xs) == [] <==> xs == []
    ensures forall i :: 0 <= i < |PlanOf(xs)| ==> Round3(PlanOf(xs)[i]) == PlanOf(xs)[i]
  {
    var m := MapSeq(Round3, xs);
    SortedUniqueSpecProps(m);
    forall x ensures x in m <==> exists i :: 0 <= i < |xs| && x == Round3(xs[i]) {
      if x in m {
        var i :| 0 <= i < |m| && m[i] == x;
      }
    }
    if xs != [] {
      assert m[0] in PlanOf(xs);
    }
    forall i | 0 <= i < |PlanOf(xs)| ensures Round3(PlanOf(xs)[i]) == PlanOf(xs)[i] {
      assert PlanOf(xs)[i] in PlanOf(xs);
      var j :| 0 <= j < |xs| && PlanOf(xs)[i] == Round3(xs[j]);
      Round3Idempotent(xs[j]);
    }
  }

  /** Planning an already planned list gives it back. */
  lemma PlanOfIdempotent(xs: seq<real>)
    ensures PlanOf(PlanOf(xs)) == PlanOf(xs)
  {
    var p := PlanOf(xs);
    PlanOfProps(xs);
    assert MapSeq(Round3, p) == p;
    SortedUniqueKeeps(p);
  }

  /** The dp entries set_plan_from_ui keeps: a planned lift of the named side, with a value. */
  predicate KeepsDp(k: (string, real), li: seq<real>, le: seq<real>)
  {
    (k.0 == "intake" && k.1 in li) || (k.0 == "exhaust" && k.1 in le)
  }

  function FilterDp(dp_map: map<(string, real), Option<real>>, li: seq<real>, le: seq<real>): (r: map<(string, real), real>)
    ensures forall k :: k in r <==> k in dp_map && dp_map[k].Some? && KeepsDp(k, li, le)
    ensures forall k :: k in r ==> r[k] == dp_map[k].value
  {
    map k | k in dp_map && dp_map[k].Some? && KeepsDp(k, li, le) :: dp_map[k].value
  }

  /** The state after set_plan_from_ui. */
  function ApplyPlan(v: StateValue, intake: seq<real>, exhaust: seq<real>, dp_map: map<(string, real), Option<real>>, will_swirl: bool): StateValue
  {
    var li := PlanOf(intake);
    var le := PlanOf(exhaust);
    v.(lifts_intake_mm := li, lifts_exhaust_mm := le, dp_per_point_inH2O := FilterDp(dp_map, li, le), will_enter_swirl := will_swirl)
  }

  /**
   * A plan set from the UI with at least one intake lift and positive dp
   * values passes the plan step, whatever repeats or order the lists had.
   */
  lemma ApplyPlanPassesStep(v: StateValue, intake: seq<real>, exhaust: seq<real>, dp_map: map<(string, real), Option<real>>, will_swirl: bool)
    requires intake != []
    requires forall k :: k in dp_map && dp_map[k].Some? ==> dp_map[k].value > 0.0
    ensures IsValidStepPlan(ApplyPlan(v, intake, exhaust, dp_map, will_swirl))
  {
    var w := ApplyPlan(v, intake, exhaust, dp_map, will_swirl);
    PlanOfProps(intake);
    PlanOfProps(exhaust);
    SortedStrictIffDistinct(w.lifts_intake_mm);
    SortedStrictIffDistinct(w.lifts_exhaust_mm);
    PlanStepIff(w);
  }

  /** Every stored dp belongs to a planned lift of its side. */
  lemma ApplyPlanDpMatchesLifts(v: StateValue, intake: seq<real>, exhaust: seq<real>, dp_map: map<(string, real), Option<real>>, will_swirl: bool)
    ensures forall k :: k in ApplyPlan(v, intake, exhaust, dp_map, will_swirl).dp_per_point_inH2O ==>
      (k.0 == "intake" && exists i :: 0 <= i < |intake| && k.1 == Round3(intake[i]))
      || (k.0 == "exhaust" && exists i :: 0 <= i < |exhaust| && k.1 == Round3(exhaust[i]))
  {
    PlanOfProps(intake);
    PlanOfProps(exhaust);
  }

  /** The loop of set_plan_from_ui over dp_map: keep a value for each planned lift of its side. */
  method KeepPlannedDp(dp_map: map<(string, real), Option<real>>, li: seq<real>, le: seq<real>) returns (newDp: map<(string, real), real>)
    ensures newDp == FilterDp(dp_map, li, le)
  {
    newDp := map[];
    var todo := dp_map.Keys;
    while todo != {}
      invariant todo <= dp_map.Keys
      invariant forall k :: k in newDp <==> k in dp_map && k !in todo && dp_map[k].Some? && KeepsDp(k, li, le)
      invariant forall k :: k in newDp ==> newDp[k] == dp_map[k].value
      decreases |todo|
    {
      var k :| k in todo;
      var dp := dp_map[k];
      var side, lift := k.0, k.1;
      if side == "intake" || side == "exhaust" {
        if side == "intake" && lift in li && dp.Some? {
          newDp := newDp[(side, lift) := dp.value];
        }
        if side == "exhaust" && lift in le && dp.Some? {
          newDp := newDp[(side, lift) := dp.value];
        }
      }
      todo := todo - {k};
    }
  }

  method SetPlanFromUi(s: WizardState, intake: seq<real>, exhaust: seq<real>, dp_map: map<(string, real), Option<real>>, will_swirl: bool)
    modifies s
    ensures s.Value() == ApplyPlan(old(s.Value()), intake, exhaust, dp_map, will_swirl)
  {
    ghost var v := s.Value();
    var li := SortedUnique(MapSeq(Round3, intake));
    var le := SortedUnique(MapSeq(Round3, exhaust));
    s.lifts_intake_mm := li;
    s.lifts_exhaust_mm := le;
    var newDp := KeepPlannedDp(dp_map, li, le);
    s.dp_per_point_inH2O := newDp;
    s.will_enter_swirl := will_swirl;
    assert s.Value() == v.(lifts_intake_mm := li, lifts_exhaust_mm := le, dp_per_point_inH2O := newDp, will_enter_swirl := will_swirl);
  }

  // ---------------------------------------------------------------------------
  // set_geometry_from_ui
  // ---------------------------------------------------------------------------

  /** The geometry fields as typed in the UI: lengths in mm, port volume in cc. */
  datatype GeometryInput = GeometryInput(
    bore_mm: real, valve_int_mm: real, valve_exh_mm: real, throat_mm: real, stem_mm: real,
    throat_int_mm: Option<real>, throat_exh_mm: Option<real>,
    seat_angle_deg: Option<real>, seat_width_mm: Option<real>,
    port_volume_cc: Option<real>, port_length_mm: Option<real>)

  function MmToM(x: Option<real>): (r: Option<real>)
    ensures r.Some? <==> x.Some?
    ensures r.Some? ==> r.value * 1000.0 == x.value
  {
    if x.Some? then Some(x.value / 1000.0) else None
  }

  /** The Geometry the setter constructs, before its checks; the seat angle defaults to 45 degrees. */
  function Metric(u: GeometryInput): Geometry
  {
    Geometry(u.bore_mm / 1000.0, u.valve_int_mm / 1000.0, u.valve_exh_mm / 1000.0, u.throat_mm / 1000.0, u.stem_mm / 1000.0,
      MmToM(u.throat_int_mm), MmToM(u.throat_exh_mm),
      u.port_volume_cc, MmToM(u.port_length_mm),
      Some(if u.seat_angle_deg.Some? then u.seat_angle_deg.value else 45.0), MmToM(u.seat_width_mm))
  }

  /** The geometry stored by the setter: None when the Geometry checks raise. */
  function GeometryFromUi(u: GeometryInput): (r: Option<Geometry>)
    ensures r.Some? ==> r.value.Valid()
    ensures r.Some? ==> r.value.bore_m * 1000.0 == u.bore_mm && r.value.throat_m * 1000.0 == u.throat_mm
    ensures r.Some? ==> r.value.valve_int_m * 1000.0 == u.valve_int_mm && r.value.valve_exh_m * 1000.0 == u.valve_exh_mm
    ensures r.Some? ==> r.value.stem_m * 1000.0 == u.stem_mm && r.value.port_volume_cc == u.port_volume_cc
    ensures r.Some? ==> r.value.seat_angle_deg == Some(if u.seat_angle_deg.Some? then u.seat_angle_deg.value else 45.0)
  {
    match MkGeometry(Metric(u))
    case Ok(g) => Some(g)
    case Err(_) => None
  }

  /** The setter accepts the inputs exactly when these hold, stated in the UI's own units. */
  lemma GeometryFromUiIff(u: GeometryInput)
    ensures GeometryFromUi(u).Some? <==>
      && u.bore_mm > 0.0 && u.valve_int_mm > 0.0 && u.valve_exh_mm > 0.0 && u.throat_mm > 0.0
      && PosIfPresent(u.throat_int_mm) && PosIfPresent(u.throat_exh_mm)
      && 0.0 <= u.stem_mm < u.throat_mm
      && (u.throat_int_mm.Some? ==> u.stem_mm < u.throat_int_mm.value)
      && (u.throat_exh_mm.Some? ==> u.stem_mm < u.throat_exh_mm.value)
      && PosIfPresent(u.port_volume_cc) && PosIfPresent(u.port_length_mm) && PosIfPresent(u.seat_width_mm)
  {
    var g := Metric(u);
    assert g.Valid() ==> GeometryFromUi(u).Some?;
  }

  /** A stem as wide as the throat is refused, so the geometry step fails. */
  lemma StemAtThroatFailsStep(v: StateValue, u: GeometryInput)
    requires u.stem_mm >= u.throat_mm
    ensures !IsValidStepGeometry(v.(geometry := GeometryFromUi(u)))
  {
    GeometryFromUiIff(u);
  }

  /** Geometry from the UI passes the step exactly when the stem has width and the valves clear the throat. */
  lemma GeometryFromUiStep(v: StateValue, u: GeometryInput)
    requires GeometryFromUi(u).Some?
    ensures IsValidStepGeometry(v.(geometry := GeometryFromUi(u))) <==>
      u.stem_mm > 0.0 && u.valve_int_mm > u.throat_mm && u.valve_exh_mm > u.throat_mm
  {
  }

  method SetGeometryFromUi(s: WizardState, bore_mm: real, valve_int_mm: real, valve_exh_mm: real, throat_mm: real,
    stem_mm: real, seat_angle_deg: Option<real>, seat_width_mm: Option<real>, port_volume_cc: Option<real>,
    port_length_mm: Option<real>)
    modifies s
    ensures s.Value() == old(s.Value()).(geometry := GeometryFromUi(GeometryInput(bore_mm, valve_int_mm, valve_exh_mm,
      throat_mm, stem_mm, None, None, seat_angle_deg, seat_width_mm, port_volume_cc, port_length_mm)))
  {
    var g := MkGeometry(Metric(GeometryInput(bore_mm, valve_int_mm, valve_exh_mm, throat_mm, stem_mm, None, None,
      seat_angle_deg, seat_width_mm, port_volume_cc, port_length_mm)));
    s.geometry := if g.Ok? then Some(g.value) else None;
  }
}
