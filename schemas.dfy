/**
 * The session schema: air conditions, engine, head geometry, raw lift
 * points, flow series, cross-section profile and the session itself.
 *
 * Each frozen dataclass is a datatype with a `Valid` predicate; the checked
 * constructor `Mk…` runs the `__post_init__` checks in their order and fails
 * exactly when `Valid` does not hold. `ToDict` and `FromDict` are the
 * dictionary forms, where None-valued optional fields are left out.
 */
module Schemas {
  import opened Wrappers
  import opened Wire

  /** `_pos`: the value itself, or an error when it is not positive. */
  function CheckPos(name: string, v: real): (r: Result<real>)
    ensures r.Ok? <==> v > 0.0
    ensures r.Ok? ==> r.value == v
  {
    if v <= 0.0 then Err(name + " must be > 0") else Ok(v)
  }

  /** `_nonneg`: the value itself, or an error when it is negative. */
  function CheckNonNeg(name: string, v: real): (r: Result<real>)
    ensures r.Ok? <==> v >= 0.0
    ensures r.Ok? ==> r.value == v
  {
    if v < 0.0 then Err(name + " must be >= 0") else Ok(v)
  }

  /** `_pos` applied only when the optional value is present. */
  function CheckOptPos(name: string, v: Option<real>): (r: Result<Option<real>>)
    ensures r.Ok? <==> (v.Some? ==> v.value > 0.0)
    ensures r.Ok? ==> r.value == v
  {
    if v.Some? && v.value <= 0.0 then Err(name + " must be > 0") else Ok(v)
  }

  predicate PosIfPresent(v: Option<real>) { v.Some? ==> v.value > 0.0 }

  // ---------------------------------------------------------------------------
  // AirConditions
  // ---------------------------------------------------------------------------

  datatype AirConditions = AirConditions(p_tot: real, T: real, RH: real)
  {
    predicate Valid() { p_tot > 0.0 && T > 0.0 && 0.0 <= RH <= 1.0 }
  }

  function MkAirConditions(p_tot: real, T: real, RH: real): (r: Result<AirConditions>)
    ensures r.Ok? <==> p_tot > 0.0 && T > 0.0 && 0.0 <= RH <= 1.0
    ensures r.Ok? ==> r.value == AirConditions(p_tot, T, RH) && r.value.Valid()
  {
    var _ :- CheckPos("p_tot", p_tot);
    var _ :- CheckPos("T", T);
    if !(0.0 <= RH <= 1.0) then Err("RH must be in [0,1]")
    else Ok(AirConditions(p_tot, T, RH))
  }

  const AIR_KEYS: set<string> := {"p_tot", "T", "RH"}

  /** `asdict`: every field, RH included. */
  function AirToDict(a: AirConditions): (d: map<string, Json>)
    ensures d.Keys == AIR_KEYS
  {
    map["p_tot" := JNum(a.p_tot), "T" := JNum(a.T), "RH" := JNum(a.RH)]
  }

  function AirFromDict(j: Json): (r: Result<AirConditions>)
    ensures r.Ok? ==> r.value.Valid()
    ensures r.Ok? ==> j.JObj? && OnlyKeys(j.fields, AIR_KEYS)
  {
    if !j.JObj? then Err("argument after ** must be a mapping")
    else if !OnlyKeys(j.fields, AIR_KEYS) then Err("unexpected keyword argument")
    else
      var p :- RequiredNum(j.fields, "p_tot");
      var t :- RequiredNum(j.fields, "T");
      var rh :- OptionalNum(j.fields, "RH", Some(0.0));
      if rh.None? then Err("RH must be a number")
      else MkAirConditions(p, t, rh.value)
  }

  lemma AirRoundTrip(a: AirConditions)
    requires a.Valid()
    ensures AirFromDict(JObj(AirToDict(a))) == Ok(a)
  {
    var d := AirToDict(a);
    assert RequiredNum(d, "p_tot") == Ok(a.p_tot);
    assert RequiredNum(d, "T") == Ok(a.T);
    assert OptionalNum(d, "RH", Some(0.0)) == Ok(Some(a.RH));
  }

  // ---------------------------------------------------------------------------
  // Engine
  // ---------------------------------------------------------------------------

  datatype Engine = Engine(displ_L: real, cylinders: int, ve: Option<real>)
  {
    predicate Valid() { displ_L > 0.0 && cylinders > 0 && (ve.Some? ==> ve.value >= 0.0) }
  }

  /** A zero volumetric efficiency is accepted here. */
  function MkEngine(displ_L: real, cylinders: int, ve: Option<real>): (r: Result<Engine>)
    ensures r.Ok? <==> displ_L > 0.0 && cylinders > 0 && (ve.Some? ==> ve.value >= 0.0)
    ensures r.Ok? ==> r.value == Engine(displ_L, cylinders, ve) && r.value.Valid()
  {
    var _ :- CheckPos("displ_L", displ_L);
    if cylinders <= 0 then Err("cylinders must be > 0")
    else if ve.Some? && ve.value < 0.0 then Err("ve must be >= 0")
    else Ok(Engine(displ_L, cylinders, ve))
  }

  const ENGINE_KEYS: set<string> := {"displ_L", "cylinders", "ve"}

  function EngineToDict(e: Engine): (d: map<string, Json>)
    ensures d.Keys == if e.ve.Some? then ENGINE_KEYS else ENGINE_KEYS - {"ve"}
  {
    OmitNone(map["displ_L" := JNum(e.displ_L), "cylinders" := JInt(e.cylinders), "ve" := OptNum(e.ve)])
  }

  function EngineFromDict(j: Json): (r: Result<Engine>)
    ensures r.Ok? ==> r.value.Valid()
    ensures r.Ok? ==> j.JObj? && OnlyKeys(j.fields, ENGINE_KEYS)
  {
    if !j.JObj? then Err("argument after ** must be a mapping")
    else if !OnlyKeys(j.fields, ENGINE_KEYS) then Err("unexpected keyword argument")
    else
      var displ :- RequiredNum(j.fields, "displ_L");
      if "cylinders" !in j.fields then Err("missing required argument cylinders")
      else if AsWhole(j.fields["cylinders"]).None? then Err("cylinders must be a whole number")
      else
        var ve :- OptionalNum(j.fields, "ve", None);
        MkEngine(displ, AsWhole(j.fields["cylinders"]).value, ve)
  }

  lemma EngineRoundTrip(e: Engine)
    requires e.Valid()
    ensures EngineFromDict(JObj(EngineToDict(e))) == Ok(e)
  {
    var d := EngineToDict(e);
    assert RequiredNum(d, "displ_L") == Ok(e.displ_L);
    assert d["cylinders"] == JInt(e.cylinders);
    assert AsWhole(JInt(e.cylinders)) == Some(e.cylinders);
    assert OptionalNum(d, "ve", None) == Ok(e.ve);
  }

  // ---------------------------------------------------------------------------
  // Geometry
  // ---------------------------------------------------------------------------

  /** Lengths in metres, port volume in cc; per-side throats fall back to throat_m. */
  datatype Geometry = Geometry(
    bore_m: real, valve_int_m: real, valve_exh_m: real, throat_m: real, stem_m: real,
    throat_int_m: Option<real>, throat_exh_m: Option<real>,
    port_volume_cc: Option<real>, port_length_m: Option<real>,
    seat_angle_deg: Option<real>, seat_width_m: Option<real>)
  {
    /**
     * Positive diameters, a stem narrower than every throat, positive optional
     * sizes. The valves are not compared with the throat, the stem may be
     * zero and the seat angle is free.
     */
    predicate Valid()
    {
      && bore_m > 0.0 && valve_int_m > 0.0 && valve_exh_m > 0.0 && throat_m > 0.0
      && PosIfPresent(throat_int_m) && PosIfPresent(throat_exh_m)
      && stem_m >= 0.0 && stem_m < throat_m
      && (throat_int_m.Some? ==> stem_m < throat_int_m.value)
      && (throat_exh_m.Some? ==> stem_m < throat_exh_m.value)
      && PosIfPresent(port_volume_cc) && PosIfPresent(port_length_m) && PosIfPresent(seat_width_m)
    }
  }

  function MkGeometry(g: Geometry): (r: Result<Geometry>)
    ensures r.Ok? <==> g.Valid()
    ensures r.Ok? ==> r.value == g
  {
    var _ :- CheckPos("bore_m", g.bore_m);
    var _ :- CheckPos("valve_int_m", g.valve_int_m);
    var _ :- CheckPos("valve_exh_m", g.valve_exh_m);
    var _ :- CheckPos("throat_m", g.throat_m);
    var _ :- CheckOptPos("throat_int_m", g.throat_int_m);
    var _ :- CheckOptPos("throat_exh_m", g.throat_exh_m);
    var _ :- CheckNonNeg("stem_m", g.stem_m);
    if g.stem_m >= g.throat_m then Err("stem_m must be < throat_m")
    else if g.throat_int_m.Some? && g.stem_m >= g.throat_int_m.value then Err("stem_m must be < throat_int_m")
    else if g.throat_exh_m.Some? && g.stem_m >= g.throat_exh_m.value then Err("stem_m must be < throat_exh_m")
    else
      var _ :- CheckOptPos("port_volume_cc", g.port_volume_cc);
      var _ :- CheckOptPos("port_length_m", g.port_length_m);
      var _ :- CheckOptPos("seat_width_m", g.seat_width_m);
      Ok(g)
  }

  /** A valve smaller than its throat and a zero stem both pass the checks. */
  lemma GeometryLeavesValvesUnchecked()
    ensures MkGeometry(Geometry(0.086, 0.02, 0.02, 0.034, 0.0, None, None, None, None, None, None)).Ok?
  {
  }

  const GEOMETRY_KEYS: set<string> := {
    "bore_m", "valve_int_m", "valve_exh_m", "throat_m", "stem_m", "throat_int_m", "throat_exh_m",
    "port_volume_cc", "port_length_m", "seat_angle_deg", "seat_width_m"}

  function GeometryFields(g: Geometry): map<string, Json>
  {
    GeometryMap(JNum(g.bore_m), JNum(g.valve_int_m), JNum(g.valve_exh_m), JNum(g.throat_m), JNum(g.stem_m),
      OptNum(g.throat_int_m), OptNum(g.throat_exh_m), OptNum(g.port_volume_cc), OptNum(g.port_length_m),
      OptNum(g.seat_angle_deg), OptNum(g.seat_width_m))
  }

  /** The eleven geometry entries, whatever their values. */
  function GeometryMap(bore: Json, vi: Json, ve: Json, th: Json, st: Json,
                       ti: Json, te: Json, pv: Json, pl: Json, sa: Json, sw: Json): map<string, Json>
  {
    map[
      "bore_m" := bore, "valve_int_m" := vi, "valve_exh_m" := ve, "throat_m" := th, "stem_m" := st,
      "throat_int_m" := ti, "throat_exh_m" := te, "port_volume_cc" := pv, "port_length_m" := pl,
      "seat_angle_deg" := sa, "seat_width_m" := sw]
  }

  lemma GeometryMapRequired(bore: Json, vi: Json, ve: Json, th: Json, st: Json,
                            ti: Json, te: Json, pv: Json, pl: Json, sa: Json, sw: Json)
    ensures var m := GeometryMap(bore, vi, ve, th, st, ti, te, pv, pl, sa, sw);
      "bore_m" in m && m["bore_m"] == bore && "valve_int_m" in m && m["valve_int_m"] == vi &&
      "valve_exh_m" in m && m["valve_exh_m"] == ve && "throat_m" in m && m["throat_m"] == th &&
      "stem_m" in m && m["stem_m"] == st
  {
  }

  lemma GeometryMapOptional(bore: Json, vi: Json, ve: Json, th: Json, st: Json,
                            ti: Json, te: Json, pv: Json, pl: Json, sa: Json, sw: Json)
    ensures var m := GeometryMap(bore, vi, ve, th, st, ti, te, pv, pl, sa, sw);
      "throat_int_m" in m && m["throat_int_m"] == ti &&
      "throat_exh_m" in m && m["throat_exh_m"] == te && "port_volume_cc" in m && m["port_volume_cc"] == pv &&
      "port_length_m" in m && m["port_length_m"] == pl && "seat_angle_deg" in m && m["seat_angle_deg"] == sa &&
      "seat_width_m" in m && m["seat_width_m"] == sw
  {
  }

  /** Every geometry field sits under its own key in the full dictionary. */
  lemma GeometryFieldsEntries(g: Geometry)
    ensures var m := GeometryFields(g);
      "bore_m" in m && m["bore_m"] == JNum(g.bore_m) && "valve_int_m" in m && m["valve_int_m"] == JNum(g.valve_int_m) &&
      "valve_exh_m" in m && m["valve_exh_m"] == JNum(g.valve_exh_m) && "throat_m" in m && m["throat_m"] == JNum(g.throat_m) &&
      "stem_m" in m && m["stem_m"] == JNum(g.stem_m) &&
      "throat_int_m" in m && m["throat_int_m"] == OptNum(g.throat_int_m) &&
      "throat_exh_m" in m && m["throat_exh_m"] == OptNum(g.throat_exh_m) &&
      "port_volume_cc" in m && m["port_volume_cc"] == OptNum(g.port_volume_cc) &&
      "port_length_m" in m && m["port_length_m"] == OptNum(g.port_length_m) &&
      "seat_angle_deg" in m && m["seat_angle_deg"] == OptNum(g.seat_angle_deg) &&
      "seat_width_m" in m && m["seat_width_m"] == OptNum(g.seat_width_m)
  {
    GeometryMapRequired(JNum(g.bore_m), JNum(g.valve_int_m), JNum(g.valve_exh_m), JNum(g.throat_m), JNum(g.stem_m),
      OptNum(g.throat_int_m), OptNum(g.throat_exh_m), OptNum(g.port_volume_cc), OptNum(g.port_length_m),
      OptNum(g.seat_angle_deg), OptNum(g.seat_width_m));
    GeometryMapOptional(JNum(g.bore_m), JNum(g.valve_int_m), JNum(g.valve_exh_m), JNum(g.throat_m), JNum(g.stem_m),
      OptNum(g.throat_int_m), OptNum(g.throat_exh_m), OptNum(g.port_volume_cc), OptNum(g.port_length_m),
      OptNum(g.seat_angle_deg), OptNum(g.seat_width_m));
  }

  function GeometryToDict(g: Geometry): (d: map<string, Json>)
    ensures d.Keys <= GEOMETRY_KEYS
    ensures forall k :: k in d ==> d[k] != JNull
  {
    OmitNone(GeometryFields(g))
  }

  function GeometryFromDict(j: Json): (r: Result<Geometry>)
    ensures r.Ok? ==> r.value.Valid()
    ensures r.Ok? ==> j.JObj? && OnlyKeys(j.fields, GEOMETRY_KEYS)
  {
    if !j.JObj? then Err("argument after ** must be a mapping")
    else if !OnlyKeys(j.fields, GEOMETRY_KEYS) then Err("unexpected keyword argument")
    else
      var d := j.fields;
      var bore :- RequiredNum(d, "bore_m");
      var vi :- RequiredNum(d, "valve_int_m");
      var ve :- RequiredNum(d, "valve_exh_m");
      var th :- RequiredNum(d, "throat_m");
      var st :- RequiredNum(d, "stem_m");
      var ti :- OptionalNum(d, "throat_int_m", None);
      var te :- OptionalNum(d, "throat_exh_m", None);
      var pv :- OptionalNum(d, "port_volume_cc", None);
      var pl :- OptionalNum(d, "port_length_m", None);
      var sa :- OptionalNum(d, "seat_angle_deg", None);
      var sw :- OptionalNum(d, "seat_width_m", None);
      MkGeometry(Geometry(bore, vi, ve, th, st, ti, te, pv, pl, sa, sw))
  }

  lemma GeometryRoundTrip(g: Geometry)
    requires g.Valid()
    ensures GeometryFromDict(JObj(GeometryToDict(g))) == Ok(g)
  {
    GeometryRequiredRead(g);
    GeometryOptionalRead(g);
  }

  lemma GeometryRequiredRead(g: Geometry)
    ensures RequiredNum(GeometryToDict(g), "bore_m") == Ok(g.bore_m)
    ensures RequiredNum(GeometryToDict(g), "valve_int_m") == Ok(g.valve_int_m)
    ensures RequiredNum(GeometryToDict(g), "valve_exh_m") == Ok(g.valve_exh_m)
    ensures RequiredNum(GeometryToDict(g), "throat_m") == Ok(g.throat_m)
    ensures RequiredNum(GeometryToDict(g), "stem_m") == Ok(g.stem_m)
  {
    GeometryFieldsEntries(g);
    NumRoundTrip(GeometryFields(g), "bore_m", g.bore_m);
    NumRoundTrip(GeometryFields(g), "valve_int_m", g.valve_int_m);
    NumRoundTrip(GeometryFields(g), "valve_exh_m", g.valve_exh_m);
    NumRoundTrip(GeometryFields(g), "throat_m", g.throat_m);
    NumRoundTrip(GeometryFields(g), "stem_m", g.stem_m);
  }

  lemma GeometryOptionalRead(g: Geometry)
    ensures OptionalNum(GeometryToDict(g), "throat_int_m", None) == Ok(g.throat_int_m)
    ensures OptionalNum(GeometryToDict(g), "throat_exh_m", None) == Ok(g.throat_exh_m)
    ensures OptionalNum(GeometryToDict(g), "port_volume_cc", None) == Ok(g.port_volume_cc)
    ensures OptionalNum(GeometryToDict(g), "port_length_m", None) == Ok(g.port_length_m)
    ensures OptionalNum(GeometryToDict(g), "seat_angle_deg", None) == Ok(g.seat_angle_deg)
    ensures OptionalNum(GeometryToDict(g), "seat_width_m", None) == Ok(g.seat_width_m)
  {
    GeometryFieldsEntries(g);
    OptNumRoundTrip(GeometryFields(g), "throat_int_m", g.throat_int_m);
    OptNumRoundTrip(GeometryFields(g), "throat_exh_m", g.throat_exh_m);
    OptNumRoundTrip(GeometryFields(g), "port_volume_cc", g.port_volume_cc);
    OptNumRoundTrip(GeometryFields(g), "port_length_m", g.port_length_m);
    OptNumRoundTrip(GeometryFields(g), "seat_angle_deg", g.seat_angle_deg);
    OptNumRoundTrip(GeometryFields(g), "seat_width_m", g.seat_width_m);
  }

  /** A float written as JNum and filtered by OmitNone reads back as itself. */
  lemma NumRoundTrip(fields: map<string, Json>, key: string, v: real)
    requires key in fields && fields[key] == JNum(v)
    ensures RequiredNum(OmitNone(fields), key) == Ok(v)
  {
  }

  /** An optional float written with OptNum and filtered by OmitNone reads back as itself. */
  lemma OptNumRoundTrip(fields: map<string, Json>, key: string, v: Option<real>)
    requires key in fields && fields[key] == OptNum(v)
    ensures OptionalNum(OmitNone(fields), key, None) == Ok(v)
  {
  }

  // ---------------------------------------------------------------------------
  // LiftPoint and FlowSeries
  // ---------------------------------------------------------------------------

  /** A raw bench reading: lift (mm), flow (CFM), optional dp (inH2O) and swirl meter RPM. */
  datatype LiftPoint = LiftPoint(lift_mm: real, q_cfm: real, dp_inH2O: Option<real>, swirl_rpm: Option<real>)
  {
    predicate Valid()
    {
      lift_mm >= 0.0 && q_cfm >= 0.0 && PosIfPresent(dp_inH2O) && (swirl_rpm.Some? ==> swirl_rpm.value >= 0.0)
    }
  }

  const DEFAULT_DP_INH2O: real := 28.0

  function MkLiftPoint(lift_mm: real, q_cfm: real, dp_inH2O: Option<real>, swirl_rpm: Option<real>): (r: Result<LiftPoint>)
    ensures r.Ok? <==> lift_mm >= 0.0 && q_cfm >= 0.0 && PosIfPresent(dp_inH2O) && (swirl_rpm.Some? ==> swirl_rpm.value >= 0.0)
    ensures r.Ok? ==> r.value == LiftPoint(lift_mm, q_cfm, dp_inH2O, swirl_rpm) && r.value.Valid()
  {
    var _ :- CheckNonNeg("lift_mm", lift_mm);
    var _ :- CheckNonNeg("q_cfm", q_cfm);
    var _ :- CheckOptPos("dp_inH2O", dp_inH2O);
    if swirl_rpm.Some? && swirl_rpm.value < 0.0 then Err("swirl_rpm must be >= 0")
    else Ok(LiftPoint(lift_mm, q_cfm, dp_inH2O, swirl_rpm))
  }

  const LIFT_KEYS: set<string> := {"lift_mm", "q_cfm", "dp_inH2O", "swirl_rpm"}

  function LiftPointFields(p: LiftPoint): map<string, Json>
  {
    map["lift_mm" := JNum(p.lift_mm), "q_cfm" := JNum(p.q_cfm), "dp_inH2O" := OptNum(p.dp_inH2O), "swirl_rpm" := OptNum(p.swirl_rpm)]
  }

  function LiftPointToDict(p: LiftPoint): (d: map<string, Json>)
    ensures "dp_inH2O" in d <==> p.dp_inH2O.Some?
    ensures "swirl_rpm" in d <==> p.swirl_rpm.Some?
    ensures d.Keys <= LIFT_KEYS
  {
    OmitNone(LiftPointFields(p))
  }

  /** A missing dp takes the default of 28 inH2O; an explicit None stays None. */
  function LiftPointFromDict(j: Json): (r: Result<LiftPoint>)
    ensures r.Ok? ==> r.value.Valid()
    ensures r.Ok? ==> j.JObj? && OnlyKeys(j.fields, LIFT_KEYS)
    ensures r.Ok? && "dp_inH2O" !in j.fields ==> r.value.dp_inH2O == Some(DEFAULT_DP_INH2O)
  {
    if !j.JObj? then Err("argument after ** must be a mapping")
    else if !OnlyKeys(j.fields, LIFT_KEYS) then Err("unexpected keyword argument")
    else
      var lift :- RequiredNum(j.fields, "lift_mm");
      var q :- RequiredNum(j.fields, "q_cfm");
      var dp :- OptionalNum(j.fields, "dp_inH2O", Some(DEFAULT_DP_INH2O));
      var sw :- OptionalNum(j.fields, "swirl_rpm", None);
      MkLiftPoint(lift, q, dp, sw)
  }

  /**
   * A point's dictionary reads back as the point, except that an absent dp
   * comes back as the 28 inH2O default.
   */
  lemma LiftPointRoundTrip(p: LiftPoint)
    requires p.Valid()
    ensures LiftPointFromDict(JObj(LiftPointToDict(p))) ==
      Ok(if p.dp_inH2O.Some? then p else p.(dp_inH2O := Some(DEFAULT_DP_INH2O)))
  {
    var d := LiftPointToDict(p);
    assert RequiredNum(d, "lift_mm") == Ok(p.lift_mm);
    assert RequiredNum(d, "q_cfm") == Ok(p.q_cfm);
    OptNumRoundTrip(LiftPointFields(p), "swirl_rpm", p.swirl_rpm);
    if p.dp_inH2O.Some? {
      OptNumRoundTrip(LiftPointFields(p), "dp_inH2O", p.dp_inH2O);
    } else {
      assert OptionalNum(d, "dp_inH2O", Some(DEFAULT_DP_INH2O)) == Ok(Some(DEFAULT_DP_INH2O));
    }
  }

  datatype FlowSeries = FlowSeries(intake: seq<LiftPoint>, exhaust: seq<LiftPoint>)
  {
    predicate Valid()
    {
      (forall i :: 0 <= i < |intake| ==> intake[i].Valid()) && (forall i :: 0 <= i < |exhaust| ==> exhaust[i].Valid())
    }
  }

  function PointsToJson(ps: seq<LiftPoint>): (r: seq<Json>)
    ensures |r| == |ps|
    ensures forall i :: 0 <= i < |ps| ==> r[i] == JObj(LiftPointToDict(ps[i]))
  {
    if ps == [] then [] else [JObj(LiftPointToDict(ps[0]))] + PointsToJson(ps[1..])
  }

  /** The list comprehension of from_dict: the first point that fails fails the list. */
  function PointsFromJson(js: seq<Json>): (r: Result<seq<LiftPoint>>)
    ensures r.Ok? <==> forall i :: 0 <= i < |js| ==> LiftPointFromDict(js[i]).Ok?
    ensures r.Ok? ==> |r.value| == |js| && forall i :: 0 <= i < |js| ==> r.value[i] == LiftPointFromDict(js[i]).value
  {
    if js == [] then Ok([])
    else
      var p :- LiftPointFromDict(js[0]);
      var rest :- PointsFromJson(js[1..]);
      Ok([p] + rest)
  }

  function FlowSeriesToDict(f: FlowSeries): map<string, Json>
  {
    map["intake" := JArr(PointsToJson(f.intake)), "exhaust" := JArr(PointsToJson(f.exhaust))]
  }

  /**
   * A missing side defaults to the empty list; the comprehension walks a list,
   * and an empty dictionary or empty text also gives no points.
   */
  function SideFromDict(d: map<string, Json>, key: string): (r: Result<seq<LiftPoint>>)
    ensures key !in d ==> r == Ok([])
    ensures key in d && d[key] in {JObj(map[]), JStr("")} ==> r == Ok([])
    ensures key in d && d[key].JArr? ==> r == PointsFromJson(d[key].items)
  {
    if key !in d then Ok([])
    else if d[key] == JObj(map[]) || d[key] == JStr("") then Ok([])
    else if !d[key].JArr? then Err(key + " must be a list")
    else PointsFromJson(d[key].items)
  }

  function FlowSeriesFromDict(j: Json): (r: Result<FlowSeries>)
    ensures r.Ok? ==> r.value.Valid()
  {
    if !j.JObj? then Err("'get' needs a mapping")
    else
      var intake :- SideFromDict(j.fields, "intake");
      var exhaust :- SideFromDict(j.fields, "exhaust");
      Ok(FlowSeries(intake, exhaust))
  }

  predicate EveryDpPresent(ps: seq<LiftPoint>) { forall i :: 0 <= i < |ps| ==> ps[i].dp_inH2O.Some? }

  lemma {:induction false} PointsRoundTrip(ps: seq<LiftPoint>)
    requires forall i :: 0 <= i < |ps| ==> ps[i].Valid()
    requires EveryDpPresent(ps)
    ensures PointsFromJson(PointsToJson(ps)) == Ok(ps)
  {
    if ps != [] {
      LiftPointRoundTrip(ps[0]);
      PointsRoundTrip(ps[1..]);
      assert PointsToJson(ps)[1..] == PointsToJson(ps[1..]);
      assert [ps[0]] + ps[1..] == ps;
    }
  }

  lemma FlowSeriesRoundTrip(f: FlowSeries)
    requires f.Valid() && EveryDpPresent(f.intake) && EveryDpPresent(f.exhaust)
    ensures FlowSeriesFromDict(JObj(FlowSeriesToDict(f))) == Ok(f)
  {
    PointsRoundTrip(f.intake);
    PointsRoundTrip(f.exhaust);
  }

  // ---------------------------------------------------------------------------
  // CSAProfile
  // ---------------------------------------------------------------------------

  /** Port cross-sections in m^2. */
  datatype CSAProfile = CSAProfile(min_csa_m2: Option<real>, avg_csa_m2: Option<real>)
  {
    predicate Valid() { PosIfPresent(min_csa_m2) && PosIfPresent(avg_csa_m2) }
  }

  function MkCSAProfile(min_csa: Option<real>, avg_csa: Option<real>): (r: Result<CSAProfile>)
    ensures r.Ok? <==> PosIfPresent(min_csa) && PosIfPresent(avg_csa)
    ensures r.Ok? ==> r.value == CSAProfile(min_csa, avg_csa) && r.value.Valid()
  {
    var _ :- CheckOptPos("min_csa_m2", min_csa);
    var _ :- CheckOptPos("avg_csa_m2", avg_csa);
    Ok(CSAProfile(min_csa, avg_csa))
  }

  const CSA_KEYS: set<string> := {"min_csa_m2", "avg_csa_m2"}

  function CSAFields(c: CSAProfile): map<string, Json>
  {
    map["min_csa_m2" := OptNum(c.min_csa_m2), "avg_csa_m2" := OptNum(c.avg_csa_m2)]
  }

  function CSAToDict(c: CSAProfile): (d: map<string, Json>)
    ensures d == map[] <==> c.min_csa_m2.None? && c.avg_csa_m2.None?
  {
    var d := OmitNone(CSAFields(c));
    assert c.min_csa_m2.Some? ==> "min_csa_m2" in d;
    assert c.avg_csa_m2.Some? ==> "avg_csa_m2" in d;
    d
  }

  function CSAFromDict(j: Json): (r: Result<CSAProfile>)
    ensures r.Ok? ==> r.value.Valid()
  {
    if !j.JObj? then Err("argument after ** must be a mapping")
    else if !OnlyKeys(j.fields, CSA_KEYS) then Err("unexpected keyword argument")
    else
      var mn :- OptionalNum(j.fields, "min_csa_m2", None);
      var av :- OptionalNum(j.fields, "avg_csa_m2", None);
      MkCSAProfile(mn, av)
  }

  lemma CSARoundTrip(c: CSAProfile)
    requires c.Valid()
    ensures CSAFromDict(JObj(CSAToDict(c))) == Ok(c)
  {
    OptNumRoundTrip(CSAFields(c), "min_csa_m2", c.min_csa_m2);
    OptNumRoundTrip(CSAFields(c), "avg_csa_m2", c.avg_csa_m2);
  }

  // ---------------------------------------------------------------------------
  // Session
  // ---------------------------------------------------------------------------

  /** A raw measurement session; `tuning` is free JSON, JNull when absent. */
  datatype Session = Session(
    meta: Json, mode: Json, air: AirConditions, engine: Engine, geom: Geometry,
    lifts: FlowSeries, csa: Option<CSAProfile>, tuning: Json)
  {
    predicate Valid()
    {
      air.Valid() && engine.Valid() && geom.Valid() && lifts.Valid() && (csa.Some? ==> csa.value.Valid())
    }
  }

  /** The dictionary to_dict writes, from its entries already turned into JSON. */
  function SessionMap(meta: Json, mode: Json, air: Json, engine: Json, geom: Json, lifts: Json,
                      csa: Option<Json>, tuning: Json): map<string, Json>
  {
    var out := map["meta" := meta, "mode" := mode, "air" := air, "engine" := engine, "geom" := geom, "lifts" := lifts];
    var withCsa := if csa.Some? then out["csa" := csa.value] else out;
    if tuning != JNull then withCsa["tuning" := tuning] else withCsa
  }

  function CsaEntry(csa: Option<CSAProfile>): Option<Json>
  {
    if csa.Some? then Some(JObj(CSAToDict(csa.value))) else None
  }

  function SessionToDict(s: Session): (d: map<string, Json>)
    ensures "csa" in d <==> s.csa.Some?
    ensures "tuning" in d <==> s.tuning != JNull
  {
    var d := SessionMap(s.meta, s.mode, JObj(AirToDict(s.air)), JObj(EngineToDict(s.engine)),
      JObj(GeometryToDict(s.geom)), JObj(FlowSeriesToDict(s.lifts)), CsaEntry(s.csa), s.tuning);
    SessionMapOptional(s.meta, s.mode, JObj(AirToDict(s.air)), JObj(EngineToDict(s.engine)),
      JObj(GeometryToDict(s.geom)), JObj(FlowSeriesToDict(s.lifts)), CsaEntry(s.csa), s.tuning);
    d
  }

  /** Besides the optional csa and tuning entries, a saved session has exactly the six core keys. */
  lemma SessionToDictKeys(s: Session)
    ensures SessionToDict(s).Keys - {"csa", "tuning"} == {"meta", "mode", "air", "engine", "geom", "lifts"}
  {
    SessionMapKeys(s.meta, s.mode, JObj(AirToDict(s.air)), JObj(EngineToDict(s.engine)),
      JObj(GeometryToDict(s.geom)), JObj(FlowSeriesToDict(s.lifts)), CsaEntry(s.csa), s.tuning);
  }

  lemma SessionMapKeys(meta: Json, mode: Json, air: Json, engine: Json, geom: Json, lifts: Json,
                       csa: Option<Json>, tuning: Json)
    ensures SessionMap(meta, mode, air, engine, geom, lifts, csa, tuning).Keys - {"csa", "tuning"}
         == {"meta", "mode", "air", "engine", "geom", "lifts"}
  {
  }

  /**
   * A csa entry that is missing, None or empty means no profile; the mode and
   * tuning are taken as they are, tuning None when missing.
   */
  function SessionFromDict(j: Json): (r: Result<Session>)
    ensures r.Ok? ==> r.value.Valid()
    ensures r.Ok? ==> j.JObj?
    ensures r.Ok? ==> "mode" in j.fields && r.value.mode == j.fields["mode"]
    ensures r.Ok? ==> (r.value.csa.Some? <==> "csa" in j.fields && Truthy(j.fields["csa"]))
    ensures r.Ok? ==> r.value.tuning == if "tuning" in j.fields then j.fields["tuning"] else JNull
  {
    if !j.JObj? then Err("'get' needs a mapping")
    else
      var d := j.fields;
      var meta := if "meta" in d then d["meta"] else JObj(map[]);
      if "mode" !in d then Err("KeyError: mode")
      else if "air" !in d then Err("KeyError: air")
      else if "engine" !in d then Err("KeyError: engine")
      else if "geom" !in d then Err("KeyError: geom")
      else if "lifts" !in d then Err("KeyError: lifts")
      else
        var air :- AirFromDict(d["air"]);
        var engine :- EngineFromDict(d["engine"]);
        var geom :- GeometryFromDict(d["geom"]);
        var lifts :- FlowSeriesFromDict(d["lifts"]);
        var csa :- if "csa" in d && Truthy(d["csa"]) then
                     var c :- CSAFromDict(d["csa"]); Ok(Some(c))
                   else Ok(None);
        var tuning := if "tuning" in d then d["tuning"] else JNull;
        Ok(Session(meta, d["mode"], air, engine, geom, lifts, csa, tuning))
  }

  // The entries of the dictionary to_dict writes.

  lemma SessionMapCore(meta: Json, mode: Json, air: Json, engine: Json, geom: Json, lifts: Json,
                       csa: Option<Json>, tuning: Json)
    ensures var d := SessionMap(meta, mode, air, engine, geom, lifts, csa, tuning);
      && "meta" in d && d["meta"] == meta && "mode" in d && d["mode"] == mode
      && "air" in d && d["air"] == air && "engine" in d && d["engine"] == engine
      && "geom" in d && d["geom"] == geom && "lifts" in d && d["lifts"] == lifts
  {
  }

  lemma SessionMapOptional(meta: Json, mode: Json, air: Json, engine: Json, geom: Json, lifts: Json,
                           csa: Option<Json>, tuning: Json)
    ensures var d := SessionMap(meta, mode, air, engine, geom, lifts, csa, tuning);
      && ("csa" in d <==> csa.Some?) && (csa.Some? ==> d["csa"] == csa.value)
      && ("tuning" in d <==> tuning != JNull) && (tuning != JNull ==> d["tuning"] == tuning)
  {
  }

  lemma SessionDictEntries(s: Session)
    ensures "meta" in SessionToDict(s) && SessionToDict(s)["meta"] == s.meta
    ensures "mode" in SessionToDict(s) && SessionToDict(s)["mode"] == s.mode
    ensures "air" in SessionToDict(s) && SessionToDict(s)["air"] == JObj(AirToDict(s.air))
    ensures "engine" in SessionToDict(s) && SessionToDict(s)["engine"] == JObj(EngineToDict(s.engine))
    ensures "geom" in SessionToDict(s) && SessionToDict(s)["geom"] == JObj(GeometryToDict(s.geom))
    ensures "lifts" in SessionToDict(s) && SessionToDict(s)["lifts"] == JObj(FlowSeriesToDict(s.lifts))
    ensures s.csa.Some? ==> SessionToDict(s)["csa"] == JObj(CSAToDict(s.csa.value))
    ensures s.tuning != JNull ==> SessionToDict(s)["tuning"] == s.tuning
  {
    SessionMapCore(s.meta, s.mode, JObj(AirToDict(s.air)), JObj(EngineToDict(s.engine)),
      JObj(GeometryToDict(s.geom)), JObj(FlowSeriesToDict(s.lifts)), CsaEntry(s.csa), s.tuning);
    SessionMapOptional(s.meta, s.mode, JObj(AirToDict(s.air)), JObj(EngineToDict(s.engine)),
      JObj(GeometryToDict(s.geom)), JObj(FlowSeriesToDict(s.lifts)), CsaEntry(s.csa), s.tuning);
  }

  /** from_dict builds the session whose parts its entries decode to. */
  lemma SessionFromEntries(d: map<string, Json>, s: Session)
    requires "meta" in d && d["meta"] == s.meta
    requires "mode" in d && d["mode"] == s.mode
    requires "air" in d && AirFromDict(d["air"]) == Ok(s.air)
    requires "engine" in d && EngineFromDict(d["engine"]) == Ok(s.engine)
    requires "geom" in d && GeometryFromDict(d["geom"]) == Ok(s.geom)
    requires "lifts" in d && FlowSeriesFromDict(d["lifts"]) == Ok(s.lifts)
    requires ("csa" in d && Truthy(d["csa"])) <==> s.csa.Some?
    requires s.csa.Some? ==> CSAFromDict(d["csa"]) == Ok(s.csa.value)
    requires (if "tuning" in d then d["tuning"] else JNull) == s.tuning
    ensures SessionFromDict(JObj(d)) == Ok(s)
  {
  }

  /**
   * from_dict(to_dict(s)) == s for a valid session whose lift points all carry
   * a dp and whose csa profile, when present, has at least one area.
   */
  lemma SessionRoundTrip(s: Session)
    requires s.Valid()
    requires EveryDpPresent(s.lifts.intake) && EveryDpPresent(s.lifts.exhaust)
    requires s.csa.Some? ==> s.csa.value.min_csa_m2.Some? || s.csa.value.avg_csa_m2.Some?
    ensures SessionFromDict(JObj(SessionToDict(s))) == Ok(s)
  {
    SessionDictEntries(s);
    AirRoundTrip(s.air);
    EngineRoundTrip(s.engine);
    GeometryRoundTrip(s.geom);
    FlowSeriesRoundTrip(s.lifts);
    var d := SessionToDict(s);
    if s.csa.Some? {
      CSARoundTrip(s.csa.value);
      assert CSAToDict(s.csa.value) != map[];
      assert Truthy(d["csa"]);
    } else {
      assert "csa" !in d;
    }
    SessionFromEntries(d, s);
  }

  /** An empty csa profile does not survive the round trip: it comes back as None. */
  lemma EmptyCSAComesBackAsNone(s: Session)
    requires s.Valid() && s.csa == Some(CSAProfile(None, None))
    requires EveryDpPresent(s.lifts.intake) && EveryDpPresent(s.lifts.exhaust)
    ensures SessionFromDict(JObj(SessionToDict(s))) == Ok(s.(csa := None))
  {
    SessionDictEntries(s);
    AirRoundTrip(s.air);
    EngineRoundTrip(s.engine);
    GeometryRoundTrip(s.geom);
    FlowSeriesRoundTrip(s.lifts);
    assert SessionToDict(s)["csa"] == JObj(map[]);
    SessionFromEntries(SessionToDict(s), s.(csa := None));
  }
}
