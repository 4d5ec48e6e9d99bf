/**
 * The quarantined copy of the wizard state. Its fields, session builders,
 * CSA and plan setters and most validators are the same as the main
 * wizard's; it adds per-side throats to the geometry step and setter, and
 * saves and loads the state as a dictionary (to_dict / from_dict).
 */
module QuarantinedWizard {
  import opened Wrappers
  import opened Wire
  import opened Schemas
  import opened PyText
  import opened PyNum
  import opened Wizard

  // ---------------------------------------------------------------------------
  // Geometry with per-side throats
  // ---------------------------------------------------------------------------

  /** The throat of the intake side: its own when set, the common throat otherwise. */
  function IntakeThroat(g: Geometry): real
  {
    if g.throat_int_m.Some? then g.throat_int_m.value else g.throat_m
  }

  function ExhaustThroat(g: Geometry): real
  {
    if g.throat_exh_m.Some? then g.throat_exh_m.value else g.throat_m
  }

  /** is_valid_step_geometry with per-side throats. */
  predicate GeometryStepOkQ(g: Geometry)
  {
    && g.bore_m > 0.0 && g.valve_int_m > 0.0 && g.valve_exh_m > 0.0 && g.throat_m > 0.0 && g.stem_m > 0.0
    && g.stem_m < Min(IntakeThroat(g), ExhaustThroat(g))
    && g.valve_int_m > IntakeThroat(g) && g.valve_exh_m > ExhaustThroat(g)
    && (g.port_volume_cc.Some? ==> g.port_volume_cc.value >= 0.0)
    && (g.port_length_m.Some? ==> g.port_length_m.value > 0.0)
    && (g.seat_width_m.Some? ==> g.seat_width_m.value >= 0.0)
  }

  predicate IsValidStepGeometryQ(v: StateValue)
  {
    v.geometry.Some? && GeometryStepOkQ(v.geometry.value)
  }

  /** Without per-side throats both versions of the geometry step decide alike. */
  lemma GeometryStepWithoutSideThroats(g: Geometry)
    requires g.throat_int_m.None? && g.throat_exh_m.None?
    ensures GeometryStepOkQ(g) <==> GeometryStepOk(g)
  {
  }

  /**
   * On a checked geometry the step adds only a stem of positive width and
   * each valve wider than the throat of its own side.
   */
  lemma GeometryStepQAddsValves(g: Geometry)
    requires g.Valid()
    ensures GeometryStepOkQ(g) <==> g.stem_m > 0.0 && g.valve_int_m > IntakeThroat(g) && g.valve_exh_m > ExhaustThroat(g)
  {
  }

  /** A per-side throat no wider than the stem is refused, so the geometry step fails. */
  lemma SideThroatAtStemFailsStep(v: StateValue, u: GeometryInput)
    requires (u.throat_int_mm.Some? && u.stem_mm >= u.throat_int_mm.value) || (u.throat_exh_mm.Some? && u.stem_mm >= u.throat_exh_mm.value)
    ensures !IsValidStepGeometryQ(v.(geometry := GeometryFromUi(u)))
  {
    GeometryFromUiIff(u);
  }

  method SetGeometryFromUiQ(s: WizardState, bore_mm: real, valve_int_mm: real, valve_exh_mm: real, throat_mm: real,
    throat_int_mm: Option<real>, throat_exh_mm: Option<real>, stem_mm: real, seat_angle_deg: Option<real>,
    seat_width_mm: Option<real>, port_volume_cc: Option<real>, port_length_mm: Option<real>)
    modifies s
    ensures s.Value() == old(s.Value()).(geometry := GeometryFromUi(GeometryInput(bore_mm, valve_int_mm, valve_exh_mm,
      throat_mm, stem_mm, throat_int_mm, throat_exh_mm, seat_angle_deg, seat_width_mm, port_volume_cc, port_length_mm)))
  {
    var g := MkGeometry(Metric(GeometryInput(bore_mm, valve_int_mm, valve_exh_mm, throat_mm, stem_mm,
      throat_int_mm, throat_exh_mm, seat_angle_deg, seat_width_mm, port_volume_cc, port_length_mm)));
    s.geometry := if g.Ok? then Some(g.value) else None;
  }

  // ---------------------------------------------------------------------------
  // to_dict
  // ---------------------------------------------------------------------------

  /**
   * The dp entry of the dictionary: Python keys it by (side, lift) tuples,
   * which a JSON object cannot hold, so it is kept beside the other fields.
   */
  datatype DpEntry = DpAbsent | DpDict(entries: map<(string, real), Json>) | DpOther

  /** A saved state: the string-keyed fields and the dp entry. */
  datatype StateDict = StateDict(fields: map<string, Json>, dp: DpEntry)

  const STATE_KEYS: set<string> := {
    "meta", "air_dp_ref_inH2O", "air_dp_meas_inH2O", "air", "engine", "engine_target_rpm", "geometry",
    "lifts_intake_mm", "lifts_exhaust_mm", "will_enter_swirl", "measure_intake", "measure_exhaust",
    "csa_min_m2", "csa_avg_m2", "engine_v_target", "points_int", "points_exh", "results", "tuning"}

  function NumList(xs: seq<real>): (r: seq<Json>)
    ensures |r| == |xs| && forall i :: 0 <= i < |xs| ==> r[i] == JNum(xs[i])
  {
    seq(|xs|, i requires 0 <= i < |xs| => JNum(xs[i]))
  }

  function ObjList(ms: seq<map<string, Json>>): (r: seq<Json>)
    ensures |r| == |ms| && forall i :: 0 <= i < |ms| ==> r[i] == JObj(ms[i])
  {
    seq(|ms|, i requires 0 <= i < |ms| => JObj(ms[i]))
  }

  /** The engine as to_dict writes it: ve is kept, as None when unset. */
  function EngineFields(e: Engine): map<string, Json>
  {
    map["displ_L" := JNum(e.displ_L), "cylinders" := JInt(e.cylinders), "ve" := OptNum(e.ve)]
  }

  function OptInt(o: Option<int>): Json
  {
    if o.Some? then JInt(o.value) else JNull
  }

  function DpJson(dp: map<(string, real), real>): (r: map<(string, real), Json>)
    ensures r.Keys == dp.Keys && forall k :: k in dp ==> r[k] == JNum(dp[k])
  {
    map k | k in dp :: JNum(dp[k])
  }

  /** The string-keyed entries of to_dict: every field, the parts as plain dictionaries and None where unset. */
  function StateFields(v: StateValue): map<string, Json>
  {
    map[
      "meta" := JObj(v.meta),
      "air_dp_ref_inH2O" := JNum(v.air_dp_ref_inH2O),
      "air_dp_meas_inH2O" := OptNum(v.air_dp_meas_inH2O),
      "air" := if v.air.Some? then JObj(AirToDict(v.air.value)) else JNull,
      "engine" := if v.engine.Some? then JObj(EngineFields(v.engine.value)) else JNull,
      "engine_target_rpm" := OptInt(v.engine_target_rpm),
      "geometry" := if v.geometry.Some? then JObj(GeometryFields(v.geometry.value)) else JNull,
      "lifts_intake_mm" := JArr(NumList(v.lifts_intake_mm)),
      "lifts_exhaust_mm" := JArr(NumList(v.lifts_exhaust_mm)),
      "will_enter_swirl" := JBool(v.will_enter_swirl),
      "measure_intake" := JArr(ObjList(v.measure_intake)),
      "measure_exhaust" := JArr(ObjList(v.measure_exhaust)),
      "csa_min_m2" := OptNum(v.csa_min_m2),
      "csa_avg_m2" := OptNum(v.csa_avg_m2),
      "engine_v_target" := OptNum(v.engine_v_target),
      "points_int" := JArr(ObjList(v.points_int)),
      "points_exh" := JArr(ObjList(v.points_exh)),
      "results" := JObj(v.results),
      "tuning" := JObj(v.tuning)]
  }

  function ToDict(v: StateValue): StateDict
  {
    StateDict(StateFields(v), DpDict(DpJson(v.dp_per_point_inH2O)))
  }

  /** to_dict writes exactly the declared fields, the dp map apart. */
  lemma ToDictKeys(v: StateValue)
    ensures ToDict(v).fields.Keys == STATE_KEYS
  {
  }

  // ---------------------------------------------------------------------------
  // Python conversions used by from_dict
  // ---------------------------------------------------------------------------

  /** int(x) of a float: the fraction is cut off, towards zero. */
  function TruncTowardZero(r: real): (n: int)
    ensures r >= 0.0 ==> 0 <= n && n as real <= r < n as real + 1.0
    ensures r < 0.0 ==> n <= 0 && n as real - 1.0 < r <= n as real
  {
    if r >= 0.0 then r.Floor else -((-r).Floor)
  }

  /** int(text): surrounding whitespace, an optional sign and decimal digits. */
  function ParseInt(s: string): Option<int>
  {
    var t := Strip(s);
    var body := Unsigned(t);
    if body == [] || !AllDigits(body) then None
    else
      var n: int := DigitsValue(body);
      Some(if t[0] == '-' then -n else n)
  }

  /** A run of decimal digits reads as the number it spells. */
  lemma ParseIntDigits(s: string)
    requires s != [] && AllDigits(s)
    ensures ParseInt(s) == Some(DigitsValue(s))
  {
    assert IsDigit(s[0]) && IsDigit(s[|s| - 1]);
    StripKeeps(s);
  }

  /** int(x): ints stay, floats are truncated, booleans are 0 or 1, text is parsed, anything else raises. */
  function ToInt(j: Json): (r: Option<int>)
    ensures j.JInt? ==> r == Some(j.i)
    ensures j.JNull? || j.JArr? || j.JObj? ==> r.None?
  {
    match j
    case JInt(i) => Some(i)
    case JNum(x) => Some(TruncTowardZero(x))
    case JBool(b) => Some(if b then 1 else 0)
    case JStr(s) => ParseInt(s)
    case _ => None
  }

  /** dict(x) and dict.update(x) for the values modelled: a dictionary, or an empty list or text. */
  function AsDict(j: Json): (r: Option<map<string, Json>>)
    ensures j.JObj? ==> r == Some(j.fields)
    ensures j.JNull? || j.JNum? || j.JInt? || j.JBool? ==> r.None?
  {
    match j
    case JObj(f) => Some(f)
    case JArr(items) => if items == [] then Some(map[]) else None
    case JStr(s) => if s == "" then Some(map[]) else None
    case _ => None
  }

  /** The air conditions read back: a missing key, a failed float() or a failed check leave None. */
  function AirOf(f: map<string, Json>): (r: Option<AirConditions>)
    ensures r.Some? ==> r.value.Valid()
  {
    var p := ToFloat(Get(f, "p_tot", JNull));
    var t := ToFloat(Get(f, "T", JNull));
    var rh := ToFloat(Get(f, "RH", JNum(0.0)));
    if p.None? || t.None? || rh.None? then None
    else
      match MkAirConditions(p.value, t.value, rh.value)
      case Ok(a) => Some(a)
      case Err(_) => None
  }

  function EngineOf(f: map<string, Json>): (r: Option<Engine>)
    ensures r.Some? ==> r.value.Valid()
  {
    var displ := ToFloat(Get(f, "displ_L", JNull));
    var cyl := ToInt(Get(f, "cylinders", JNull));
    var ve := OptFloat(f, "ve");
    if displ.None? || cyl.None? || ve.Err? then None
    else
      match MkEngine(displ.value, cyl.value, ve.value)
      case Ok(e) => Some(e)
      case Err(_) => None
  }

  /** The geometry read back: required sizes must convert, optional ones may be None; no seat-angle default. */
  function GeometryOf(f: map<string, Json>): (r: Option<Geometry>)
    ensures r.Some? ==> r.value.Valid()
  {
    var bore := ToFloat(Get(f, "bore_m", JNull));
    var vi := ToFloat(Get(f, "valve_int_m", JNull));
    var ve := ToFloat(Get(f, "valve_exh_m", JNull));
    var th := ToFloat(Get(f, "throat_m", JNull));
    var st := ToFloat(Get(f, "stem_m", JNull));
    var ti := OptFloat(f, "throat_int_m");
    var te := OptFloat(f, "throat_exh_m");
    var pv := OptFloat(f, "port_volume_cc");
    var pl := OptFloat(f, "port_length_m");
    var sa := OptFloat(f, "seat_angle_deg");
    var sw := OptFloat(f, "seat_width_m");
    if bore.None? || vi.None? || ve.None? || th.None? || st.None? then None
    else if ti.Err? || te.Err? || pv.Err? || pl.Err? || sa.Err? || sw.Err? then None
    else
      match MkGeometry(Geometry(bore.value, vi.value, ve.value, th.value, st.value, ti.value, te.value,
        pv.value, pl.value, sa.value, sw.value))
      case Ok(g) => Some(g)
      case Err(_) => None
  }

  /** The dictionaries of a list, in order; other items are dropped. */
  function Objects(items: seq<Json>): (r: seq<map<string, Json>>)
    ensures |r| <= |items|
    decreases |items|
  {
    if items == [] then []
    else
      var front := Objects(items[..|items| - 1]);
      match items[|items| - 1]
      case JObj(f) => front + [f]
      case _ => front
  }

  /** `[dict(x) for x in value if isinstance(x, dict)]`: iterating text or a dictionary yields no dictionaries. */
  function Measurements(j: Json): (r: Option<seq<map<string, Json>>>)
    ensures j.JArr? ==> r == Some(Objects(j.items))
  {
    match j
    case JArr(items) => Some(Objects(items))
    case JStr(_) => Some([])
    case JObj(_) => Some([])
    case _ => None
  }

  /** `[float(x) for x in items]`: each item must convert. */
  function FloatItems(items: seq<Json>): (r: Option<seq<real>>)
    ensures r.Some? ==> |r.value| == |items|
    decreases |items|
  {
    if items == [] then Some([])
    else
      match FloatItems(items[..|items| - 1])
      case None => None
      case Some(front) =>
        match ToFloat(items[|items| - 1])
        case None => None
        case Some(x) => Some(front + [x])
  }

  /** Every item is a number. */
  predicate AllFloat(items: seq<Json>)
  {
    forall i :: 0 <= i < |items| ==> ToFloat(items[i]).Some?
  }

  lemma AllFloatSplit(items: seq<Json>)
    requires items != []
    ensures AllFloat(items) <==> AllFloat(items[..|items| - 1]) && ToFloat(items[|items| - 1]).Some?
  {
    var front := items[..|items| - 1];
    assert forall i :: 0 <= i < |front| ==> front[i] == items[i];
  }

  /** The list converts exactly when every item does. */
  lemma {:induction false} FloatItemsSome(items: seq<Json>)
    ensures FloatItems(items).Some? <==> AllFloat(items)
    decreases |items|
  {
    if items != [] {
      FloatItemsSome(items[..|items| - 1]);
      AllFloatSplit(items);
    }
  }

  /** Item i of the conversion is the value of item i. */
  lemma {:induction false} FloatItemsValues(items: seq<Json>)
    requires FloatItems(items).Some?
    ensures forall i :: 0 <= i < |items| ==> ToFloat(items[i]) == Some(FloatItems(items).value[i])
    decreases |items|
  {
    if items != [] {
      var front := items[..|items| - 1];
      FloatItemsValues(front);
      var init, out := FloatItems(front).value, FloatItems(items).value;
      assert out == init + [ToFloat(items[|items| - 1]).value];
      forall i | 0 <= i < |items| ensures ToFloat(items[i]) == Some(out[i]) {
        if i < |front| {
          assert front[i] == items[i] && out[i] == init[i];
        }
      }
    }
  }

  /** The characters of a text, each as a one-character string. */
  function Chars(s: string): (r: seq<Json>)
    ensures |r| == |s| && forall i :: 0 <= i < |s| ==> r[i] == JStr([s[i]])
  {
    seq(|s|, i requires 0 <= i < |s| => JStr([s[i]]))
  }

  /** The lift list read back: a list item by item, a text character by character, an empty dictionary as empty. */
  function FloatList(j: Json): (r: Option<seq<real>>)
    ensures j.JArr? ==> r == FloatItems(j.items)
  {
    match j
    case JArr(items) => FloatItems(items)
    case JStr(s) => FloatItems(Chars(s))
    case JObj(f) => if f == map[] then Some([]) else None
    case _ => None
  }

  /** The dp map read back: every value must convert; anything but a dictionary gives an empty map. */
  function DpOf(e: DpEntry): (r: Option<map<(string, real), real>>)
    ensures e.DpDict? ==> (r.Some? <==> forall k :: k in e.entries ==> ToFloat(e.entries[k]).Some?)
    ensures r.Some? && e.DpDict? ==> r.value.Keys == e.entries.Keys
    ensures r.Some? && e.DpDict? ==> forall k :: k in e.entries ==> r.value[k] == ToFloat(e.entries[k]).value
    ensures !e.DpDict? ==> r == Some(map[])
  {
    match e
    case DpDict(m) =>
      if forall k :: k in m ==> ToFloat(m[k]).Some? then Some(map k | k in m :: ToFloat(m[k]).value) else None
    case _ => Some(map[])
  }

  /** A CSA or velocity value read back; values that are not numbers are not kept. */
  function NumOrNone(j: Json): (r: Option<real>)
    ensures j.JNum? ==> r == Some(j.r)
    ensures j.JNull? ==> r.None?
  {
    match j
    case JNum(x) => Some(x)
    case JInt(i) => Some(i as real)
    case _ => None
  }

  // ---------------------------------------------------------------------------
  // from_dict
  // ---------------------------------------------------------------------------

  /** s.meta.update(d.get("meta", {})); None when the statement raises. */
  function LoadMeta(s: StateValue, d: StateDict): Option<StateValue>
  {
    match AsDict(Get(d.fields, "meta", JObj(map[])))
    case None => None
    case Some(m) => Some(s.(meta := s.meta + m))
  }

  /** air, engine and geometry: only a dictionary is read, and a failure inside it leaves None. */
  function LoadParts(s: StateValue, d: StateDict): StateValue
  {
    var air := Get(d.fields, "air", JNull);
    var eng := Get(d.fields, "engine", JNull);
    var geom := Get(d.fields, "geometry", JNull);
    var s1 := if air.JObj? then s.(air := AirOf(air.fields)) else s;
    var s2 := if eng.JObj? then s1.(engine := EngineOf(eng.fields)) else s1;
    if geom.JObj? then s2.(geometry := GeometryOf(geom.fields)) else s2
  }

  function LoadMeasureIntake(s: StateValue, d: StateDict): Option<StateValue>
  {
    match Measurements(Get(d.fields, "measure_intake", JArr([])))
    case None => None
    case Some(ms) => Some(s.(measure_intake := ms))
  }

  function LoadMeasureExhaust(s: StateValue, d: StateDict): Option<StateValue>
  {
    match Measurements(Get(d.fields, "measure_exhaust", JArr([])))
    case None => None
    case Some(ms) => Some(s.(measure_exhaust := ms))
  }

  function LoadLiftsIntake(s: StateValue, d: StateDict): Option<StateValue>
  {
    match FloatList(Get(d.fields, "lifts_intake_mm", JArr([])))
    case None => None
    case Some(xs) => Some(s.(lifts_intake_mm := xs))
  }

  function LoadLiftsExhaust(s: StateValue, d: StateDict): Option<StateValue>
  {
    match FloatList(Get(d.fields, "lifts_exhaust_mm", JArr([])))
    case None => None
    case Some(xs) => Some(s.(lifts_exhaust_mm := xs))
  }

  /** The dp map, then the swirl flag and the CSA values, none of which can raise. */
  function LoadDpAndCsa(s: StateValue, d: StateDict): Option<StateValue>
  {
    match DpOf(d.dp)
    case None => None
    case Some(dp) =>
      var swirl := if "will_enter_swirl" in d.fields then Truthy(d.fields["will_enter_swirl"]) else s.will_enter_swirl;
      Some(s.(dp_per_point_inH2O := dp, will_enter_swirl := swirl,
        csa_min_m2 := NumOrNone(Get(d.fields, "csa_min_m2", JNull)),
        csa_avg_m2 := NumOrNone(Get(d.fields, "csa_avg_m2", JNull)),
        engine_v_target := NumOrNone(Get(d.fields, "engine_v_target", JNull))))
  }

  function LoadResults(s: StateValue, d: StateDict): Option<StateValue>
  {
    match AsDict(Get(d.fields, "results", JObj(map[])))
    case None => None
    case Some(m) => Some(s.(results := m))
  }

  function LoadTuning(s: StateValue, d: StateDict): Option<StateValue>
  {
    match AsDict(Get(d.fields, "tuning", JObj(map[])))
    case None => None
    case Some(m) => Some(s.(tuning := m))
  }

  // The statements of the try block of from_dict, in order: each function
  // below runs one statement and then the rest; the first that raises ends
  // the run and the state is kept as it is.

  function FromMeta(s: StateValue, d: StateDict): StateValue
  {
    match LoadMeta(s, d)
    case None => s
    case Some(t) => FromParts(t, d)
  }

  function FromParts(s: StateValue, d: StateDict): StateValue
  {
    FromMeasureIntake(LoadParts(s, d), d)
  }

  function FromMeasureIntake(s: StateValue, d: StateDict): StateValue
  {
    match LoadMeasureIntake(s, d)
    case None => s
    case Some(t) => FromMeasureExhaust(t, d)
  }

  function FromMeasureExhaust(s: StateValue, d: StateDict): StateValue
  {
    match LoadMeasureExhaust(s, d)
    case None => s
    case Some(t) => FromLiftsIntake(t, d)
  }

  function FromLiftsIntake(s: StateValue, d: StateDict): StateValue
  {
    match LoadLiftsIntake(s, d)
    case None => s
    case Some(t) => FromLiftsExhaust(t, d)
  }

  function FromLiftsExhaust(s: StateValue, d: StateDict): StateValue
  {
    match LoadLiftsExhaust(s, d)
    case None => s
    case Some(t) => FromDpAndCsa(t, d)
  }

  function FromDpAndCsa(s: StateValue, d: StateDict): StateValue
  {
    match LoadDpAndCsa(s, d)
    case None => s
    case Some(t) => FromResults(t, d)
  }

  function FromResults(s: StateValue, d: StateDict): StateValue
  {
    match LoadResults(s, d)
    case None => s
    case Some(t) => FromTuning(t, d)
  }

  function FromTuning(s: StateValue, d: StateDict): StateValue
  {
    match LoadTuning(s, d)
    case None => s
    case Some(t) => t
  }

  /** from_dict: a fresh state filled statement by statement. */
  function FromDictSpec(d: StateDict): StateValue
  {
    FromMeta(Default(), d)
  }

  /** The state from_dict gives back for a saved state: what to_dict writes and from_dict reads survives. */
  function Reloaded(v: StateValue): StateValue
  {
    v.(meta := DEFAULT_META + v.meta, air_dp_ref_inH2O := DEFAULT_DP_REF_INH2O, air_dp_meas_inH2O := None,
      engine_target_rpm := None, points_int := [], points_exh := [])
  }

  lemma {:induction false} ObjectsOfObjList(ms: seq<map<string, Json>>)
    ensures Objects(ObjList(ms)) == ms
    decreases |ms|
  {
    if ms != [] {
      var front := ms[..|ms| - 1];
      assert ObjList(ms)[..|ms| - 1] == ObjList(front);
      ObjectsOfObjList(front);
      assert ms == front + [ms[|ms| - 1]];
    }
  }

  lemma FloatItemsOfNumList(xs: seq<real>)
    ensures FloatItems(NumList(xs)) == Some(xs)
  {
    var js := NumList(xs);
    assert forall i :: 0 <= i < |xs| ==> ToFloat(js[i]) == Some(xs[i]);
    FloatItemsSome(js);
    FloatItemsValues(js);
    var r := FloatItems(js);
    assert r.value == xs;
  }

  lemma AirOfFields(a: AirConditions)
    requires a.Valid()
    ensures AirOf(AirToDict(a)) == Some(a)
  {
  }

  lemma EngineOfFields(e: Engine)
    requires e.Valid()
    ensures EngineOf(EngineFields(e)) == Some(e)
  {
    assert OptFloat(EngineFields(e), "ve") == Ok(e.ve);
  }

  lemma OptFloatOfOptNum(f: map<string, Json>, key: string, x: Option<real>)
    requires key in f && f[key] == OptNum(x)
    ensures OptFloat(f, key) == Ok(x)
  {
  }

  lemma GeometryOfFields(g: Geometry)
    requires g.Valid()
    ensures GeometryOf(GeometryFields(g)) == Some(g)
  {
    RequiredGeometryFields(g);
    OptionalGeometryFields(g);
  }

  lemma RequiredGeometryFields(g: Geometry)
    ensures ToFloat(Get(GeometryFields(g), "bore_m", JNull)) == Some(g.bore_m)
    ensures ToFloat(Get(GeometryFields(g), "valve_int_m", JNull)) == Some(g.valve_int_m)
    ensures ToFloat(Get(GeometryFields(g), "valve_exh_m", JNull)) == Some(g.valve_exh_m)
    ensures ToFloat(Get(GeometryFields(g), "throat_m", JNull)) == Some(g.throat_m)
    ensures ToFloat(Get(GeometryFields(g), "stem_m", JNull)) == Some(g.stem_m)
  {
    GeometryFieldsEntries(g);
  }

  lemma OptionalGeometryFields(g: Geometry)
    ensures OptFloat(GeometryFields(g), "throat_int_m") == Ok(g.throat_int_m)
    ensures OptFloat(GeometryFields(g), "throat_exh_m") == Ok(g.throat_exh_m)
    ensures OptFloat(GeometryFields(g), "port_volume_cc") == Ok(g.port_volume_cc)
    ensures OptFloat(GeometryFields(g), "port_length_m") == Ok(g.port_length_m)
    ensures OptFloat(GeometryFields(g), "seat_angle_deg") == Ok(g.seat_angle_deg)
    ensures OptFloat(GeometryFields(g), "seat_width_m") == Ok(g.seat_width_m)
  {
    var f := GeometryFields(g);
    GeometryFieldsEntries(g);
    OptFloatOfOptNum(f, "throat_int_m", g.throat_int_m);
    OptFloatOfOptNum(f, "throat_exh_m", g.throat_exh_m);
    OptFloatOfOptNum(f, "port_volume_cc", g.port_volume_cc);
    OptFloatOfOptNum(f, "port_length_m", g.port_length_m);
    OptFloatOfOptNum(f, "seat_angle_deg", g.seat_angle_deg);
    OptFloatOfOptNum(f, "seat_width_m", g.seat_width_m);
  }

  lemma DpOfJson(dp: map<(string, real), real>)
    ensures DpOf(DpDict(DpJson(dp))) == Some(dp)
  {
    var m := DpJson(dp);
    assert forall k :: k in m ==> ToFloat(m[k]) == Some(dp[k]);
    var r := DpOf(DpDict(m));
    assert r.Some?;
    assert r.value.Keys == dp.Keys;
    assert forall k :: k in dp ==> r.value[k] == dp[k];
    assert r.value == dp;
  }

  // The entries of a saved state, one by one.

  lemma SavedMeta(v: StateValue)
    ensures Get(StateFields(v), "meta", JObj(map[])) == JObj(v.meta)
  {
  }

  lemma SavedAir(v: StateValue)
    ensures Get(StateFields(v), "air", JNull) == if v.air.Some? then JObj(AirToDict(v.air.value)) else JNull
  {
  }

  lemma SavedEngine(v: StateValue)
    ensures Get(StateFields(v), "engine", JNull) == if v.engine.Some? then JObj(EngineFields(v.engine.value)) else JNull
  {
  }

  lemma SavedGeometry(v: StateValue)
    ensures Get(StateFields(v), "geometry", JNull) == if v.geometry.Some? then JObj(GeometryFields(v.geometry.value)) else JNull
  {
  }

  lemma SavedMeasureIntake(v: StateValue)
    ensures Get(StateFields(v), "measure_intake", JArr([])) == JArr(ObjList(v.measure_intake))
  {
  }

  lemma SavedMeasureExhaust(v: StateValue)
    ensures Get(StateFields(v), "measure_exhaust", JArr([])) == JArr(ObjList(v.measure_exhaust))
  {
  }

  lemma SavedLiftsIntake(v: StateValue)
    ensures Get(StateFields(v), "lifts_intake_mm", JArr([])) == JArr(NumList(v.lifts_intake_mm))
  {
  }

  lemma SavedLiftsExhaust(v: StateValue)
    ensures Get(StateFields(v), "lifts_exhaust_mm", JArr([])) == JArr(NumList(v.lifts_exhaust_mm))
  {
  }

  lemma SavedSwirl(v: StateValue)
    ensures "will_enter_swirl" in StateFields(v) && StateFields(v)["will_enter_swirl"] == JBool(v.will_enter_swirl)
  {
  }

  lemma SavedCsaMin(v: StateValue)
    ensures Get(StateFields(v), "csa_min_m2", JNull) == OptNum(v.csa_min_m2)
  {
  }

  lemma SavedCsaAvg(v: StateValue)
    ensures Get(StateFields(v), "csa_avg_m2", JNull) == OptNum(v.csa_avg_m2)
  {
  }

  lemma SavedVTarget(v: StateValue)
    ensures Get(StateFields(v), "engine_v_target", JNull) == OptNum(v.engine_v_target)
  {
  }

  lemma SavedResults(v: StateValue)
    ensures Get(StateFields(v), "results", JObj(map[])) == JObj(v.results)
  {
  }

  lemma SavedTuning(v: StateValue)
    ensures Get(StateFields(v), "tuning", JObj(map[])) == JObj(v.tuning)
  {
  }

  lemma NumOrNoneOfOptNum(x: Option<real>)
    ensures NumOrNone(OptNum(x)) == x
  {
  }

  // Each statement of from_dict reads back what to_dict wrote.

  lemma LoadMetaSaved(v: StateValue, s: StateValue)
    ensures LoadMeta(s, ToDict(v)) == Some(s.(meta := s.meta + v.meta))
  {
    SavedMeta(v);
  }

  lemma LoadPartsSaved(v: StateValue, s: StateValue)
    requires v.WellFormed() && s.air.None? && s.engine.None? && s.geometry.None?
    ensures LoadParts(s, ToDict(v)) == s.(air := v.air, engine := v.engine, geometry := v.geometry)
  {
    SavedAir(v);
    SavedEngine(v);
    SavedGeometry(v);
    if v.air.Some? {
      AirOfFields(v.air.value);
    }
    if v.engine.Some? {
      EngineOfFields(v.engine.value);
    }
    if v.geometry.Some? {
      GeometryOfFields(v.geometry.value);
    }
  }

  lemma LoadMeasuresSaved(v: StateValue, s: StateValue)
    ensures LoadMeasureIntake(s, ToDict(v)) == Some(s.(measure_intake := v.measure_intake))
    ensures LoadMeasureExhaust(s, ToDict(v)) == Some(s.(measure_exhaust := v.measure_exhaust))
  {
    SavedMeasureIntake(v);
    SavedMeasureExhaust(v);
    ObjectsOfObjList(v.measure_intake);
    ObjectsOfObjList(v.measure_exhaust);
  }

  lemma LoadLiftsSaved(v: StateValue, s: StateValue)
    ensures LoadLiftsIntake(s, ToDict(v)) == Some(s.(lifts_intake_mm := v.lifts_intake_mm))
    ensures LoadLiftsExhaust(s, ToDict(v)) == Some(s.(lifts_exhaust_mm := v.lifts_exhaust_mm))
  {
    SavedLiftsIntake(v);
    SavedLiftsExhaust(v);
    FloatItemsOfNumList(v.lifts_intake_mm);
    FloatItemsOfNumList(v.lifts_exhaust_mm);
  }

  lemma LoadDpAndCsaSaved(v: StateValue, s: StateValue)
    ensures LoadDpAndCsa(s, ToDict(v)) == Some(s.(dp_per_point_inH2O := v.dp_per_point_inH2O,
      will_enter_swirl := v.will_enter_swirl, csa_min_m2 := v.csa_min_m2, csa_avg_m2 := v.csa_avg_m2,
      engine_v_target := v.engine_v_target))
  {
    DpOfJson(v.dp_per_point_inH2O);
    SavedSwirl(v);
    SavedCsaMin(v);
    SavedCsaAvg(v);
    SavedVTarget(v);
    NumOrNoneOfOptNum(v.csa_min_m2);
    NumOrNoneOfOptNum(v.csa_avg_m2);
    NumOrNoneOfOptNum(v.engine_v_target);
  }

  lemma LoadDictsSaved(v: StateValue, s: StateValue)
    ensures LoadResults(s, ToDict(v)) == Some(s.(results := v.results))
    ensures LoadTuning(s, ToDict(v)) == Some(s.(tuning := v.tuning))
  {
    SavedResults(v);
    SavedTuning(v);
  }

  /** The last three statements read back the dp map, the flags, the CSA values, the results and the tuning. */
  lemma FromDpAndCsaSaved(v: StateValue, s: StateValue)
    ensures FromDpAndCsa(s, ToDict(v)) == s.(dp_per_point_inH2O := v.dp_per_point_inH2O,
      will_enter_swirl := v.will_enter_swirl, csa_min_m2 := v.csa_min_m2, csa_avg_m2 := v.csa_avg_m2,
      engine_v_target := v.engine_v_target, results := v.results, tuning := v.tuning)
  {
    var d := ToDict(v);
    LoadDpAndCsaSaved(v, s);
    var s7 := s.(dp_per_point_inH2O := v.dp_per_point_inH2O, will_enter_swirl := v.will_enter_swirl,
      csa_min_m2 := v.csa_min_m2, csa_avg_m2 := v.csa_avg_m2, engine_v_target := v.engine_v_target);
    LoadDictsSaved(v, s7);
    var s8 := s7.(results := v.results);
    LoadDictsSaved(v, s8);
    assert FromResults(s7, d) == FromTuning(s8, d);
  }

  /** The list statements read back the measurements and the lifts, and the run goes on. */
  lemma FromMeasureIntakeSaved(v: StateValue, s: StateValue)
    ensures FromMeasureIntake(s, ToDict(v)) == FromDpAndCsa(s.(measure_intake := v.measure_intake,
      measure_exhaust := v.measure_exhaust, lifts_intake_mm := v.lifts_intake_mm,
      lifts_exhaust_mm := v.lifts_exhaust_mm), ToDict(v))
  {
    var d := ToDict(v);
    var s3 := s.(measure_intake := v.measure_intake);
    var s4 := s3.(measure_exhaust := v.measure_exhaust);
    LoadMeasuresSaved(v, s);
    LoadMeasuresSaved(v, s3);
    assert FromMeasureIntake(s, d) == FromMeasureExhaust(s3, d);
    var s5 := s4.(lifts_intake_mm := v.lifts_intake_mm);
    LoadLiftsSaved(v, s4);
    LoadLiftsSaved(v, s5);
    assert FromMeasureExhaust(s3, d) == FromLiftsIntake(s4, d);
    assert FromLiftsIntake(s4, d) == FromLiftsExhaust(s5, d);
  }

  /**
   * Loading a saved well-formed state gives it back, except for the fields
   * from_dict does not read: the reference and measured bench dp, the target
   * rpm and the example point buffers return to their defaults, and the
   * default meta keys are kept where the saved meta lacks them.
   */
  lemma FromDictToDict(v: StateValue)
    requires v.WellFormed()
    ensures FromDictSpec(ToDict(v)) == Reloaded(v)
  {
    var d := ToDict(v);
    var s0 := Default();
    var s1 := s0.(meta := DEFAULT_META + v.meta);
    LoadMetaSaved(v, s0);
    assert FromMeta(s0, d) == FromParts(s1, d);
    var s2 := s1.(air := v.air, engine := v.engine, geometry := v.geometry);
    LoadPartsSaved(v, s1);
    assert FromParts(s1, d) == FromMeasureIntake(s2, d);
    FromMeasureIntakeSaved(v, s2);
    var s6 := s2.(measure_intake := v.measure_intake, measure_exhaust := v.measure_exhaust,
      lifts_intake_mm := v.lifts_intake_mm, lifts_exhaust_mm := v.lifts_exhaust_mm);
    FromDpAndCsaSaved(v, s6);
  }

  /** A saved state holding only a tuning section loads as a fresh state with that tuning. */
  lemma FromDictTuningOnly(t: map<string, Json>)
    ensures FromDictSpec(StateDict(map["tuning" := JObj(t)], DpAbsent)) == Default().(tuning := t)
  {
    var d := StateDict(map["tuning" := JObj(t)], DpAbsent);
    var s0 := Default();
    assert DEFAULT_META + map[] == DEFAULT_META;
    assert LoadMeta(s0, d) == Some(s0);
    assert LoadParts(s0, d) == s0;
    assert Objects([]) == [];
    assert LoadMeasureIntake(s0, d) == Some(s0);
    assert LoadMeasureExhaust(s0, d) == Some(s0);
    assert FloatItems([]) == Some([]);
    assert LoadLiftsIntake(s0, d) == Some(s0);
    assert LoadLiftsExhaust(s0, d) == Some(s0);
    assert LoadDpAndCsa(s0, d) == Some(s0);
    assert LoadResults(s0, d) == Some(s0);
    assert LoadTuning(s0, d) == Some(s0.(tuning := t));
  }

  /**
   * A measurement list that cannot be iterated ends the loading: meta and
   * the parts read before it are kept, every later field keeps its default.
   */
  lemma FromDictKeepsPartial(d: StateDict)
    requires AsDict(Get(d.fields, "meta", JObj(map[]))).Some?
    requires Measurements(Get(d.fields, "measure_intake", JArr([]))).None?
    ensures FromDictSpec(d) == LoadParts(LoadMeta(Default(), d).value, d)
    ensures FromDictSpec(d).tuning == map[] && FromDictSpec(d).lifts_intake_mm == []
  {
    var s1 := LoadMeta(Default(), d).value;
    assert FromMeta(Default(), d) == FromParts(s1, d);
    assert LoadMeasureIntake(LoadParts(s1, d), d).None?;
  }

  /** from_dict: the statements of the shared try block on a fresh state. */
  method FromDict(d: StateDict) returns (s: WizardState)
    ensures fresh(s)
    ensures s.Value() == FromDictSpec(d)
  {
    s := new WizardState();
    ghost var before := s.Value();
    var meta := AsDict(Get(d.fields, "meta", JObj(map[])));
    if meta.None? {
      return;
    }
    s.meta := s.meta + meta.value;
    assert s.Value() == LoadMeta(before, d).value;
    LoadPartsInto(s, d);
    LoadLists(s, d);
  }

  /** air, engine and geometry of from_dict. */
  method LoadPartsInto(s: WizardState, d: StateDict)
    modifies s
    ensures s.Value() == LoadParts(old(s.Value()), d)
  {
    var air := Get(d.fields, "air", JNull);
    var eng := Get(d.fields, "engine", JNull);
    var geom := Get(d.fields, "geometry", JNull);
    StoreParts(s, if air.JObj? then AirOf(air.fields) else s.air,
      if eng.JObj? then EngineOf(eng.fields) else s.engine,
      if geom.JObj? then GeometryOf(geom.fields) else s.geometry);
  }

  /** The assignments of air, engine and geometry. */
  method StoreParts(s: WizardState, a: Option<AirConditions>, e: Option<Engine>, g: Option<Geometry>)
    modifies s
    ensures s.Value() == old(s.Value()).(air := a, engine := e, geometry := g)
  {
    s.air, s.engine, s.geometry := a, e, g;
  }

  /** The measurement and lift lists of from_dict, then the rest of its statements. */
  method LoadLists(s: WizardState, d: StateDict)
    modifies s
    ensures s.Value() == FromMeasureIntake(old(s.Value()), d)
  {
    ghost var before := s.Value();
    var mi := Measurements(Get(d.fields, "measure_intake", JArr([])));
    if mi.None? {
      return;
    }
    s.measure_intake := mi.value;
    assert s.Value() == LoadMeasureIntake(before, d).value;
    before := s.Value();
    var me := Measurements(Get(d.fields, "measure_exhaust", JArr([])));
    if me.None? {
      return;
    }
    s.measure_exhaust := me.value;
    assert s.Value() == LoadMeasureExhaust(before, d).value;
    LoadLifts(s, d);
  }

  /** The two lift lists of from_dict, then the rest of its statements. */
  method LoadLifts(s: WizardState, d: StateDict)
    modifies s
    ensures s.Value() == FromLiftsIntake(old(s.Value()), d)
  {
    ghost var before := s.Value();
    var li := FloatList(Get(d.fields, "lifts_intake_mm", JArr([])));
    if li.None? {
      return;
    }
    s.lifts_intake_mm := li.value;
    assert s.Value() == LoadLiftsIntake(before, d).value;
    before := s.Value();
    var le := FloatList(Get(d.fields, "lifts_exhaust_mm", JArr([])));
    if le.None? {
      return;
    }
    s.lifts_exhaust_mm := le.value;
    assert s.Value() == LoadLiftsExhaust(before, d).value;
    LoadRest(s, d);
  }

  /** The dp map, the swirl flag, the CSA values, the results and the tuning section of from_dict. */
  method LoadRest(s: WizardState, d: StateDict)
    modifies s
    ensures s.Value() == FromDpAndCsa(old(s.Value()), d)
  {
    ghost var before := s.Value();
    var dp := DpOf(d.dp);
    if dp.None? {
      return;
    }
    var swirl := if "will_enter_swirl" in d.fields then Truthy(d.fields["will_enter_swirl"]) else s.will_enter_swirl;
    StoreDpAndCsa(s, dp.value, swirl, NumOrNone(Get(d.fields, "csa_min_m2", JNull)),
      NumOrNone(Get(d.fields, "csa_avg_m2", JNull)), NumOrNone(Get(d.fields, "engine_v_target", JNull)));
    LoadSections(s, d);
  }

  /** The assignments of the dp map, the swirl flag and the CSA values. */
  method StoreDpAndCsa(s: WizardState, dp: map<(string, real), real>, swirl: bool,
                       cmin: Option<real>, cavg: Option<real>, vt: Option<real>)
    modifies s
    ensures s.Value() == old(s.Value()).(dp_per_point_inH2O := dp, will_enter_swirl := swirl,
      csa_min_m2 := cmin, csa_avg_m2 := cavg, engine_v_target := vt)
  {
    s.dp_per_point_inH2O, s.will_enter_swirl := dp, swirl;
    s.csa_min_m2, s.csa_avg_m2, s.engine_v_target := cmin, cavg, vt;
  }

  /** The results and the tuning section of from_dict. */
  method LoadSections(s: WizardState, d: StateDict)
    modifies s
    ensures s.Value() == FromResults(old(s.Value()), d)
  {
    ghost var before := s.Value();
    var results := AsDict(Get(d.fields, "results", JObj(map[])));
    if results.None? {
      return;
    }
    s.results := results.value;
    assert s.Value() == LoadResults(before, d).value;
    before := s.Value();
    var tuning := AsDict(Get(d.fields, "tuning", JObj(map[])));
    if tuning.None? {
      return;
    }
    s.tuning := tuning.value;
    assert s.Value() == LoadTuning(before, d).value;
  }
}
