/**
 * Per-point metrics: from a normalised reading and the head geometry, the
 * curtain, throat and effective areas, the chosen reference area and the
 * discharge coefficient, mean velocity and Mach number at that area.
 */
module ComputePoint {
  import opened Wrappers
  import opened RealMath
  import opened Formulas
  import opened Schemas
  import opened Normalize

  /** The power of the smooth minimum used for the effective area. */
  const SMOOTHMIN_N: int := 6

  /** One row of a computed series; SR is present only for readings with a swirl meter RPM. */
  datatype PointMetrics = PointMetrics(
    lift_m: real,
    q_m3s_ref: real,
    dp_Pa_ref: real,
    A_curtain: real,
    A_throat: real,
    throat_used_m: real,
    A_eff: real,
    A_ref_key: string,
    L_over_D: real,
    Cd_ref: real,
    V_ref: real,
    Mach_ref: real,
    SR: Option<real>)

  /** The valve of the side: anything other than "intake" is the exhaust side. */
  function SideValve(g: Geometry, side: string): (d: real)
    ensures side == "intake" ==> d == g.valve_int_m
    ensures side != "intake" ==> d == g.valve_exh_m
  {
    if side == "intake" then g.valve_int_m else g.valve_exh_m
  }

  /** The throat of the side: its own override when present, else throat_m. */
  function SideThroat(g: Geometry, side: string): (d: real)
    ensures side == "intake" && g.throat_int_m.Some? ==> d == g.throat_int_m.value
    ensures side != "intake" && g.throat_exh_m.Some? ==> d == g.throat_exh_m.value
    ensures (if side == "intake" then g.throat_int_m else g.throat_exh_m).None? ==> d == g.throat_m
    ensures g.Valid() ==> d > g.stem_m >= 0.0
  {
    if side == "intake" then (if g.throat_int_m.Some? then g.throat_int_m.value else g.throat_m)
    else (if g.throat_exh_m.Some? then g.throat_exh_m.value else g.throat_m)
  }

  /** The area a row's reference key names. */
  function RefArea(p: PointMetrics): real
  {
    if p.A_ref_key == "throat" then p.A_throat
    else if p.A_ref_key == "curtain" then p.A_curtain
    else p.A_eff
  }

  predicate KnownEffMode(effMode: string) { effMode == "smoothmin" || effMode == "logistic" }

  predicate KnownARefMode(aRefMode: string) { aRefMode == "throat" || aRefMode == "curtain" || aRefMode == "eff" }

  /** The blended effective area for the selected blend. */
  function EffectiveArea(m: MathLib, effMode: string, aCurtain: real, aThroat: real, ld: real, ld0: real, k: real): (r: Result<real>)
    ensures !KnownEffMode(effMode) ==> r.Err?
    ensures aCurtain <= 0.0 || aThroat <= 0.0 ==> r.Err?
    ensures Lawful(m) && KnownEffMode(effMode) && aCurtain > 0.0 && aThroat > 0.0 ==> r.Ok? && r.value > 0.0
  {
    if effMode == "smoothmin" then AreaEffSmoothmin(m, aCurtain, aThroat, SMOOTHMIN_N)
    else if effMode == "logistic" then AreaEffLogistic(m, aCurtain, aThroat, ld, ld0, k)
    else Err("Invalid eff_mode")
  }

  /** The areas of one point: curtain, throat, lift over valve diameter and the blended area. */
  datatype Areas = Areas(curtain: real, throat: real, throatD: real, ld: real, eff: real)

  function PointAreas(m: MathLib, liftM: real, geom: Geometry, side: string, effMode: string, ld0: real, k: real): (r: Result<Areas>)
    ensures !KnownEffMode(effMode) || liftM <= 0.0 ==> r.Err?
    ensures r.Ok? ==> r.value.throatD == SideThroat(geom, side)
    ensures r.Ok? ==> AreaCurtain(SideValve(geom, side), liftM) == Ok(r.value.curtain)
    ensures r.Ok? ==> AreaThroat(SideThroat(geom, side), geom.stem_m) == Ok(r.value.throat)
    ensures r.Ok? ==> r.value.ld * SideValve(geom, side) == liftM
    ensures r.Ok? ==> EffectiveArea(m, effMode, r.value.curtain, r.value.throat, r.value.ld, ld0, k) == Ok(r.value.eff)
    ensures Lawful(m) && geom.Valid() && liftM > 0.0 && KnownEffMode(effMode) ==> r.Ok?
  {
    var dValve := SideValve(geom, side);
    var aCurtain :- AreaCurtain(dValve, liftM);
    var throatD := SideThroat(geom, side);
    var aThroat :- AreaThroat(throatD, geom.stem_m);
    var ld := LdRatio(liftM, dValve).value;
    var aEff :- EffectiveArea(m, effMode, aCurtain, aThroat, ld, ld0, k);
    Ok(Areas(aCurtain, aThroat, throatD, ld, aEff))
  }

  /** The area the reference mode selects. */
  function SelectRefArea(a: Areas, aRefMode: string): (r: Result<real>)
    ensures r.Ok? <==> KnownARefMode(aRefMode)
    ensures aRefMode == "throat" ==> r == Ok(a.throat)
    ensures aRefMode == "curtain" ==> r == Ok(a.curtain)
    ensures aRefMode == "eff" ==> r == Ok(a.eff)
  {
    if aRefMode == "throat" then Ok(a.throat)
    else if aRefMode == "curtain" then Ok(a.curtain)
    else if aRefMode == "eff" then Ok(a.eff)
    else Err("Invalid a_ref_mode")
  }

  /** The flow figures at a chosen reference area. */
  function FlowAt(m: MathLib, np: NormalizedPoint, airRef: AirConditions, aRef: real): (r: Result<(real, real, real)>)
    ensures aRef <= 0.0 ==> r.Err?
    ensures r.Ok? ==> AirDensity(m, StateOf(airRef)).Ok? &&
                      Cd(m, np.q_m3s_ref, aRef, np.dp_Pa_ref, AirDensity(m, StateOf(airRef)).value) == Ok(r.value.0)
    ensures r.Ok? ==> r.value.1 * aRef == np.q_m3s_ref
    ensures r.Ok? ==> MachFromVelocity(m, r.value.1, airRef.T) == Ok(r.value.2)
  {
    if aRef <= 0.0 then Err("A_ref must be > 0")
    else
      var rho :- AirDensity(m, StateOf(airRef));
      var cd :- Cd(m, np.q_m3s_ref, aRef, np.dp_Pa_ref, rho);
      var v :- VelocityFromFlow(np.q_m3s_ref, aRef);
      var mach :- MachFromVelocity(m, v, airRef.T);
      Ok((cd, v, mach))
  }

  /**
   * The metrics of one point. The effective area is computed whatever the
   * reference mode, so a reading at zero lift fails in every mode.
   */
  function ComputeMetricsForPoint(m: MathLib, np: NormalizedPoint, geom: Geometry, airRef: AirConditions,
                                  side: string, aRefMode: string, effMode: string, ld0: real, k: real): (r: Result<PointMetrics>)
    ensures !KnownEffMode(effMode) || !KnownARefMode(aRefMode) ==> r.Err?
    ensures np.lift_m <= 0.0 ==> r.Err?
    ensures r.Ok? ==> r.value.A_ref_key == aRefMode && r.value.SR.None?
    ensures r.Ok? ==> r.value.lift_m == np.lift_m && r.value.q_m3s_ref == np.q_m3s_ref && r.value.dp_Pa_ref == np.dp_Pa_ref
    ensures r.Ok? ==> r.value.throat_used_m == SideThroat(geom, side)
    ensures r.Ok? ==> AreaCurtain(SideValve(geom, side), np.lift_m) == Ok(r.value.A_curtain)
    ensures r.Ok? ==> AreaThroat(SideThroat(geom, side), geom.stem_m) == Ok(r.value.A_throat)
    ensures r.Ok? ==> r.value.L_over_D * SideValve(geom, side) == np.lift_m
    ensures r.Ok? ==> EffectiveArea(m, effMode, r.value.A_curtain, r.value.A_throat, r.value.L_over_D, ld0, k) == Ok(r.value.A_eff)
    ensures r.Ok? ==> RefArea(r.value) > 0.0 && r.value.V_ref * RefArea(r.value) == np.q_m3s_ref
    ensures r.Ok? ==> AirDensity(m, StateOf(airRef)).Ok? &&
                      Cd(m, np.q_m3s_ref, RefArea(r.value), np.dp_Pa_ref, AirDensity(m, StateOf(airRef)).value) == Ok(r.value.Cd_ref)
    ensures r.Ok? ==> MachFromVelocity(m, r.value.V_ref, airRef.T) == Ok(r.value.Mach_ref)
  {
    var a :- PointAreas(m, np.lift_m, geom, side, effMode, ld0, k);
    var aRef :- SelectRefArea(a, aRefMode);
    var f :- FlowAt(m, np, airRef, aRef);
    var p := PointMetrics(np.lift_m, np.q_m3s_ref, np.dp_Pa_ref, a.curtain, a.throat, a.throatD, a.eff,
                          aRefMode, a.ld, f.0, f.1, f.2, None);
    assert RefArea(p) == aRef;
    Ok(p)
  }

  /**
   * Every mode succeeds on a valid geometry and reference air at a positive
   * lift, a non-negative flow and a positive reference dp.
   */
  lemma ComputeMetricsSucceeds(m: MathLib, np: NormalizedPoint, geom: Geometry, airRef: AirConditions,
                               side: string, aRefMode: string, effMode: string, ld0: real, k: real)
    requires Lawful(m) && geom.Valid() && airRef.Valid() && airRef.T != 35.85
    requires np.lift_m > 0.0 && np.q_m3s_ref >= 0.0 && np.dp_Pa_ref > 0.0
    requires KnownEffMode(effMode) && KnownARefMode(aRefMode)
    ensures ComputeMetricsForPoint(m, np, geom, airRef, side, aRefMode, effMode, ld0, k).Ok?
  {
    var a := PointAreas(m, np.lift_m, geom, side, effMode, ld0, k).value;
    var aRef := SelectRefArea(a, aRefMode).value;
    assert aRef > 0.0;
    var rho := AirDensity(m, StateOf(airRef));
    assert rho.Ok? && rho.value > 0.0;
  }

  /** The swirl ratio of a reading, when it carries a swirl meter RPM. */
  function ComputeSwirlForPoint(np: NormalizedPoint, geom: Geometry): (r: Result<Option<real>>)
    ensures np.swirl_rpm.None? ==> r == Ok(None)
    ensures np.swirl_rpm.Some? ==> (r.Ok? <==> geom.bore_m > 0.0)
    ensures np.swirl_rpm.Some? && r.Ok? ==>
      r.value == Some(SwirlRatioFromWheelRpm(np.swirl_rpm.value, geom.bore_m, np.q_m3s_ref).value)
    ensures np.swirl_rpm.Some? && r.Ok? ==> (r.value.value >= 0.0 <==> np.swirl_rpm.value >= 0.0)
  {
    if np.swirl_rpm.None? then Ok(None)
    else
      var sr :- SwirlRatioFromWheelRpm(np.swirl_rpm.value, geom.bore_m, np.q_m3s_ref);
      Ok(Some(sr))
  }
}
