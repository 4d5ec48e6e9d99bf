/**
 * Normalisation of raw bench readings: one lift point is converted to SI and
 * its flow is referred to the reference pressure drop and air density.
 */
module Normalize {
  import opened Wrappers
  import opened RealMath
  import opened Formulas
  import opened Schemas

  /** A reading in SI units together with its referred flow. */
  datatype NormalizedPoint = NormalizedPoint(
    lift_m: real,
    q_m3s_meas: real,
    dp_Pa_meas: Option<real>,
    q_m3s_ref: real,
    dp_Pa_ref: real,
    rho_meas: real,
    rho_ref: real,
    swirl_rpm: Option<real>)

  /** The formula library's view of an air-conditions record. */
  function StateOf(a: AirConditions): (s: AirState)
    ensures s.p_tot == a.p_tot && s.T == a.T && s.RH == a.RH
  {
    AirState(a.p_tot, a.T, a.RH)
  }

  /** The measured dp the flow is scaled from: the reference dp when none was measured. */
  function DpForCalc(n: NormalizedPoint): real
  {
    if n.dp_Pa_meas.None? then n.dp_Pa_ref else n.dp_Pa_meas.value
  }

  /**
   * Normalise one reading. A missing dp means the reading was taken at the
   * reference dp, so only the density ratio scales it; a missing reference air
   * state means the measured density is reused.
   */
  function NormalizeLiftPoint(m: MathLib, lp: LiftPoint, airMeas: AirConditions, dpRefInH2O: real, airRef: Option<AirConditions>): (r: Result<NormalizedPoint>)
    ensures dpRefInH2O <= 0.0 ==> r.Err?
    ensures lp.dp_inH2O.Some? && lp.dp_inH2O.value <= 0.0 ==> r.Err?
    ensures airMeas.Valid() && (airRef.Some? ==> airRef.value.Valid()) ==>
      (r.Ok? <==> airMeas.T != 35.85 && (airRef.Some? ==> airRef.value.T != 35.85) &&
                   dpRefInH2O > 0.0 && (lp.dp_inH2O.Some? ==> lp.dp_inH2O.value > 0.0))
    ensures r.Ok? ==> r.value.lift_m * 1000.0 == lp.lift_mm
    ensures r.Ok? ==> r.value.q_m3s_meas == CfmToM3s(lp.q_cfm)
    ensures r.Ok? ==> r.value.dp_Pa_ref == InH2OToPa(dpRefInH2O)
    ensures r.Ok? ==> (r.value.dp_Pa_meas.Some? <==> lp.dp_inH2O.Some?)
    ensures r.Ok? && lp.dp_inH2O.Some? ==> r.value.dp_Pa_meas == Some(InH2OToPa(lp.dp_inH2O.value))
    ensures r.Ok? ==> AirDensity(m, StateOf(airMeas)) == Ok(r.value.rho_meas)
    ensures r.Ok? && airRef.None? ==> r.value.rho_ref == r.value.rho_meas
    ensures r.Ok? && airRef.Some? ==> AirDensity(m, StateOf(airRef.value)) == Ok(r.value.rho_ref)
    ensures r.Ok? ==> r.value.swirl_rpm == lp.swirl_rpm
    ensures r.Ok? ==> FlowReferenced(m, r.value.q_m3s_meas, DpForCalc(r.value), r.value.rho_meas, r.value.dp_Pa_ref, r.value.rho_ref) == Ok(r.value.q_m3s_ref)
    ensures Lawful(m) && r.Ok? ==> (r.value.q_m3s_ref >= 0.0 <==> lp.q_cfm >= 0.0)
  {
    var liftM := lp.lift_mm / 1000.0;
    var qMeas := CfmToM3s(lp.q_cfm);
    var dpPaRef := InH2OToPa(dpRefInH2O);
    var dpPaMeas := if lp.dp_inH2O.Some? then Some(InH2OToPa(lp.dp_inH2O.value)) else None;
    var rhoMeas :- AirDensity(m, StateOf(airMeas));
    var rhoRef :- if airRef.None? then Ok(rhoMeas) else AirDensity(m, StateOf(airRef.value));
    var dpForCalc := if dpPaMeas.None? then dpPaRef else dpPaMeas.value;
    assert qMeas >= 0.0 <==> lp.q_cfm >= 0.0;
    var qRef :- FlowReferenced(m, qMeas, dpForCalc, rhoMeas, dpPaRef, rhoRef);
    Ok(NormalizedPoint(liftM, qMeas, dpPaMeas, qRef, dpPaRef, rhoMeas, rhoRef, lp.swirl_rpm))
  }

  /** The referred flow squared is the measured flow squared times the dp and density ratios. */
  lemma NormalizeSquaredRatios(m: MathLib, lp: LiftPoint, airMeas: AirConditions, dpRefInH2O: real, airRef: Option<AirConditions>, n: NormalizedPoint)
    requires Lawful(m)
    requires NormalizeLiftPoint(m, lp, airMeas, dpRefInH2O, airRef) == Ok(n)
    ensures Sq(n.q_m3s_ref) == Sq(n.q_m3s_meas) * DpRatio(lp.dp_inH2O, dpRefInH2O) * (n.rho_meas / n.rho_ref)
  {
    SquaredCore(m, n, lp.dp_inH2O, dpRefInH2O);
  }

  /** dp_ref / dp for a measured dp, 1 when the reading carries none. */
  function DpRatio(dp: Option<real>, dpRefInH2O: real): real
  {
    if dp.Some? && dp.value != 0.0 then dpRefInH2O / dp.value else 1.0
  }

  lemma SquaredCore(m: MathLib, n: NormalizedPoint, dp: Option<real>, dpRefInH2O: real)
    requires Lawful(m)
    requires FlowReferenced(m, n.q_m3s_meas, DpForCalc(n), n.rho_meas, n.dp_Pa_ref, n.rho_ref) == Ok(n.q_m3s_ref)
    requires n.dp_Pa_ref == InH2OToPa(dpRefInH2O)
    requires n.dp_Pa_meas.Some? <==> dp.Some?
    requires dp.Some? ==> n.dp_Pa_meas == Some(InH2OToPa(dp.value))
    ensures Sq(n.q_m3s_ref) == Sq(n.q_m3s_meas) * DpRatio(dp, dpRefInH2O) * (n.rho_meas / n.rho_ref)
  {
    var dpForCalc := DpForCalc(n);
    FlowReferencedSquared(m, n.q_m3s_meas, dpForCalc, n.rho_meas, n.dp_Pa_ref, n.rho_ref);
    DpRatioOfPoint(n, dp, dpRefInH2O);
    SubstituteRatio(n.q_m3s_ref, n.q_m3s_meas, n.dp_Pa_ref / dpForCalc, DpRatio(dp, dpRefInH2O), n.rho_meas / n.rho_ref);
  }

  /** The pressure ratio of a normalised point is the ratio of the readings in inH2O. */
  lemma DpRatioOfPoint(n: NormalizedPoint, dp: Option<real>, dpRefInH2O: real)
    requires DpForCalc(n) > 0.0
    requires n.dp_Pa_ref == InH2OToPa(dpRefInH2O)
    requires n.dp_Pa_meas.Some? <==> dp.Some?
    requires dp.Some? ==> n.dp_Pa_meas == Some(InH2OToPa(dp.value))
    ensures n.dp_Pa_ref / DpForCalc(n) == DpRatio(dp, dpRefInH2O)
  {
    if dp.Some? {
      var d := dp.value;
      assert DpForCalc(n) == d * PA_PER_IN_H2O_4C && n.dp_Pa_ref == dpRefInH2O * PA_PER_IN_H2O_4C;
      assert d != 0.0;
      CancelFactor(dpRefInH2O, d, PA_PER_IN_H2O_4C);
    }
  }

  lemma SubstituteRatio(q: real, qm: real, x1: real, r: real, x2: real)
    requires q * q == qm * qm * x1 * x2 && x1 == r
    ensures Sq(q) == Sq(qm) * r * x2
  {
  }

  lemma CancelFactor(a: real, b: real, c: real)
    requires b != 0.0 && c != 0.0
    ensures (a * c) / (b * c) == a / b
  {
  }

  /** Measured at the reference dp in the reference air: the flow is unchanged. */
  lemma NormalizeIdentity(m: MathLib, lp: LiftPoint, air: AirConditions, dpRefInH2O: real, airRef: Option<AirConditions>)
    requires Lawful(m) && air.Valid() && air.T != 35.85 && dpRefInH2O > 0.0
    requires lp.dp_inH2O == Some(dpRefInH2O) || lp.dp_inH2O.None?
    requires airRef == None || airRef == Some(air)
    ensures NormalizeLiftPoint(m, lp, air, dpRefInH2O, airRef).Ok?
    ensures NormalizeLiftPoint(m, lp, air, dpRefInH2O, airRef).value.q_m3s_ref == CfmToM3s(lp.q_cfm)
  {
    var rho := AirDensity(m, StateOf(air));
    assert rho.Ok? && rho.value > 0.0;
    var dp := InH2OToPa(dpRefInH2O);
    FlowReferencedIdentity(m, CfmToM3s(lp.q_cfm), dp, rho.value);
  }

  /** Same air on both sides: only the pressure ratio scales the flow, by sqrt(dp_ref / dp). */
  lemma NormalizeDpScaling(m: MathLib, lp: LiftPoint, air: AirConditions, dpRefInH2O: real)
    requires Lawful(m) && air.Valid() && air.T != 35.85 && dpRefInH2O > 0.0
    requires lp.dp_inH2O.Some? && lp.dp_inH2O.value > 0.0
    ensures NormalizeLiftPoint(m, lp, air, dpRefInH2O, Some(air)).Ok?
    ensures var n := NormalizeLiftPoint(m, lp, air, dpRefInH2O, Some(air)).value;
            n.q_m3s_ref == n.q_m3s_meas * m.sqrt(dpRefInH2O / lp.dp_inH2O.value)
  {
    var d := lp.dp_inH2O.value;
    var rho := AirDensity(m, StateOf(air));
    assert rho.Ok? && rho.value > 0.0;
    FlowReferencedDpOnly(m, CfmToM3s(lp.q_cfm), InH2OToPa(d), InH2OToPa(dpRefInH2O), rho.value);
    assert InH2OToPa(dpRefInH2O) / InH2OToPa(d) == dpRefInH2O / d;
  }

  /** The series is normalised point by point, in order; one failing point fails it. */
  function NormalizeSeries(m: MathLib, series: seq<LiftPoint>, airMeas: AirConditions, dpRefInH2O: real, airRef: Option<AirConditions>): (r: Result<seq<NormalizedPoint>>)
    ensures r.Ok? <==> forall i :: 0 <= i < |series| ==> NormalizeLiftPoint(m, series[i], airMeas, dpRefInH2O, airRef).Ok?
    ensures r.Ok? ==> |r.value| == |series|
    ensures r.Ok? ==> forall i :: 0 <= i < |series| ==> r.value[i] == NormalizeLiftPoint(m, series[i], airMeas, dpRefInH2O, airRef).value
  {
    if series == [] then Ok([])
    else
      var p :- NormalizeLiftPoint(m, series[0], airMeas, dpRefInH2O, airRef);
      var rest :- NormalizeSeries(m, series[1..], airMeas, dpRefInH2O, airRef);
      assert forall i :: 1 <= i < |series| ==> series[i] == series[1..][i - 1];
      Ok([p] + rest)
  }
}
