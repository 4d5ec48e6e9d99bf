/**
 * The formula library of the flow bench: air state, unit conversions,
 * reference-condition scaling, valve areas and their blends, discharge
 * coefficient, velocities and Mach, swirl and tumble, E/I, the 4-stroke
 * flow and RPM equations and the exhaust header area.
 *
 * Every `raise ValueError` of the library is an `Err`; a division whose
 * divisor is a transcendental value guards that divisor explicitly, which is
 * where Python would raise ZeroDivisionError.
 */
module Formulas {
  import opened Wrappers
  import opened RealMath

  // ---------------------------------------------------------------------------
  // Constants
  // ---------------------------------------------------------------------------

  const GAMMA_AIR: real := 1.4
  const R_AIR: real := 287.058
  const PA_PER_IN_H2O_4C: real := 249.0889
  const CFM_TO_M3S: real := 0.0004719474
  const M3S_TO_CFM: real := 1.0 / CFM_TO_M3S

  /** Air at the bench: total static pressure (Pa), temperature (K), relative humidity (0..1). */
  datatype AirState = AirState(p_tot: real, T: real, RH: real)

  /** 20 degrees C at one standard atmosphere, dry. */
  const AIR_STD_28IN: AirState := AirState(101325.0, 293.15, 0.0)

  // ---------------------------------------------------------------------------
  // Air state
  // ---------------------------------------------------------------------------

  /**
   * Saturation pressure of water vapour (Tetens). The divisor Tc + 237.3 is
   * zero at exactly T = 35.85 K, where the real-valued formula has no value.
   */
  function PSatWaterPa(m: MathLib, T: real): (r: Result<real>)
    ensures r.Ok? <==> T != 35.85
    ensures Lawful(m) && r.Ok? ==> r.value > 0.0
  {
    var tc := T - 273.15;
    if tc + 237.3 == 0.0 then Err("float division by zero")
    else Ok(610.78 * m.exp((17.27 * tc) / (tc + 237.3)))
  }

  /**
   * Density of (possibly humid) air: the dry partial pressure, clamped to at
   * least 1 Pa, over R_AIR * T.
   */
  function AirDensity(m: MathLib, s: AirState): (r: Result<real>)
    ensures r.Ok? <==> s.T != 0.0 && s.T != 35.85
    ensures r.Ok? && s.T > 0.0 ==> r.value > 0.0
    ensures r.Ok? && s.RH == 0.0 && s.p_tot >= 1.0 ==> r.value * (R_AIR * s.T) == s.p_tot
  {
    var psat :- PSatWaterPa(m, s.T);
    var pv := s.RH * psat;
    var pdry := Max(1.0, s.p_tot - pv);
    if s.T == 0.0 then Err("float division by zero")
    else Ok(pdry / (R_AIR * s.T))
  }

  /** Speed of sound sqrt(gamma * R * T); the square root of a negative number raises. */
  function SpeedOfSoundWith(m: MathLib, T: real, gamma: real, R: real): (r: Result<real>)
    ensures r.Ok? <==> gamma * R * T >= 0.0
    ensures Lawful(m) && r.Ok? ==> r.value >= 0.0 && r.value * r.value == gamma * R * T
    ensures Lawful(m) && r.Ok? ==> (r.value > 0.0 <==> gamma * R * T > 0.0)
  {
    if gamma * R * T < 0.0 then Err("math domain error")
    else Ok(m.sqrt(gamma * R * T))
  }

  /** Speed of sound of air (gamma = 1.4, R = 287.058). */
  function SpeedOfSound(m: MathLib, T: real): (r: Result<real>)
    ensures r.Ok? <==> T >= 0.0
    ensures Lawful(m) && r.Ok? ==> r.value * r.value == GAMMA_AIR * R_AIR * T
    ensures Lawful(m) && r.Ok? ==> (r.value > 0.0 <==> T > 0.0)
  {
    SpeedOfSoundWith(m, T, GAMMA_AIR, R_AIR)
  }

  // ---------------------------------------------------------------------------
  // Unit conversions
  // ---------------------------------------------------------------------------

  function InH2OToPa(inH2O: real): (pa: real)
    ensures pa / PA_PER_IN_H2O_4C == inH2O
    ensures pa > 0.0 <==> inH2O > 0.0
  {
    inH2O * PA_PER_IN_H2O_4C
  }

  function PaToInH2O(pa: real): (inH2O: real)
    ensures inH2O * PA_PER_IN_H2O_4C == pa
  {
    pa / PA_PER_IN_H2O_4C
  }

  function CfmToM3s(qCfm: real): (q: real)
    ensures q * M3S_TO_CFM == qCfm
  {
    qCfm * CFM_TO_M3S
  }

  function M3sToCfm(q: real): (qCfm: real)
    ensures qCfm * CFM_TO_M3S == q
  {
    q * M3S_TO_CFM
  }

  function CToK(tC: real): (t: real)
    ensures t >= 0.0 <==> tC >= -273.15
  {
    tC + 273.15
  }

  /** Fahrenheit to Kelvin goes through the Celsius scale. */
  function FToK(tF: real): (t: real)
    ensures t == CToK((tF - 32.0) * 5.0 / 9.0)
    ensures tF == 32.0 ==> t == CToK(0.0)
    ensures tF == 212.0 ==> t == CToK(100.0)
  {
    (tF - 32.0) * 5.0 / 9.0 + 273.15
  }

  // ---------------------------------------------------------------------------
  // Reference-condition scaling
  // ---------------------------------------------------------------------------

  /** Q* = Q_meas * sqrt(dp* / dp_meas) * sqrt(rho_meas / rho*). */
  function FlowReferenced(m: MathLib, qMeas: real, dpMeas: real, rhoMeas: real, dpStar: real, rhoStar: real): (r: Result<real>)
    ensures r.Ok? <==> dpMeas > 0.0 && dpStar > 0.0 && rhoMeas > 0.0 && rhoStar > 0.0
    ensures Lawful(m) && r.Ok? ==> (r.value > 0.0 <==> qMeas > 0.0) && (r.value >= 0.0 <==> qMeas >= 0.0)
  {
    if dpMeas <= 0.0 || dpStar <= 0.0 || rhoMeas <= 0.0 || rhoStar <= 0.0 then
      Err("dp and rho must be positive")
    else
      var s1 := m.sqrt(dpStar / dpMeas);
      var s2 := m.sqrt(rhoMeas / rhoStar);
      assert Lawful(m) ==> s1 > 0.0 && s2 > 0.0 && s1 * s2 > 0.0;
      Ok(qMeas * s1 * s2)
  }

  /** The square of the scaled flow is the squared flow times both ratios. */
  lemma FlowReferencedSquared(m: MathLib, qMeas: real, dpMeas: real, rhoMeas: real, dpStar: real, rhoStar: real)
    requires Lawful(m)
    requires dpMeas > 0.0 && dpStar > 0.0 && rhoMeas > 0.0 && rhoStar > 0.0
    ensures var q := FlowReferenced(m, qMeas, dpMeas, rhoMeas, dpStar, rhoStar).value;
            q * q == qMeas * qMeas * (dpStar / dpMeas) * (rhoMeas / rhoStar)
  {
    var x1 := dpStar / dpMeas;
    var x2 := rhoMeas / rhoStar;
    var s1 := m.sqrt(x1);
    var s2 := m.sqrt(x2);
    assert s1 * s1 == x1 && s2 * s2 == x2;
    calc {
      (qMeas * s1 * s2) * (qMeas * s1 * s2);
      (qMeas * qMeas) * (s1 * s1) * (s2 * s2);
      qMeas * qMeas * x1 * x2;
    }
  }

  /** Same pressure drop and same air: the flow is unchanged. */
  lemma FlowReferencedIdentity(m: MathLib, q: real, dp: real, rho: real)
    requires Lawful(m) && dp > 0.0 && rho > 0.0
    ensures FlowReferenced(m, q, dp, rho, dp, rho) == Ok(q)
  {
    SqrtOne(m);
    assert dp / dp == 1.0 && rho / rho == 1.0;
  }

  /** Same air: only the pressure ratio scales the flow. */
  lemma FlowReferencedDpOnly(m: MathLib, q: real, dpMeas: real, dpStar: real, rho: real)
    requires Lawful(m) && dpMeas > 0.0 && dpStar > 0.0 && rho > 0.0
    ensures FlowReferenced(m, q, dpMeas, rho, dpStar, rho) == Ok(q * m.sqrt(dpStar / dpMeas))
  {
    SqrtOne(m);
    assert rho / rho == 1.0;
    var v := q * m.sqrt(dpStar / dpMeas);
    assert FlowReferenced(m, q, dpMeas, rho, dpStar, rho).value == v;
  }

  /** Flow referred to 28 inH2O; without a reference air state the measured air is reused. */
  function FlowTo28InH2O(m: MathLib, qMeas: real, dpMeasInH2O: real, stateMeas: AirState, stateStar: Option<AirState>): (r: Result<real>)
    ensures dpMeasInH2O <= 0.0 ==> r.Err?
    ensures stateStar.None? && AirDensity(m, stateMeas).Ok? && stateMeas.T > 0.0 && dpMeasInH2O > 0.0 ==> r.Ok?
  {
    var dpMeas := InH2OToPa(dpMeasInH2O);
    var dpStar := InH2OToPa(28.0);
    var rhoMeas :- AirDensity(m, stateMeas);
    var rhoStar :- if stateStar.Some? then AirDensity(m, stateStar.value) else Ok(rhoMeas);
    FlowReferenced(m, qMeas, dpMeas, rhoMeas, dpStar, rhoStar)
  }

  /** A reading taken at 28 inH2O in the reference air is already referred. */
  lemma FlowTo28AtReference(m: MathLib, q: real, s: AirState)
    requires Lawful(m) && s.T > 0.0 && s.T != 35.85
    ensures FlowTo28InH2O(m, q, 28.0, s, None) == Ok(q)
  {
    var rho := AirDensity(m, s);
    assert rho.Ok? && rho.value > 0.0;
    FlowReferencedIdentity(m, q, InH2OToPa(28.0), rho.value);
  }

  // ---------------------------------------------------------------------------
  // Valve and port geometry
  // ---------------------------------------------------------------------------

  /** Throat area with the stem subtracted. */
  function AreaThroat(dThroat: real, dStem: real): (r: Result<real>)
    ensures r.Ok? <==> dThroat > 0.0 && 0.0 <= dStem < dThroat
    ensures r.Ok? ==> 0.0 < r.value <= PI * Sq(dThroat) / 4.0
    ensures r.Ok? && dStem == 0.0 ==> r.value == PI * Sq(dThroat) / 4.0
  {
    if dThroat <= 0.0 || dStem < 0.0 || dStem >= dThroat then
      Err("need d_throat > 0 and 0 <= d_stem < d_throat")
    else
      SqBelow(dStem, dThroat);
      SqNonNegative(dStem);
      MulPositive(PI, Sq(dThroat) - Sq(dStem));
      assert PI * (Sq(dThroat) - Sq(dStem)) <= PI * Sq(dThroat);
      assert dStem == 0.0 ==> Sq(dStem) == 0.0;
      Ok(PI * (Sq(dThroat) - Sq(dStem)) / 4.0)
  }

  /** Curtain area: valve circumference times lift. */
  function AreaCurtain(dValve: real, lift: real): (r: Result<real>)
    ensures r.Ok? <==> dValve > 0.0 && lift >= 0.0
    ensures r.Ok? ==> r.value >= 0.0 && (r.value == 0.0 <==> lift == 0.0)
  {
    if dValve <= 0.0 || lift < 0.0 then Err("need d_valve > 0 and lift >= 0")
    else Ok(PI * dValve * lift)
  }

  /** A higher lift opens a strictly larger curtain. */
  lemma AreaCurtainIncreasing(dValve: real, lift1: real, lift2: real)
    requires dValve > 0.0 && 0.0 <= lift1 < lift2
    ensures AreaCurtain(dValve, lift1).value < AreaCurtain(dValve, lift2).value
  {
    assert PI * dValve > 0.0;
    assert (PI * dValve) * lift1 < (PI * dValve) * lift2;
  }

  function LdRatio(lift: real, dValve: real): (r: Result<real>)
    ensures r.Ok? <==> dValve > 0.0
    ensures r.Ok? ==> r.value * dValve == lift
  {
    if dValve <= 0.0 then Err("need d_valve > 0") else Ok(lift / dValve)
  }

  // ---------------------------------------------------------------------------
  // Effective area
  // ---------------------------------------------------------------------------

  /** Power-mean smooth minimum 1 / (ac^-n + at^-n)^(1/n). */
  function AreaEffSmoothmin(m: MathLib, aCurtain: real, aThroat: real, n: int): (r: Result<real>)
    ensures aCurtain <= 0.0 || aThroat <= 0.0 || n < 1 ==> r.Err?
    ensures Lawful(m) ==> (r.Ok? <==> aCurtain > 0.0 && aThroat > 0.0 && n >= 1)
    ensures Lawful(m) && r.Ok? ==> r.value > 0.0
  {
    if aCurtain <= 0.0 || aThroat <= 0.0 then Err("areas must be positive")
    else if n < 1 then Err("need n >= 1")
    else
      var sum := m.pow(aCurtain, -(n as real)) + m.pow(aThroat, -(n as real));
      var den := m.pow(sum, 1.0 / (n as real));
      assert Lawful(m) ==> sum > 0.0 && den > 0.0;
      if den == 0.0 then Err("float division by zero") else Ok(1.0 / den)
  }

  /** The logistic weight 1 / (1 + exp(-k (ld - ld0))). */
  function LogisticWeight(m: MathLib, ld: real, ld0: real, k: real): (w: real)
    requires 1.0 + m.exp(-k * (ld - ld0)) != 0.0
    ensures Lawful(m) ==> 0.0 < w < 1.0
  {
    var e := m.exp(-k * (ld - ld0));
    assert Lawful(m) ==> e > 0.0 && 1.0 < 1.0 + e;
    1.0 / (1.0 + e)
  }

  /** Logistic blend (1 - w) * ac + w * at between curtain and throat area. */
  function AreaEffLogistic(m: MathLib, aCurtain: real, aThroat: real, ld: real, ld0: real, k: real): (r: Result<real>)
    ensures aCurtain <= 0.0 || aThroat <= 0.0 ==> r.Err?
    ensures Lawful(m) ==> (r.Ok? <==> aCurtain > 0.0 && aThroat > 0.0)
    ensures Lawful(m) && r.Ok? ==> Min(aCurtain, aThroat) <= r.value <= Max(aCurtain, aThroat)
    ensures Lawful(m) && r.Ok? && aCurtain == aThroat ==> r.value == aCurtain
  {
    if aCurtain <= 0.0 || aThroat <= 0.0 then Err("areas must be positive")
    else if 1.0 + m.exp(-k * (ld - ld0)) == 0.0 then Err("float division by zero")
    else
      var w := LogisticWeight(m, ld, ld0, k);
      ConvexBetween(w, aCurtain, aThroat);
      Ok((1.0 - w) * aCurtain + w * aThroat)
  }

  lemma ConvexBetween(w: real, a: real, b: real)
    ensures 0.0 < w < 1.0 ==> Min(a, b) <= (1.0 - w) * a + w * b <= Max(a, b)
  {
    if 0.0 < w < 1.0 {
      if a <= b {
        assert (1.0 - w) * a + w * b == a + w * (b - a) == b - (1.0 - w) * (b - a);
        MulNonNegative(w, b - a);
        MulNonNegative(1.0 - w, b - a);
      } else {
        assert (1.0 - w) * a + w * b == b + (1.0 - w) * (a - b) == a - w * (a - b);
        MulNonNegative(w, a - b);
        MulNonNegative(1.0 - w, a - b);
      }
    }
  }

  // ---------------------------------------------------------------------------
  // Discharge coefficient
  // ---------------------------------------------------------------------------

  /** Cd = Q / (A * sqrt(2 dp / rho)), so Q = Cd * A * sqrt(2 dp / rho). */
  function Cd(m: MathLib, q: real, aRef: real, dp: real, rho: real): (r: Result<real>)
    ensures q < 0.0 || aRef <= 0.0 || dp <= 0.0 || rho <= 0.0 ==> r.Err?
    ensures Lawful(m) ==> (r.Ok? <==> q >= 0.0 && aRef > 0.0 && dp > 0.0 && rho > 0.0)
    ensures Lawful(m) && r.Ok? ==> r.value >= 0.0
    ensures r.Ok? ==> r.value * (aRef * m.sqrt(2.0 * dp / rho)) == q
  {
    if q < 0.0 || aRef <= 0.0 || dp <= 0.0 || rho <= 0.0 then Err("need Q >= 0, A > 0, dp > 0, rho > 0")
    else
      var den := aRef * m.sqrt(2.0 * dp / rho);
      assert Lawful(m) ==> den > 0.0;
      if den == 0.0 then Err("float division by zero") else Ok(q / den)
  }

  /** A smaller reference area gives a larger Cd for the same positive flow. */
  lemma CdDecreasingInArea(m: MathLib, q: real, a1: real, a2: real, dp: real, rho: real)
    requires Lawful(m) && q > 0.0 && 0.0 < a1 < a2 && dp > 0.0 && rho > 0.0
    ensures Cd(m, q, a1, dp, rho).value > Cd(m, q, a2, dp, rho).value
  {
    var s := m.sqrt(2.0 * dp / rho);
    assert s > 0.0;
    assert a1 * s < a2 * s;
    var c1 := q / (a1 * s);
    var c2 := q / (a2 * s);
    assert c1 * (a1 * s) == q && c2 * (a2 * s) == q;
    assert c2 > 0.0;
    assert c2 * (a1 * s) < c2 * (a2 * s);
  }

  /** SAE Cd: the flow is first referred, then Cd is taken at the reference state. */
  function CdSAE(m: MathLib, qMeas: real, dpMeas: real, rhoMeas: real, aRef: real, dpStar: real, rhoStar: real): (r: Result<real>)
    ensures Lawful(m) ==>
      (r.Ok? <==> qMeas >= 0.0 && aRef > 0.0 && dpMeas > 0.0 && dpStar > 0.0 && rhoMeas > 0.0 && rhoStar > 0.0)
    ensures r.Ok? ==> FlowReferenced(m, qMeas, dpMeas, rhoMeas, dpStar, rhoStar).Ok?
    ensures r.Ok? ==>
      r.value * (aRef * m.sqrt(2.0 * dpStar / rhoStar)) == FlowReferenced(m, qMeas, dpMeas, rhoMeas, dpStar, rhoStar).value
  {
    var qStar :- FlowReferenced(m, qMeas, dpMeas, rhoMeas, dpStar, rhoStar);
    Cd(m, qStar, aRef, dpStar, rhoStar)
  }

  /** With the reference state equal to the measured one, SAE Cd is the plain Cd. */
  lemma CdSAEAtMeasured(m: MathLib, q: real, dp: real, rho: real, aRef: real)
    requires Lawful(m) && dp > 0.0 && rho > 0.0
    ensures CdSAE(m, q, dp, rho, aRef, dp, rho) == Cd(m, q, aRef, dp, rho)
  {
    FlowReferencedIdentity(m, q, dp, rho);
  }

  // ---------------------------------------------------------------------------
  // Velocities and Mach
  // ---------------------------------------------------------------------------

  function VelocityFromFlow(q: real, area: real): (r: Result<real>)
    ensures r.Ok? <==> area > 0.0
    ensures r.Ok? ==> r.value * area == q
  {
    if area <= 0.0 then Err("need area > 0") else Ok(q / area)
  }

  function MachFromVelocity(m: MathLib, v: real, T: real): (r: Result<real>)
    ensures T < 0.0 ==> r.Err?
    ensures Lawful(m) ==> (r.Ok? <==> T > 0.0)
    ensures r.Ok? ==> SpeedOfSound(m, T).Ok? && r.value * SpeedOfSound(m, T).value == v
  {
    var a :- SpeedOfSound(m, T);
    if a <= 0.0 then Err("a(T) <= 0") else Ok(v / a)
  }

  /** Pitot velocity C * sqrt(2 dp / rho): the dynamic pressure balances C^2 dp. */
  function VelocityPitot(m: MathLib, dpPitot: real, rho: real, cProbe: real): (r: Result<real>)
    ensures r.Ok? <==> dpPitot >= 0.0 && rho > 0.0 && cProbe > 0.0
    ensures Lawful(m) && r.Ok? ==> r.value >= 0.0 && rho * r.value * r.value == 2.0 * cProbe * cProbe * dpPitot
  {
    if dpPitot < 0.0 || rho <= 0.0 || cProbe <= 0.0 then Err("need dp >= 0, rho > 0, C > 0")
    else
      var x := 2.0 * dpPitot / rho;
      var s := m.sqrt(x);
      assert Lawful(m) ==> s >= 0.0 && s * s == x && (cProbe * s) * (cProbe * s) == cProbe * cProbe * x;
      assert rho * (cProbe * cProbe * x) == 2.0 * cProbe * cProbe * dpPitot;
      Ok(cProbe * s)
  }

  // ---------------------------------------------------------------------------
  // Swirl and tumble
  // ---------------------------------------------------------------------------

  /** Paddle-wheel swirl ratio (omega * R) / max(1e-12, Vbar) with Vbar = Q / A_cyl. */
  function SwirlRatioFromWheelRpm(rpmWheel: real, bore: real, q: real): (r: Result<real>)
    ensures r.Ok? <==> bore > 0.0
    ensures r.Ok? ==> (r.value >= 0.0 <==> rpmWheel >= 0.0) && (r.value == 0.0 <==> rpmWheel == 0.0)
  {
    if bore <= 0.0 then Err("need bore > 0")
    else
      SqPositive(bore);
      MulPositive(PI, Sq(bore));
      var vbar := VelocityFromFlow(q, PI * Sq(bore) / 4.0).value;
      var omega := 2.0 * PI * rpmWheel / 60.0;
      var den := Max(0.000000000001, vbar);
      var num := omega * (bore * 0.5);
      MulSign(2.0 * PI, rpmWheel);
      DivSign(2.0 * PI * rpmWheel, 60.0);
      MulSign(bore * 0.5, omega);
      assert num == (bore * 0.5) * omega;
      DivSign(num, den);
      Ok(num / den)
  }

  /** The swirl ratio times the mean axial velocity (floored at 1e-12) is the wheel's rim speed omega * R. */
  lemma SwirlRatioRimSpeed(rpmWheel: real, bore: real, q: real)
    requires bore > 0.0
    ensures PI * Sq(bore) / 4.0 > 0.0
    ensures SwirlRatioFromWheelRpm(rpmWheel, bore, q).value
              * Max(0.000000000001, VelocityFromFlow(q, PI * Sq(bore) / 4.0).value)
         == (2.0 * PI * rpmWheel / 60.0) * (bore * 0.5)
  {
    SqPositive(bore);
    MulPositive(PI, Sq(bore));
  }

  /** The swirl ratio is proportional to the wheel speed. */
  lemma {:induction false} SwirlRatioLinear(c: real, rpmWheel: real, bore: real, q: real)
    requires bore > 0.0
    ensures SwirlRatioFromWheelRpm(c * rpmWheel, bore, q).value == c * SwirlRatioFromWheelRpm(rpmWheel, bore, q).value
  {
    SwirlRatioRimSpeed(rpmWheel, bore, q);
    SwirlRatioRimSpeed(c * rpmWheel, bore, q);
    var den := Max(0.000000000001, VelocityFromFlow(q, PI * Sq(bore) / 4.0).value);
    var r0 := SwirlRatioFromWheelRpm(rpmWheel, bore, q).value;
    var r1 := SwirlRatioFromWheelRpm(c * rpmWheel, bore, q).value;
    assert (2.0 * PI * (c * rpmWheel) / 60.0) * (bore * 0.5) == c * ((2.0 * PI * rpmWheel / 60.0) * (bore * 0.5));
    assert r1 * den == c * (r0 * den);
    assert r1 * den == (c * r0) * den;
    assert den > 0.0;
    assert r1 == r1 * den / den == (c * r0) * den / den == c * r0;
  }

  /** One discrete sample (u_tangential, u_z, lever arm, area weight). */
  datatype Sample = Sample(ut: real, uz: real, arm: real, dA: real)

  /** The numerator sum of u_t * u_z * arm * dA, accumulated front to back. */
  function MomentNum(s: seq<Sample>): real
  {
    if s == [] then 0.0
    else MomentNum(s[..|s| - 1]) + s[|s| - 1].ut * s[|s| - 1].uz * s[|s| - 1].arm * s[|s| - 1].dA
  }

  /** The denominator sum of u_z^2 * dA, accumulated front to back. */
  function AxialDen(s: seq<Sample>): real
  {
    if s == [] then 0.0
    else AxialDen(s[..|s| - 1]) + (s[|s| - 1].uz * s[|s| - 1].uz) * s[|s| - 1].dA
  }

  /** The discrete swirl or tumble number, as a function of the samples. */
  function MomentRatio(s: seq<Sample>, R: real): Result<real>
  {
    if R <= 0.0 || AxialDen(s) <= 0.0 then Err("need R > 0 and a positive denominator")
    else Ok(MomentNum(s) / (R * AxialDen(s)))
  }

  method MomentRatioDiscrete(samples: seq<Sample>, R: real) returns (r: Result<real>)
    ensures r == MomentRatio(samples, R)
  {
    var num := 0.0;
    var den := 0.0;
    var i := 0;
    while i < |samples|
      invariant 0 <= i <= |samples|
      invariant num == MomentNum(samples[..i]) && den == AxialDen(samples[..i])
    {
      var x := samples[i];
      assert samples[..i + 1][..i] == samples[..i] && samples[..i + 1][i] == x;
      num := num + x.ut * x.uz * x.arm * x.dA;
      den := den + (x.uz * x.uz) * x.dA;
      i := i + 1;
    }
    assert samples[..i] == samples;
    assert num == MomentNum(samples) && den == AxialDen(samples);
    if R <= 0.0 || den <= 0.0 {
      r := Err("need R > 0 and a positive denominator");
    } else {
      var q := num / (R * den);
      r := Ok(q);
      assert MomentRatio(samples, R).value == q;
    }
  }

  /** Swirl number: samples are (u_theta, u_z, r, dA). */
  method SwirlNumberDiscrete(samples: seq<Sample>, R: real) returns (r: Result<real>)
    ensures r == MomentRatio(samples, R)
  {
    r := MomentRatioDiscrete(samples, R);
  }

  /** Tumble number: samples are (u_y, u_z, x, dA). */
  method TumbleNumberDiscrete(samples: seq<Sample>, R: real) returns (r: Result<real>)
    ensures r == MomentRatio(samples, R)
  {
    r := MomentRatioDiscrete(samples, R);
  }

  /** With non-negative area weights the denominator is never negative. */
  lemma {:induction false} AxialDenNonNegative(s: seq<Sample>)
    requires forall i :: 0 <= i < |s| ==> s[i].dA >= 0.0
    ensures AxialDen(s) >= 0.0
  {
    if s != [] {
      var p := s[..|s| - 1];
      assert forall i :: 0 <= i < |p| ==> p[i].dA >= 0.0 by {
        forall i | 0 <= i < |p| ensures p[i].dA >= 0.0 { assert p[i] == s[i]; }
      }
      AxialDenNonNegative(p);
      var x := s[|s| - 1];
      assert x.uz * x.uz >= 0.0;
    }
  }

  function Reverse(x: Sample): Sample { x.(ut := -x.ut) }

  /** Reversing the tangential direction of every sample negates the numerator. */
  lemma {:induction false} MomentNumReversed(s: seq<Sample>)
    ensures MomentNum(seq(|s|, i requires 0 <= i < |s| => Reverse(s[i]))) == -MomentNum(s)
    ensures AxialDen(seq(|s|, i requires 0 <= i < |s| => Reverse(s[i]))) == AxialDen(s)
  {
    var t := seq(|s|, i requires 0 <= i < |s| => Reverse(s[i]));
    if s != [] {
      var p := s[..|s| - 1];
      MomentNumReversed(p);
      assert t[..|t| - 1] == seq(|p|, i requires 0 <= i < |p| => Reverse(p[i]));
    }
  }

  /** So swirl reverses sign with the flow's sense of rotation. */
  lemma MomentRatioReversed(s: seq<Sample>, R: real)
    ensures MomentRatio(seq(|s|, i requires 0 <= i < |s| => Reverse(s[i])), R).Ok? == MomentRatio(s, R).Ok?
    ensures MomentRatio(s, R).Ok? ==>
      MomentRatio(seq(|s|, i requires 0 <= i < |s| => Reverse(s[i])), R).value == -MomentRatio(s, R).value
  {
    MomentNumReversed(s);
  }

  // ---------------------------------------------------------------------------
  // E/I and aggregates
  // ---------------------------------------------------------------------------

  function EiRatio(qExh: real, qInt: real): (r: Result<real>)
    ensures r.Ok? <==> qInt > 0.0
    ensures r.Ok? ==> r.value * qInt == qExh
  {
    if qInt <= 0.0 then Err("need Q_int > 0") else Ok(qExh / qInt)
  }

  /** 100 (after - before) / before: applying the change to before gives after. */
  function PercentChange(after: real, before: real): (r: Result<real>)
    ensures r.Ok? <==> before != 0.0
    ensures r.Ok? ==> before + before * r.value / 100.0 == after
  {
    if before == 0.0 then Err("need before != 0") else Ok(100.0 * (after - before) / before)
  }

  // ---------------------------------------------------------------------------
  // 4-stroke engine demand and RPM limits
  // ---------------------------------------------------------------------------

  /** Q = (Vd * RPM / 2) / 60 * VE, with the displacement given in litres. */
  function EngineVolumetricFlow(displL: real, rpm: real, ve: real): (r: Result<real>)
    ensures r.Ok? <==> displL > 0.0 && rpm >= 0.0 && ve >= 0.0
    ensures r.Ok? ==> r.value >= 0.0 && (r.value > 0.0 <==> rpm > 0.0 && ve > 0.0)
  {
    if displL <= 0.0 || rpm < 0.0 || ve < 0.0 then Err("need displ_L > 0, rpm >= 0, ve >= 0")
    else
      var vd := displL * 0.001;
      assert vd * rpm >= 0.0 && (vd * rpm > 0.0 <==> rpm > 0.0);
      Ok((vd * rpm / 2.0) / 60.0 * ve)
  }

  /** The RPM at which the engine demands exactly the head flow. */
  function RpmLimitedByFlow(qHead: real, displL: real, ve: real): (r: Result<real>)
    ensures r.Ok? <==> qHead > 0.0 && displL > 0.0 && ve > 0.0
    ensures r.Ok? ==> r.value > 0.0 && EngineVolumetricFlow(displL, r.value, ve).Ok?
    ensures r.Ok? ==> EngineVolumetricFlow(displL, r.value, ve).value == qHead
  {
    if qHead <= 0.0 || displL <= 0.0 || ve <= 0.0 then Err("need q_head > 0, displ_L > 0, ve > 0")
    else
      var vd := displL * 0.001;
      var rpm := (qHead * 60.0 * 2.0) / (vd * ve);
      assert vd * ve > 0.0;
      assert rpm > 0.0;
      assert rpm * (vd * ve) == qHead * 120.0;
      assert (vd * rpm / 2.0) / 60.0 * ve == (rpm * (vd * ve)) / 120.0;
      Ok(rpm)
  }

  /** The demand at a given RPM, inverted, gives back that RPM. */
  lemma RpmRecoveredFromDemand(displL: real, rpm: real, ve: real)
    requires displL > 0.0 && rpm > 0.0 && ve > 0.0
    ensures EngineVolumetricFlow(displL, rpm, ve).Ok?
    ensures RpmLimitedByFlow(EngineVolumetricFlow(displL, rpm, ve).value, displL, ve).Ok?
    ensures RpmLimitedByFlow(EngineVolumetricFlow(displL, rpm, ve).value, displL, ve).value == rpm
  {
    var vd := displL * 0.001;
    var q := (vd * rpm / 2.0) / 60.0 * ve;
    assert vd * ve > 0.0;
    assert q * 120.0 == rpm * (vd * ve);
    assert q > 0.0;
    assert (q * 60.0 * 2.0) / (vd * ve) == rpm;
  }

  /** The RPM that the available area supports at a target port velocity. */
  function RpmFromCsa(aAvg: real, displL: real, ve: real, vTarget: real): (r: Result<real>)
    ensures r.Ok? <==> aAvg > 0.0 && displL > 0.0 && ve > 0.0 && vTarget > 0.0
    ensures r.Ok? ==> r == RpmLimitedByFlow(aAvg * vTarget, displL, ve)
  {
    if aAvg <= 0.0 || displL <= 0.0 || ve <= 0.0 || vTarget <= 0.0 then
      Err("need A_avg > 0, displ_L > 0, ve > 0, v_target > 0")
    else
      var q := aAvg * vTarget;
      assert q > 0.0;
      var vd := displL * 0.001;
      var rpm := (q * 60.0 * 2.0) / (vd * ve);
      assert RpmLimitedByFlow(q, displL, ve).value == rpm;
      Ok(rpm)
  }

  /** Mach number of the flow through the minimum cross-section. */
  function MachAtMinCsa(m: MathLib, q: real, aMin: real, T: real): (r: Result<real>)
    ensures aMin <= 0.0 || T < 0.0 ==> r.Err?
    ensures Lawful(m) ==> (r.Ok? <==> aMin > 0.0 && T > 0.0)
    ensures r.Ok? ==> r == MachFromVelocity(m, q / aMin, T)
  {
    var v :- VelocityFromFlow(q, aMin);
    MachFromVelocity(m, v, T)
  }

  // ---------------------------------------------------------------------------
  // Exhaust header and helpers
  // ---------------------------------------------------------------------------

  /** Header cross-section that carries the flow at the target velocity. */
  function HeaderCsaRequired(qExh: real, vTarget: real): (r: Result<real>)
    ensures r.Ok? <==> vTarget > 0.0
    ensures r.Ok? ==> r.value * vTarget == qExh
  {
    if vTarget <= 0.0 then Err("need v_exh_target > 0") else Ok(qExh / vTarget)
  }

  /** max(lo, min(hi, x)): lo wins when the bounds are crossed. */
  function Clamp(x: real, lo: real, hi: real): (r: real)
    ensures lo <= hi ==> lo <= r <= hi
    ensures lo <= x <= hi ==> r == x
    ensures lo > hi ==> r == lo
    ensures lo <= hi && x > hi ==> r == hi
    ensures x < lo ==> r == lo
  {
    Max(lo, Min(hi, x))
  }
}
