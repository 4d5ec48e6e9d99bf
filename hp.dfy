/**
 * Engine power estimates: the physical point estimate from air mass flow,
 * air-fuel ratio and brake-specific fuel consumption, its sweep over an RPM
 * grid with a cap and the peak of the sweep, and the rule-of-thumb estimate
 * from total flow.
 */
module Hp {
  import opened Wrappers
  import opened RealMath
  import opened Formulas
  import opened Schemas
  import opened Normalize

  /** One kg/s of fuel in lb/h. */
  const LB_PER_HR_PER_KG_PER_S: real := 7936.641

  /** The smallest lambda correction divided by. */
  const LAMBDA_FLOOR: real := 0.000000001

  /** Fuel flow in lb/h for an air mass flow rho·q burnt at afr and lambda. */
  function FuelLbPerHr(rho: real, q: real, afr: real, lambdaCorr: real): real
    requires afr != 0.0
  {
    (rho * q / afr) / Max(LAMBDA_FLOOR, lambdaCorr) * LB_PER_HR_PER_KG_PER_S
  }

  /**
   * estimate_hp_point_mode_b: fuel flow over BSFC. Fails on what
   * engine_volumetric_flow refuses, on afr = 0 (a division by zero) and on
   * BSFC <= 0; the errors come in that order.
   */
  function EstimateHpPointModeB(displL: real, ve: real, rpm: real, afr: real, lambdaCorr: real,
                                bsfc: real, rho: real): (hp: Result<real>)
    ensures hp.Ok? <==> displL > 0.0 && rpm >= 0.0 && ve >= 0.0 && afr != 0.0 && bsfc > 0.0
    ensures hp.Ok? ==> hp.value * bsfc == FuelLbPerHr(rho, EngineVolumetricFlow(displL, rpm, ve).value, afr, lambdaCorr)
    ensures hp.Ok? && rho > 0.0 && afr > 0.0 ==> hp.value >= 0.0 && (hp.value > 0.0 <==> rpm > 0.0 && ve > 0.0)
  {
    var q :- EngineVolumetricFlow(displL, rpm, ve);
    if afr == 0.0 then Err("float division by zero")
    else if bsfc <= 0.0 then Err("BSFC must be > 0")
    else
      var fuel := FuelLbPerHr(rho, q, afr, lambdaCorr);
      FuelSign(rho, q, afr, lambdaCorr);
      DivSign(fuel, bsfc);
      Ok(fuel / bsfc)
  }

  /** Fuel flow is non-negative, and positive exactly when the air flow is. */
  lemma FuelSign(rho: real, q: real, afr: real, lambdaCorr: real)
    requires afr != 0.0
    ensures rho > 0.0 && afr > 0.0 && q >= 0.0 ==> FuelLbPerHr(rho, q, afr, lambdaCorr) >= 0.0
    ensures rho > 0.0 && afr > 0.0 && q >= 0.0 ==> (FuelLbPerHr(rho, q, afr, lambdaCorr) > 0.0 <==> q > 0.0)
  {
    if rho > 0.0 && afr > 0.0 && q >= 0.0 {
      var lam := Max(LAMBDA_FLOOR, lambdaCorr);
      if q > 0.0 {
        MulPositive(rho, q);
        DivSign(rho * q, afr);
        DivSign(rho * q / afr, lam);
      } else {
        assert rho * q == 0.0;
      }
    }
  }

  /** More RPM means more air and so more power, for a positive density, AFR and VE. */
  lemma HpIncreasingInRpm(displL: real, ve: real, rpm1: real, rpm2: real, afr: real, lambdaCorr: real,
                          bsfc: real, rho: real)
    requires EstimateHpPointModeB(displL, ve, rpm1, afr, lambdaCorr, bsfc, rho).Ok?
    requires rho > 0.0 && afr > 0.0 && ve > 0.0 && rpm1 < rpm2
    ensures EstimateHpPointModeB(displL, ve, rpm2, afr, lambdaCorr, bsfc, rho).Ok?
    ensures EstimateHpPointModeB(displL, ve, rpm1, afr, lambdaCorr, bsfc, rho).value <
            EstimateHpPointModeB(displL, ve, rpm2, afr, lambdaCorr, bsfc, rho).value
  {
    var q1 := EngineVolumetricFlow(displL, rpm1, ve).value;
    var q2 := EngineVolumetricFlow(displL, rpm2, ve).value;
    FlowIncreasing(displL, ve, rpm1, rpm2);
    var lam := Max(LAMBDA_FLOOR, lambdaCorr);
    assert rho * q1 < rho * q2 by { MulPositive(rho, q2 - q1); }
    DivStrict(rho * q1, rho * q2, afr);
    DivStrict(rho * q1 / afr, rho * q2 / afr, lam);
    var f1 := FuelLbPerHr(rho, q1, afr, lambdaCorr);
    var f2 := FuelLbPerHr(rho, q2, afr, lambdaCorr);
    assert f1 < f2;
    DivStrict(f1, f2, bsfc);
  }

  /** The engine's volumetric flow rises with RPM for a positive VE. */
  lemma FlowIncreasing(displL: real, ve: real, rpm1: real, rpm2: real)
    requires displL > 0.0 && ve > 0.0 && 0.0 <= rpm1 < rpm2
    ensures EngineVolumetricFlow(displL, rpm1, ve).value < EngineVolumetricFlow(displL, rpm2, ve).value
  {
    var vd := displL * 0.001;
    assert EngineVolumetricFlow(displL, rpm1, ve).value == (vd * rpm1 / 2.0) / 60.0 * ve;
    assert EngineVolumetricFlow(displL, rpm2, ve).value == (vd * rpm2 / 2.0) / 60.0 * ve;
    assert vd * rpm1 < vd * rpm2 by { MulPositive(vd, rpm2 - rpm1); }
    DivStrict(vd * rpm1, vd * rpm2, 2.0);
    DivStrict(vd * rpm1 / 2.0, vd * rpm2 / 2.0, 60.0);
    assert (vd * rpm1 / 2.0) / 60.0 * ve < (vd * rpm2 / 2.0) / 60.0 * ve by {
      MulPositive((vd * rpm2 / 2.0) / 60.0 - (vd * rpm1 / 2.0) / 60.0, ve);
    }
  }

  /** A higher BSFC means less power from the same fuel. */
  lemma HpDecreasingInBsfc(displL: real, ve: real, rpm: real, afr: real, lambdaCorr: real,
                           bsfc1: real, bsfc2: real, rho: real)
    requires EstimateHpPointModeB(displL, ve, rpm, afr, lambdaCorr, bsfc1, rho).Ok?
    requires rho > 0.0 && afr > 0.0 && ve > 0.0 && rpm > 0.0 && bsfc1 < bsfc2
    ensures EstimateHpPointModeB(displL, ve, rpm, afr, lambdaCorr, bsfc2, rho).Ok?
    ensures EstimateHpPointModeB(displL, ve, rpm, afr, lambdaCorr, bsfc2, rho).value <
            EstimateHpPointModeB(displL, ve, rpm, afr, lambdaCorr, bsfc1, rho).value
  {
    var q := EngineVolumetricFlow(displL, rpm, ve).value;
    var fuel := FuelLbPerHr(rho, q, afr, lambdaCorr);
    FuelSign(rho, q, afr, lambdaCorr);
    MulPositive(fuel, bsfc2 - bsfc1);
    MulPositive(bsfc1, bsfc2);
    DivSign(fuel * (bsfc2 - bsfc1), bsfc1 * bsfc2);
    assert fuel / bsfc1 - fuel / bsfc2 == fuel * (bsfc2 - bsfc1) / (bsfc1 * bsfc2);
  }

  // ---------------------------------------------------------------------------
  // The HP curve
  // ---------------------------------------------------------------------------

  /** The Mode B parameters of a curve. */
  datatype CurveParams = CurveParams(afr: real, lambdaCorr: real, bsfc: real, rhoMode: string,
                                     rhoFixed: real, rpmCap: Option<real>)

  /** The Python defaults: AFR 12.8, lambda 1, BSFC 0.5, bench density, 1.204 kg/m³, no cap. */
  const DEFAULT_PARAMS: CurveParams := CurveParams(12.8, 1.0, 0.5, "bench", 1.204, None)

  /** A curve: the grid, one HP per grid RPM (None where the cap blanks it, NaN in Python) and the peak (hp, rpm). */
  datatype HpCurve = HpCurve(rpm: seq<real>, hp: seq<Option<real>>, peak: (real, real))

  /** VE of the engine, 1.0 when none is recorded. */
  function EngineVe(e: Engine): (ve: real)
    ensures e.ve.Some? ==> ve == e.ve.value
    ensures e.ve.None? ==> ve == 1.0
  {
    if e.ve.Some? then e.ve.value else 1.0
  }

  /** The density used: the session's air in "bench" mode, otherwise the fixed value. */
  function CurveDensity(m: MathLib, s: Session, p: CurveParams): (rho: Result<real>)
    ensures p.rhoMode == "bench" ==> rho == AirDensity(m, StateOf(s.air))
    ensures p.rhoMode != "bench" ==> rho == Ok(p.rhoFixed)
  {
    if p.rhoMode == "bench" then AirDensity(m, StateOf(s.air)) else Ok(p.rhoFixed)
  }

  /** The curve's entry at one RPM: the point estimate, which must succeed, blanked above the cap. */
  function HpAt(s: Session, p: CurveParams, rho: real, r: real): (h: Result<Option<real>>)
    ensures h.Ok? <==> EstimateHpPointModeB(s.engine.displ_L, EngineVe(s.engine), r, p.afr, p.lambdaCorr, p.bsfc, rho).Ok?
    ensures h.Ok? && p.rpmCap.Some? && r > p.rpmCap.value ==> h.value.None?
    ensures h.Ok? && !(p.rpmCap.Some? && r > p.rpmCap.value) ==>
              h.value == Some(EstimateHpPointModeB(s.engine.displ_L, EngineVe(s.engine), r, p.afr, p.lambdaCorr, p.bsfc, rho).value)
  {
    var hp :- EstimateHpPointModeB(s.engine.displ_L, EngineVe(s.engine), r, p.afr, p.lambdaCorr, p.bsfc, rho);
    if p.rpmCap.Some? && r > p.rpmCap.value then Ok(None) else Ok(Some(hp))
  }

  /** The hp list for a grid, point by point; the first failing point aborts. */
  function HpList(s: Session, p: CurveParams, rho: real, grid: seq<real>): (r: Result<seq<Option<real>>>)
    ensures r.Ok? ==> |r.value| == |grid|
    decreases |grid|
  {
    if grid == [] then Ok([])
    else
      var front :- HpList(s, p, rho, grid[..|grid| - 1]);
      var h :- HpAt(s, p, rho, grid[|grid| - 1]);
      Ok(front + [h])
  }

  /** A failure within the grid fails the whole list. */
  lemma {:induction false} HpListErrSticks(s: Session, p: CurveParams, rho: real, grid: seq<real>, extra: seq<real>)
    requires HpList(s, p, rho, grid).Err?
    ensures HpList(s, p, rho, grid + extra) == HpList(s, p, rho, grid)
    decreases |extra|
  {
    if extra == [] {
      assert grid + extra == grid;
    } else {
      var g := grid + extra;
      assert g[..|g| - 1] == grid + extra[..|extra| - 1];
      HpListErrSticks(s, p, rho, grid, extra[..|extra| - 1]);
    }
  }

  /** The hp list succeeds exactly when every point does, and holds each point's entry. */
  lemma {:induction false} HpListEntries(s: Session, p: CurveParams, rho: real, grid: seq<real>)
    ensures HpList(s, p, rho, grid).Ok? <==> forall k :: 0 <= k < |grid| ==> HpAt(s, p, rho, grid[k]).Ok?
    ensures HpList(s, p, rho, grid).Ok? ==>
              forall k :: 0 <= k < |grid| ==> HpList(s, p, rho, grid).value[k] == HpAt(s, p, rho, grid[k]).value
    decreases |grid|
  {
    if grid != [] {
      var front := grid[..|grid| - 1];
      HpListEntries(s, p, rho, front);
      assert forall k :: 0 <= k < |front| ==> front[k] == grid[k];
    }
  }

  /** The peak of a curve: the first largest finite HP and its RPM, (0, 0) when none is positive. */
  function Peak(xs: seq<real>, ys: seq<Option<real>>): (pk: (real, real))
    requires |xs| == |ys|
    decreases |xs|
  {
    if xs == [] then (0.0, 0.0)
    else
      var pk := Peak(xs[..|xs| - 1], ys[..|ys| - 1]);
      var h := ys[|ys| - 1];
      if h.Some? && h.value > pk.0 then (h.value, xs[|xs| - 1]) else pk
  }

  /**
   * The peak is (0, 0) when no finite HP is positive; otherwise it is the
   * finite HP k that is at least every other, strictly above every one before
   * it, paired with rpm k.
   */
  lemma {:induction false} PeakIsFirstMax(xs: seq<real>, ys: seq<Option<real>>) returns (k: int)
    requires |xs| == |ys|
    ensures var pk := Peak(xs, ys);
            && pk.0 >= 0.0
            && (forall l :: 0 <= l < |ys| && ys[l].Some? ==> ys[l].value <= pk.0)
            && -1 <= k < |xs|
            && (k == -1 ==> pk == (0.0, 0.0) && forall l :: 0 <= l < |ys| && ys[l].Some? ==> ys[l].value <= 0.0)
            && (k >= 0 ==> ys[k] == Some(pk.0) && xs[k] == pk.1 && pk.0 > 0.0)
            && (k >= 0 ==> forall l :: 0 <= l < k && ys[l].Some? ==> ys[l].value < pk.0)
    decreases |xs|
  {
    if xs == [] {
      k := -1;
    } else {
      var n := |xs| - 1;
      var fx, fy := xs[..n], ys[..n];
      var k' := PeakIsFirstMax(fx, fy);
      assert forall l :: 0 <= l < n ==> fx[l] == xs[l] && fy[l] == ys[l];
      var pk := Peak(fx, fy);
      if ys[n].Some? && ys[n].value > pk.0 {
        k := n;
      } else {
        k := k';
      }
    }
  }

  /** What estimate_hp_curve_mode_b returns. */
  function CurveSpec(m: MathLib, s: Session, grid: seq<real>, p: CurveParams): (r: Result<HpCurve>)
    ensures r.Ok? ==> r.value.rpm == grid && |r.value.hp| == |grid|
  {
    var rho :- CurveDensity(m, s, p);
    var ys :- HpList(s, p, rho, grid);
    Ok(HpCurve(grid, ys, Peak(grid, ys)))
  }

  /**
   * The curve's entries: each grid RPM above the cap has no HP, every other one
   * has the point estimate at that RPM; the sweep fails when some point fails.
   */
  lemma CurveEntries(m: MathLib, s: Session, grid: seq<real>, p: CurveParams)
    requires CurveDensity(m, s, p).Ok?
    ensures var rho := CurveDensity(m, s, p).value;
            CurveSpec(m, s, grid, p).Ok? <==>
              forall k :: 0 <= k < |grid| ==>
                EstimateHpPointModeB(s.engine.displ_L, EngineVe(s.engine), grid[k], p.afr, p.lambdaCorr, p.bsfc, rho).Ok?
    ensures var rho := CurveDensity(m, s, p).value;
            CurveSpec(m, s, grid, p).Ok? ==>
              forall k :: 0 <= k < |grid| ==>
                (CurveSpec(m, s, grid, p).value.hp[k].None? <==> p.rpmCap.Some? && grid[k] > p.rpmCap.value) &&
                (CurveSpec(m, s, grid, p).value.hp[k].Some? ==>
                   CurveSpec(m, s, grid, p).value.hp[k].value ==
                   EstimateHpPointModeB(s.engine.displ_L, EngineVe(s.engine), grid[k], p.afr, p.lambdaCorr, p.bsfc, rho).value)
  {
    HpListEntries(s, p, CurveDensity(m, s, p).value, grid);
  }

  /** The first loop: one hp entry per grid RPM. */
  method SweepGrid(s: Session, p: CurveParams, rho: real, grid: seq<real>) returns (r: Result<seq<Option<real>>>)
    ensures r == HpList(s, p, rho, grid)
  {
    var ys: seq<Option<real>> := [];
    var i := 0;
    while i < |grid|
      invariant 0 <= i <= |grid|
      invariant HpList(s, p, rho, grid[..i]) == Ok(ys)
    {
      assert grid[..i + 1][..i] == grid[..i];
      var h := HpAt(s, p, rho, grid[i]);
      if h.Err? {
        assert HpList(s, p, rho, grid[..i + 1]).Err?;
        HpListErrSticks(s, p, rho, grid[..i + 1], grid[i + 1..]);
        assert grid[..i + 1] + grid[i + 1..] == grid;
        return Err(h.msg);
      }
      ys := ys + [h.value];
      i := i + 1;
    }
    assert grid[..i] == grid;
    r := Ok(ys);
  }

  /** The second loop: the first strictly largest finite HP. */
  method FindPeak(xs: seq<real>, ys: seq<Option<real>>) returns (peakHp: real, peakRpm: real)
    requires |xs| == |ys|
    ensures (peakHp, peakRpm) == Peak(xs, ys)
  {
    peakHp, peakRpm := 0.0, 0.0;
    var i := 0;
    while i < |xs|
      invariant 0 <= i <= |xs|
      invariant (peakHp, peakRpm) == Peak(xs[..i], ys[..i])
    {
      assert xs[..i + 1][..i] == xs[..i] && ys[..i + 1][..i] == ys[..i];
      var h := ys[i];
      if h.Some? && h.value > peakHp {
        peakHp, peakRpm := h.value, xs[i];
      }
      i := i + 1;
    }
    assert xs[..i] == xs && ys[..i] == ys;
  }

  /** estimate_hp_curve_mode_b. */
  method EstimateHpCurveModeB(m: MathLib, s: Session, grid: seq<real>, p: CurveParams) returns (r: Result<HpCurve>)
    ensures r == CurveSpec(m, s, grid, p)
  {
    var rho := CurveDensity(m, s, p);
    if rho.Err? {
      return Err(rho.msg);
    }
    var ys := SweepGrid(s, p, rho.value, grid);
    if ys.Err? {
      return Err(ys.msg);
    }
    var peakHp, peakRpm := FindPeak(grid, ys.value);
    r := Ok(HpCurve(grid, ys.value, (peakHp, peakRpm)));
  }

  // ---------------------------------------------------------------------------
  // Rule of thumb
  // ---------------------------------------------------------------------------

  /** estimate_hp_rot_total: k HP per CFM of bench flow at 28 inH2O (k = 0.26 by default). */
  function EstimateHpRotTotal(cfmTotal: real, k: real): (hp: Result<real>)
    ensures hp.Ok? <==> cfmTotal >= 0.0 && k > 0.0
    ensures hp.Ok? ==> hp.value >= 0.0 && (hp.value == 0.0 <==> cfmTotal == 0.0)
  {
    if cfmTotal < 0.0 || k <= 0.0 then Err("cfm_total>=0 and k>0")
    else
      MulNonNegative(k, cfmTotal);
      assert cfmTotal > 0.0 ==> k * cfmTotal > 0.0 by { if cfmTotal > 0.0 { MulPositive(k, cfmTotal); } }
      Ok(k * cfmTotal)
  }

  const DEFAULT_HP_PER_CFM: real := 0.26

  /** Every CFM is worth k HP: the estimate divided by the flow is k. */
  lemma RotTotalPerCfm(cfmTotal: real, k: real)
    requires cfmTotal > 0.0 && k > 0.0
    ensures EstimateHpRotTotal(cfmTotal, k).Ok?
    ensures EstimateHpRotTotal(cfmTotal, k).value / cfmTotal == k
  {
    assert (k * cfmTotal) / cfmTotal == k;
  }

  /** The rule of thumb is homogeneous: scaling the flow by c scales the HP by c. */
  lemma RotTotalScales(c: real, cfmTotal: real, k: real)
    requires c >= 0.0 && cfmTotal >= 0.0 && k > 0.0
    ensures c * cfmTotal >= 0.0
    ensures EstimateHpRotTotal(c * cfmTotal, k).Ok? && EstimateHpRotTotal(cfmTotal, k).Ok?
    ensures EstimateHpRotTotal(c * cfmTotal, k).value == c * EstimateHpRotTotal(cfmTotal, k).value
  {
    MulNonNegative(c, cfmTotal);
    assert k * (c * cfmTotal) == c * (k * cfmTotal);
  }

  /** The rule of thumb is additive: the HP of two flows together is the sum of their HPs. */
  lemma RotTotalAdditive(c1: real, c2: real, k: real)
    requires EstimateHpRotTotal(c1, k).Ok? && EstimateHpRotTotal(c2, k).Ok?
    ensures EstimateHpRotTotal(c1 + c2, k).Ok?
    ensures EstimateHpRotTotal(c1 + c2, k).value == EstimateHpRotTotal(c1, k).value + EstimateHpRotTotal(c2, k).value
  {
    assert k * (c1 + c2) == k * c1 + k * c2;
  }
}
