/**
 * Intake tuning: quarter-wave runner lengths and their inverse, the Helmholtz
 * plenum volume for a frequency and the frequency of a plenum, and the grid
 * search that picks a runner length and diameter for a target RPM.
 */
module Tuning {
  import opened Wrappers
  import opened RealMath
  import opened Formulas

  /** A runner: physical length, inner diameter, cross-section and the harmonic order it is tuned to. */
  datatype RunnerSpec = RunnerSpec(L_m: real, d_m: real, A_m2: real, order: int)

  /** The search box for the runner length and diameter. */
  datatype RunnerBounds = RunnerBounds(L_min_m: real, L_max_m: real, d_min_m: real, d_max_m: real)

  // ---------------------------------------------------------------------------
  // Quarter-wave and Helmholtz formulas
  // ---------------------------------------------------------------------------

  /** Effective quarter-wave length a·(2k−1)/(4f) of harmonic k. */
  function EffectiveLength(a: real, f: real, order: int): real
    requires f > 0.0
  {
    a * (2 * order - 1) as real / (4.0 * f)
  }

  /** quarter_wave_length: the effective length less the end correction, never negative. */
  function QuarterWaveLength(a: real, f: real, order: int, endCorr: real, r: real): (L: Result<real>)
    ensures L.Ok? <==> a > 0.0 && f > 0.0 && order >= 1
    ensures L.Ok? ==> L.value >= 0.0
    ensures L.Ok? ==> L.value >= EffectiveLength(a, f, order) - endCorr * r
    ensures L.Ok? ==> L.value == 0.0 || L.value == EffectiveLength(a, f, order) - endCorr * r
  {
    if a <= 0.0 || f <= 0.0 then Err("a>0, f>0")
    else if order < 1 then Err("order>=1")
    else Ok(Max(0.0, EffectiveLength(a, f, order) - endCorr * r))
  }

  /** event_freq_from_rpm: one intake event per two revolutions, rpm/120 Hz. */
  function EventFreqFromRpm(rpm: real): (f: Result<real>)
    ensures f.Ok? <==> rpm > 0.0
    ensures f.Ok? ==> f.value > 0.0 && f.value * 120.0 == rpm
  {
    if rpm <= 0.0 then Err("rpm>0") else Ok(rpm / 120.0)
  }

  /** csa_from_flow_and_velocity: the area that carries q at speed v. */
  function CsaFromFlowAndVelocity(q: real, v: real): (a: Result<real>)
    ensures a.Ok? <==> q > 0.0 && v > 0.0
    ensures a.Ok? ==> a.value > 0.0 && a.value * v == q
  {
    if q <= 0.0 || v <= 0.0 then Err("q>0, v>0")
    else
      DivSign(q, v);
      Ok(q / v)
  }

  /** The area of a circle of diameter d. */
  function CircleArea(d: real): real
  {
    PI * (d * d) / 4.0
  }

  /** diameter_from_csa: the diameter of the circle of area A. */
  function DiameterFromCsa(m: MathLib, A: real): (d: Result<real>)
    ensures d.Ok? <==> A > 0.0
    ensures Lawful(m) && d.Ok? ==> d.value > 0.0 && CircleArea(d.value) == A
  {
    if A <= 0.0 then Err("A>0")
    else
      DivSign(4.0 * A, PI);
      Ok(m.sqrt(4.0 * A / PI))
  }

  /** helmholtz_plenum_volume_for_freq: V = (A/L)·(a/(2πf))². */
  function HelmholtzPlenumVolumeForFreq(a: real, aNeck: real, lNeck: real, f: real): (v: Result<real>)
    ensures v.Ok? <==> f > 0.0 && aNeck > 0.0 && lNeck > 0.0 && a > 0.0
    ensures v.Ok? ==> v.value > 0.0
  {
    if f <= 0.0 || aNeck <= 0.0 || lNeck <= 0.0 || a <= 0.0 then Err("f>0, A>0, L>0, a>0")
    else
      var ratio := aNeck / lNeck;
      var w := a / (2.0 * PI * f);
      DivSign(aNeck, lNeck);
      DivSign(a, 2.0 * PI * f);
      SqPositive(w);
      MulPositive(ratio, Sq(w));
      Ok(ratio * Sq(w))
  }

  /** A higher tuning frequency needs a strictly smaller plenum. */
  lemma HelmholtzVolumeDecreasing(a: real, aNeck: real, lNeck: real, f1: real, f2: real)
    requires HelmholtzPlenumVolumeForFreq(a, aNeck, lNeck, f1).Ok? && f1 < f2
    ensures HelmholtzPlenumVolumeForFreq(a, aNeck, lNeck, f2).Ok?
    ensures HelmholtzPlenumVolumeForFreq(a, aNeck, lNeck, f2).value < HelmholtzPlenumVolumeForFreq(a, aNeck, lNeck, f1).value
  {
    var ratio := aNeck / lNeck;
    DivSign(aNeck, lNeck);
    var w1, w2 := a / (2.0 * PI * f1), a / (2.0 * PI * f2);
    assert 2.0 * PI * f1 < 2.0 * PI * f2;
    ReciprocalDecreasing(a, 2.0 * PI * f1, 2.0 * PI * f2);
    DivSign(a, 2.0 * PI * f2);
    SqBelow(w2, w1);
    assert ratio * (Sq(w1) - Sq(w2)) > 0.0 by { MulPositive(ratio, Sq(w1) - Sq(w2)); }
  }

  /** a/x falls as x rises, for a, x > 0. */
  lemma ReciprocalDecreasing(a: real, x: real, y: real)
    requires a > 0.0 && 0.0 < x < y
    ensures a / y < a / x
  {
    MulPositive(a, y - x);
    MulPositive(x, y);
    DivSign(a * (y - x), x * y);
    assert a / x - a / y == a * (y - x) / (x * y);
  }

  /** score_resonance_alignment: the distance in RPM from the target. */
  function ScoreResonanceAlignment(targetRpm: real, achievedRpm: real): (s: real)
    ensures s >= 0.0
    ensures s == 0.0 <==> achievedRpm == targetRpm
    ensures s == ScoreResonanceAlignmentSym(achievedRpm, targetRpm)
  {
    Abs(achievedRpm - targetRpm)
  }

  /** The score with the roles of target and achieved swapped. */
  function ScoreResonanceAlignmentSym(achievedRpm: real, targetRpm: real): real
  {
    Abs(targetRpm - achievedRpm)
  }

  /** rpm_from_quarter_wave: the RPM a runner of physical length L is tuned to. */
  function RpmFromQuarterWave(a: real, L: real, order: int, r: real, endCorr: real): (rpm: Result<real>)
    ensures rpm.Ok? <==> a > 0.0 && L > 0.0 && order >= 1 && L + endCorr * r != 0.0
    ensures rpm.Ok? && L + endCorr * r > 0.0 ==> rpm.value > 0.0
  {
    if a <= 0.0 || L <= 0.0 || order < 1 then Err("a>0, L>0, order>=1")
    else
      var lEff := L + endCorr * r;
      if lEff == 0.0 then Err("float division by zero")
      else
        var x := a * (2 * order - 1) as real;
        assert x > 0.0 by { MulPositive(a, (2 * order - 1) as real); }
        assert lEff > 0.0 ==> x / (4.0 * lEff) > 0.0 by {
          if lEff > 0.0 { DivSign(x, 4.0 * lEff); }
        }
        Ok(x / (4.0 * lEff) * 120.0)
  }

  /**
   * Tuning a runner to an RPM and reading back the RPM it is tuned to gives
   * the RPM again, as long as the end correction does not clamp the length to 0.
   */
  lemma QuarterWaveRoundTrip(a: real, rpm: real, order: int, endCorr: real, r: real)
    requires a > 0.0 && rpm > 0.0 && order >= 1
    requires EffectiveLength(a, rpm / 120.0, order) > endCorr * r
    ensures QuarterWaveLength(a, EventFreqFromRpm(rpm).value, order, endCorr, r).Ok?
    ensures RpmFromQuarterWave(a, QuarterWaveLength(a, EventFreqFromRpm(rpm).value, order, endCorr, r).value, order, r, endCorr).Ok?
    ensures RpmFromQuarterWave(a, QuarterWaveLength(a, EventFreqFromRpm(rpm).value, order, endCorr, r).value, order, r, endCorr).value == rpm
  {
    var f := rpm / 120.0;
    var x := a * (2 * order - 1) as real;
    assert x > 0.0 by { MulPositive(a, (2 * order - 1) as real); }
    var lEff := EffectiveLength(a, f, order);
    assert lEff == x / (4.0 * f);
    var L := QuarterWaveLength(a, f, order, endCorr, r).value;
    assert L == lEff - endCorr * r;
    assert L + endCorr * r == lEff;
    QuarterOfQuarter(x, f);
    assert RpmFromQuarterWave(a, L, order, r, endCorr).value == x / (4.0 * lEff) * 120.0;
  }

  /** x / (4·(x / (4f))) = f. */
  lemma QuarterOfQuarter(x: real, f: real)
    requires x > 0.0 && f > 0.0
    ensures x / (4.0 * (x / (4.0 * f))) == f
  {
    var y := x / (4.0 * f);
    assert y * (4.0 * f) == x;
    DivSign(x, 4.0 * f);
    assert x / (4.0 * y) * (4.0 * y) == x;
    assert (4.0 * y) * f == x;
    assert x / (4.0 * y) == f by { DivUnique(x, 4.0 * y, f); }
  }

  /** The quotient x / d is the only q with q·d = x. */
  lemma DivUnique(x: real, d: real, q: real)
    requires d != 0.0 && d * q == x
    ensures x / d == q
  {
  }

  // ---------------------------------------------------------------------------
  // Quarter-wave length and RPM at a given temperature
  // ---------------------------------------------------------------------------

  /** quarter_wave_L_phys: the runner length for rpm on odd harmonic 2n−1, at least 0. */
  function QuarterWaveLPhys(m: MathLib, rpmTarget: real, nHarm: int, D: real, T: real): (L: Result<real>)
    ensures L.Ok? <==> T >= 0.0
    ensures L.Ok? ==> L.value >= 0.0
    ensures L.Ok? && (2 * nHarm - 1) as real * (rpmTarget / 120.0) <= 0.0 ==> L.value == 0.0
  {
    var a :- SpeedOfSound(m, T);
    var fTune := (2 * nHarm - 1) as real * (rpmTarget / 120.0);
    if fTune <= 0.0 then Ok(0.0)
    else Ok(Max(a / (4.0 * fTune) - 0.6 * D, 0.0))
  }

  /** quarter_wave_rpm_for_L: the RPM a runner of length L is tuned to on harmonic 2n−1; 0 when degenerate. */
  function QuarterWaveRpmForL(m: MathLib, L: real, nHarm: int, D: real, T: real): (rpm: Result<real>)
    ensures rpm.Ok? <==> T >= 0.0
    ensures rpm.Ok? && (L + 0.6 * D <= 0.0 || nHarm <= 0) ==> rpm.value == 0.0
    ensures Lawful(m) && rpm.Ok? && T > 0.0 && L + 0.6 * D > 0.0 && nHarm > 0 ==> rpm.value > 0.0
  {
    var a :- SpeedOfSound(m, T);
    var lEff := L + 0.6 * D;
    if lEff <= 0.0 || nHarm <= 0 then Ok(0.0)
    else
      var k := (2 * nHarm - 1) as real;
      var fTune := a / (4.0 * lEff);
      PulseRpmPositive(a, lEff, k);
      Ok(fTune / k * 120.0)
  }

  /** a/(4L)/k·120 is positive for positive a, L and k. */
  lemma PulseRpmPositive(a: real, lEff: real, k: real)
    requires lEff > 0.0 && k >= 1.0
    ensures a > 0.0 ==> a / (4.0 * lEff) / k * 120.0 > 0.0
  {
    if a > 0.0 {
      DivSign(a, 4.0 * lEff);
      DivSign(a / (4.0 * lEff), k);
    }
  }

  /**
   * quarter_wave_rpm_for_L inverts quarter_wave_L_phys: the length recommended
   * for an RPM is tuned to that RPM, unless the length was clamped to 0.
   */
  lemma QuarterWaveInverse(m: MathLib, rpm: real, nHarm: int, D: real, T: real)
    requires Lawful(m) && T > 0.0 && rpm > 0.0 && nHarm >= 1
    requires QuarterWaveLPhys(m, rpm, nHarm, D, T).Ok? && QuarterWaveLPhys(m, rpm, nHarm, D, T).value > 0.0
    ensures QuarterWaveRpmForL(m, QuarterWaveLPhys(m, rpm, nHarm, D, T).value, nHarm, D, T) == Ok(rpm)
  {
    var a := SpeedOfSound(m, T).value;
    assert a > 0.0;
    var k := (2 * nHarm - 1) as real;
    var f := rpm / 120.0;
    var fTune := k * f;
    assert fTune > 0.0 by { MulPositive(k, f); }
    var lEff := a / (4.0 * fTune);
    var L := QuarterWaveLPhys(m, rpm, nHarm, D, T).value;
    assert L == lEff - 0.6 * D;
    assert L + 0.6 * D == lEff;
    DivSign(a, 4.0 * fTune);
    QuarterOfQuarter(a, fTune);
    assert a / (4.0 * lEff) == fTune;
    assert fTune / k == f;
    assert QuarterWaveRpmForL(m, L, nHarm, D, T).value == f * 120.0;
  }

  /** helmholtz_f_and_rpm: the plenum's Helmholtz frequency and the RPM it corresponds to; (0, 0) when degenerate. */
  function HelmholtzFAndRpm(m: MathLib, D: real, L: real, V: real, nHarm: int, T: real): (r: Result<(real, real)>)
    ensures r.Ok? <==> T >= 0.0
    ensures r.Ok? && (L + 0.6 * D <= 0.0 || V <= 0.0 || D == 0.0 || nHarm <= 0) ==> r.value == (0.0, 0.0)
    ensures r.Ok? && r.value != (0.0, 0.0) ==> r.value.1 * nHarm as real == r.value.0 * 120.0
  {
    var a :- SpeedOfSound(m, T);
    var A := PI * Sq(D / 2.0);
    var lEff := L + 0.6 * D;
    assert D != 0.0 ==> A > 0.0 by { if D != 0.0 { SqPositive(D / 2.0); MulPositive(PI, Sq(D / 2.0)); } }
    assert D == 0.0 ==> A == 0.0;
    if lEff <= 0.0 || V <= 0.0 || A <= 0.0 || nHarm <= 0 then Ok((0.0, 0.0))
    else
      var fH := (a / (2.0 * PI)) * m.sqrt(A / (V * lEff));
      var rpm := fH * 120.0 / nHarm as real;
      assert rpm * nHarm as real == fH * 120.0;
      Ok((fH, rpm))
  }

  /**
   * The plenum volume that helmholtz_plenum_volume_for_freq asks for at the
   * frequency helmholtz_f_and_rpm finds is the plenum's own volume.
   */
  lemma HelmholtzInverse(m: MathLib, D: real, L: real, V: real, nHarm: int, T: real)
    requires Lawful(m) && T > 0.0 && D != 0.0 && V > 0.0 && nHarm > 0 && L + 0.6 * D > 0.0
    ensures HelmholtzFAndRpm(m, D, L, V, nHarm, T).Ok?
    ensures HelmholtzPlenumVolumeForFreq(SpeedOfSound(m, T).value, PI * Sq(D / 2.0), L + 0.6 * D,
                                         HelmholtzFAndRpm(m, D, L, V, nHarm, T).value.0) == Ok(V)
  {
    var a := SpeedOfSound(m, T).value;
    assert a > 0.0;
    var A := PI * Sq(D / 2.0);
    SqPositive(D / 2.0);
    MulPositive(PI, Sq(D / 2.0));
    var lEff := L + 0.6 * D;
    var vl := V * lEff;
    MulPositive(V, lEff);
    var x := A / vl;
    DivSign(A, vl);
    var s := m.sqrt(x);
    assert s > 0.0 && s * s == x;
    var c := a / (2.0 * PI);
    DivSign(a, 2.0 * PI);
    var fH := c * s;
    assert HelmholtzFAndRpm(m, D, L, V, nHarm, T).value.0 == fH;
    MulPositive(c, s);
    HelmholtzAlgebra(a, A, lEff, V, c, s);
  }

  /** (A/L)·(a/(2π·c·s))² = V when c = a/(2π) and s² = A/(V·L). */
  lemma HelmholtzAlgebra(a: real, A: real, lEff: real, V: real, c: real, s: real)
    requires a > 0.0 && A > 0.0 && lEff > 0.0 && V > 0.0 && s > 0.0
    requires c == a / (2.0 * PI) && s * s == A / (V * lEff)
    ensures HelmholtzPlenumVolumeForFreq(a, A, lEff, c * s).Ok?
    ensures HelmholtzPlenumVolumeForFreq(a, A, lEff, c * s).value == V
  {
    MulPositive(c, s);
    assert c > 0.0 by { DivSign(a, 2.0 * PI); }
    MulPositive(c, s);
    var f := c * s;
    assert 2.0 * PI * f == a * s;
    var w := a / (2.0 * PI * f);
    assert w == 1.0 / s by { DivUnique(a, 2.0 * PI * f, 1.0 / s); }
    assert Sq(w) == 1.0 / (s * s);
    assert Sq(w) == (V * lEff) / A by { DivUnique(1.0, A / (V * lEff), (V * lEff) / A); }
    assert (A / lEff) * ((V * lEff) / A) == V;
    assert HelmholtzPlenumVolumeForFreq(a, A, lEff, f).value == (A / lEff) * Sq(w);
  }

  // ---------------------------------------------------------------------------
  // Grid search
  // ---------------------------------------------------------------------------

  /** The inputs of grid_search_runner other than the harmonic orders. */
  datatype SearchInput = SearchInput(a: real, targetRpm: real, qPeak: real, vTarget: real,
                                     bounds: RunnerBounds, nL: int, nD: int, endCorr: real)

  /** A scored candidate runner. */
  datatype Candidate = Candidate(spec: RunnerSpec, score: real)

  /** range(n) has max(n, 0) elements. */
  function Count(n: int): nat
  {
    if n > 0 then n else 0
  }

  /** Grid point i of n between lo and hi: lo + (hi − lo)·i / max(1, n − 1). */
  function GridPoint(lo: real, hi: real, n: int, i: nat): real
  {
    lo + (hi - lo) * i as real / (if 1 >= n - 1 then 1 else n - 1) as real
  }

  /** Every grid point lies in [lo, hi]; the first is lo and, with two points or more, the last is hi. */
  lemma GridPointBounds(lo: real, hi: real, n: int, i: nat)
    requires lo < hi && i < n
    ensures lo <= GridPoint(lo, hi, n, i) <= hi
    ensures i == 0 ==> GridPoint(lo, hi, n, i) == lo
    ensures n >= 2 && i == n - 1 ==> GridPoint(lo, hi, n, i) == hi
  {
    var den := (if 1 >= n - 1 then 1 else n - 1) as real;
    var w := hi - lo;
    assert i as real <= den;
    MulNonNegative(w, i as real);
    MulNonNegative(w, den - i as real);
    assert w * den - w * i as real == w * (den - i as real);
    DivBounds(w * i as real, den, 0.0, w);
  }

  /** The triple (order, i, j) scored: length i and diameter j of the grid, tuned to the order. */
  function Evaluate(inp: SearchInput, t: (int, nat, nat)): (r: Result<Candidate>)
    ensures r.Ok? ==> r.value.spec.order == t.0 && r.value.score >= 0.0
    ensures r.Ok? ==> r.value.spec.L_m == GridPoint(inp.bounds.L_min_m, inp.bounds.L_max_m, inp.nL, t.1)
    ensures r.Ok? ==> r.value.spec.d_m == GridPoint(inp.bounds.d_min_m, inp.bounds.d_max_m, inp.nD, t.2)
    ensures r.Ok? ==> r.value.spec.A_m2 == CircleArea(r.value.spec.d_m)
  {
    var L := GridPoint(inp.bounds.L_min_m, inp.bounds.L_max_m, inp.nL, t.1);
    var d := GridPoint(inp.bounds.d_min_m, inp.bounds.d_max_m, inp.nD, t.2);
    var A := CircleArea(d);
    var vMean := inp.qPeak / Max(A, 0.000000000001);
    var rpm :- RpmFromQuarterWave(inp.a, L, t.0, d * 0.5, inp.endCorr);
    var score := ScoreResonanceAlignment(inp.targetRpm, rpm) + Max(0.0, vMean - inp.vTarget) * 10.0;
    Ok(Candidate(RunnerSpec(L, d, A, t.0), score))
  }

  /** The candidate kept after comparing c with the best so far: a strictly lower score wins. */
  function Pick(best: Option<Candidate>, c: Candidate): (r: Candidate)
    ensures best.None? ==> r == c
    ensures best.Some? ==> (r == c || r == best.value) && r.score <= best.value.score && r.score <= c.score
    ensures best.Some? && r != best.value ==> c.score < best.value.score
  {
    if best.None? || c.score < best.value.score then c else best.value
  }

  /** The best candidate after scoring ts in order, starting from acc; the first error aborts. */
  function BestFrom(inp: SearchInput, acc: Option<Candidate>, ts: seq<(int, nat, nat)>): (r: Result<Option<Candidate>>)
    ensures r.Ok? <==> forall k :: 0 <= k < |ts| ==> Evaluate(inp, ts[k]).Ok?
    ensures r.Ok? ==> (r.value.None? <==> acc.None? && ts == [])
    decreases |ts|
  {
    if ts == [] then Ok(acc)
    else
      var c :- Evaluate(inp, ts[0]);
      assert forall k :: 1 <= k < |ts| ==> ts[1..][k - 1] == ts[k];
      BestFrom(inp, Some(Pick(acc, c)), ts[1..])
  }

  /** Scanning xs and then ys is scanning xs + ys. */
  lemma {:induction false} BestFromAppend(inp: SearchInput, acc: Option<Candidate>, xs: seq<(int, nat, nat)>, ys: seq<(int, nat, nat)>)
    ensures BestFrom(inp, acc, xs + ys) ==
            (var b :- BestFrom(inp, acc, xs); BestFrom(inp, b, ys))
    decreases |xs|
  {
    if xs == [] {
      assert xs + ys == ys;
    } else {
      assert (xs + ys)[0] == xs[0];
      assert (xs + ys)[1..] == xs[1..] + ys;
      var c := Evaluate(inp, xs[0]);
      if c.Ok? {
        BestFromAppend(inp, Some(Pick(acc, c.value)), xs[1..], ys);
      }
    }
  }

  /**
   * The scan keeps the first candidate of lowest score: the result is acc or
   * the candidate of some triple k; no candidate scores lower; and every
   * candidate before k, and acc when k was chosen, scores strictly higher.
   */
  lemma {:induction false} BestFromArgmin(inp: SearchInput, acc: Option<Candidate>, ts: seq<(int, nat, nat)>)
    returns (k: int)
    requires BestFrom(inp, acc, ts).Ok? && BestFrom(inp, acc, ts).value.Some?
    ensures var c := BestFrom(inp, acc, ts).value.value;
            && -1 <= k < |ts|
            && (k == -1 ==> acc == Some(c))
            && (k >= 0 ==> Evaluate(inp, ts[k]) == Ok(c) && (acc.Some? ==> c.score < acc.value.score))
            && (acc.Some? ==> c.score <= acc.value.score)
            && (forall l :: 0 <= l < |ts| ==> c.score <= Evaluate(inp, ts[l]).value.score)
            && (forall l :: 0 <= l < k ==> c.score < Evaluate(inp, ts[l]).value.score)
    decreases |ts|
  {
    var c := BestFrom(inp, acc, ts).value.value;
    if ts == [] {
      k := -1;
    } else {
      var e := Evaluate(inp, ts[0]).value;
      var acc' := Some(Pick(acc, e));
      assert BestFrom(inp, acc, ts) == BestFrom(inp, acc', ts[1..]);
      var k' := BestFromArgmin(inp, acc', ts[1..]);
      assert forall l :: 1 <= l < |ts| ==> ts[1..][l - 1] == ts[l];
      if k' == -1 {
        if acc.Some? && !(e.score < acc.value.score) {
          k := -1;
        } else {
          k := 0;
        }
      } else {
        k := k' + 1;
      }
    }
  }

  /** The triples (order, i, j) of row i: the diameters for one length. */
  function Row(order: int, i: nat, nD: int): (r: seq<(int, nat, nat)>)
    ensures |r| == Count(nD)
    ensures forall j :: 0 <= j < |r| ==> r[j] == (order, i, j)
  {
    seq(Count(nD), j requires 0 <= j < Count(nD) => (order, i, j))
  }

  /** The rows i, i+1, ..., nL−1 of one order, in that order. */
  function RowsFrom(order: int, i: nat, nL: int, nD: int): (r: seq<(int, nat, nat)>)
    ensures forall k :: 0 <= k < |r| ==> r[k].0 == order && i <= r[k].1 < Count(nL) && r[k].2 < Count(nD)
    decreases Count(nL) - i
  {
    if i >= Count(nL) then []
    else
      var rest := RowsFrom(order, i + 1, nL, nD);
      var row := Row(order, i, nD);
      assert forall k :: |row| <= k < |row| + |rest| ==> (row + rest)[k] == rest[k - |row|];
      row + rest
  }

  /** All triples of the search in loop order harmonic, then length, then diameter; orders below 1 are skipped. */
  function Triples(orders: seq<int>, nL: int, nD: int): (r: seq<(int, nat, nat)>)
    ensures forall k :: 0 <= k < |r| ==> r[k].0 >= 1 && r[k].0 in orders && r[k].1 < Count(nL) && r[k].2 < Count(nD)
  {
    if orders == [] then []
    else
      var head := if orders[0] >= 1 then RowsFrom(orders[0], 0, nL, nD) else [];
      var rest := Triples(orders[1..], nL, nD);
      assert forall k :: |head| <= k < |head| + |rest| ==> (head + rest)[k] == rest[k - |head|];
      assert forall k :: 0 <= k < |rest| ==> rest[k].0 in orders;
      head + rest
  }

  /** What grid_search_runner returns: input checks, then the first candidate of lowest score. */
  function GridSearchSpec(inp: SearchInput, orders: seq<int>): (r: Result<Candidate>)
    ensures r.Ok? ==> inp.a > 0.0 && inp.targetRpm > 0.0 && inp.qPeak > 0.0 && inp.vTarget > 0.0 &&
                      inp.bounds.L_min_m > 0.0 && inp.bounds.d_min_m > 0.0
    ensures r.Ok? ==> inp.bounds.L_min_m < inp.bounds.L_max_m && inp.bounds.d_min_m < inp.bounds.d_max_m
    ensures r.Ok? ==> Triples(orders, inp.nL, inp.nD) != []
  {
    var b := inp.bounds;
    if inp.a <= 0.0 || inp.targetRpm <= 0.0 || inp.qPeak <= 0.0 || inp.vTarget <= 0.0 ||
       b.L_min_m <= 0.0 || b.d_min_m <= 0.0 then Err("inputs must be > 0")
    else if !(b.L_min_m < b.L_max_m && b.d_min_m < b.d_max_m) then Err("invalid bounds")
    else
      var best :- BestFrom(inp, None, Triples(orders, inp.nL, inp.nD));
      if best.None? then Err("no candidate") else Ok(best.value)
  }

  /**
   * The chosen runner lies inside the search box, is tuned to an order of at
   * least 1 that was asked for, has a non-negative score, scores no worse than
   * any grid candidate, and strictly better than every candidate scanned
   * before it.
   */
  lemma GridSearchChoice(inp: SearchInput, orders: seq<int>) returns (k: nat)
    requires GridSearchSpec(inp, orders).Ok?
    ensures var c := GridSearchSpec(inp, orders).value;
            var ts := Triples(orders, inp.nL, inp.nD);
            && k < |ts| && Evaluate(inp, ts[k]) == Ok(c)
            && inp.bounds.L_min_m <= c.spec.L_m <= inp.bounds.L_max_m
            && inp.bounds.d_min_m <= c.spec.d_m <= inp.bounds.d_max_m
            && c.spec.order >= 1 && c.spec.order in orders && c.score >= 0.0
            && (forall l :: 0 <= l < |ts| ==> c.score <= Evaluate(inp, ts[l]).value.score)
            && (forall l :: 0 <= l < k ==> c.score < Evaluate(inp, ts[l]).value.score)
  {
    var ts := Triples(orders, inp.nL, inp.nD);
    var k' := BestFromArgmin(inp, None, ts);
    k := k';
    var t := ts[k];
    GridPointBounds(inp.bounds.L_min_m, inp.bounds.L_max_m, inp.nL, t.1);
    GridPointBounds(inp.bounds.d_min_m, inp.bounds.d_max_m, inp.nD, t.2);
  }

  /** The diameters of one length: one row of the grid. */
  method ScanRow(inp: SearchInput, order: int, i: nat, acc: Option<Candidate>) returns (r: Result<Option<Candidate>>)
    ensures r == BestFrom(inp, acc, Row(order, i, inp.nD))
  {
    var row := Row(order, i, inp.nD);
    var best := acc;
    var j := 0;
    while j < Count(inp.nD)
      invariant 0 <= j <= Count(inp.nD)
      invariant BestFrom(inp, best, row[j..]) == BestFrom(inp, acc, row)
    {
      var cand := Evaluate(inp, (order, i, j));
      assert row[j..][0] == (order, i, j) && row[j..][1..] == row[j + 1..];
      if cand.Err? {
        return Err(cand.msg);
      }
      var next := Pick(best, cand.value);
      best := Some(next);
      j := j + 1;
    }
    assert row[j..] == [];
    r := Ok(best);
  }

  /** The lengths of one harmonic order, each with all its diameters. */
  method ScanOrder(inp: SearchInput, order: int, acc: Option<Candidate>) returns (r: Result<Option<Candidate>>)
    ensures r == BestFrom(inp, acc, RowsFrom(order, 0, inp.nL, inp.nD))
  {
    var best := acc;
    var i := 0;
    while i < Count(inp.nL)
      invariant 0 <= i <= Count(inp.nL)
      invariant BestFrom(inp, best, RowsFrom(order, i, inp.nL, inp.nD)) == BestFrom(inp, acc, RowsFrom(order, 0, inp.nL, inp.nD))
      decreases Count(inp.nL) - i
    {
      BestFromAppend(inp, best, Row(order, i, inp.nD), RowsFrom(order, i + 1, inp.nL, inp.nD));
      var res := ScanRow(inp, order, i, best);
      if res.Err? {
        return Err(res.msg);
      }
      best := res.value;
      i := i + 1;
    }
    r := Ok(best);
  }

  /** The triples from order oi on: that order's rows, then the rest. */
  lemma TriplesUnfold(orders: seq<int>, oi: nat, nL: int, nD: int)
    requires oi < |orders|
    ensures orders[oi] >= 1 ==> Triples(orders[oi..], nL, nD) == RowsFrom(orders[oi], 0, nL, nD) + Triples(orders[oi + 1..], nL, nD)
    ensures orders[oi] < 1 ==> Triples(orders[oi..], nL, nD) == Triples(orders[oi + 1..], nL, nD)
  {
    assert orders[oi..][0] == orders[oi] && orders[oi..][1..] == orders[oi + 1..];
    assert [] + Triples(orders[oi + 1..], nL, nD) == Triples(orders[oi + 1..], nL, nD);
  }

  /** Scanning one order's rows either fails the whole scan or hands its best on to the rest. */
  lemma OrderStep(inp: SearchInput, orders: seq<int>, oi: nat, best: Option<Candidate>, res: Result<Option<Candidate>>)
    requires oi < |orders| && orders[oi] >= 1
    requires res == BestFrom(inp, best, RowsFrom(orders[oi], 0, inp.nL, inp.nD))
    ensures res.Err? ==> BestFrom(inp, best, Triples(orders[oi..], inp.nL, inp.nD)) == Err(res.msg)
    ensures res.Ok? ==> BestFrom(inp, best, Triples(orders[oi..], inp.nL, inp.nD))
                        == BestFrom(inp, res.value, Triples(orders[oi + 1..], inp.nL, inp.nD))
  {
    TriplesUnfold(orders, oi, inp.nL, inp.nD);
    BestFromAppend(inp, best, RowsFrom(orders[oi], 0, inp.nL, inp.nD), Triples(orders[oi + 1..], inp.nL, inp.nD));
  }

  /** grid_search_runner: harmonic orders outermost, then lengths, then diameters; a strictly lower score replaces the best. */
  method GridSearchRunner(inp: SearchInput, orders: seq<int>) returns (r: Result<Candidate>)
    ensures r == GridSearchSpec(inp, orders)
  {
    var b := inp.bounds;
    if inp.a <= 0.0 || inp.targetRpm <= 0.0 || inp.qPeak <= 0.0 || inp.vTarget <= 0.0 ||
       b.L_min_m <= 0.0 || b.d_min_m <= 0.0 {
      return Err("inputs must be > 0");
    }
    if !(b.L_min_m < b.L_max_m && b.d_min_m < b.d_max_m) {
      return Err("invalid bounds");
    }
    var scan := ScanOrders(inp, orders);
    if scan.Err? {
      return Err(scan.msg);
    }
    var best := scan.value;
    if best.None? {
      return Err("no candidate");
    }
    r := Ok(best.value);
  }

  /** The loops of grid_search_runner: every order of at least 1, its lengths and its diameters. */
  method ScanOrders(inp: SearchInput, orders: seq<int>) returns (r: Result<Option<Candidate>>)
    ensures r == BestFrom(inp, None, Triples(orders, inp.nL, inp.nD))
  {
    var best: Option<Candidate> := None;
    var oi := 0;
    while oi < |orders|
      invariant 0 <= oi <= |orders|
      invariant BestFrom(inp, best, Triples(orders[oi..], inp.nL, inp.nD)) == BestFrom(inp, None, Triples(orders, inp.nL, inp.nD))
    {
      var order := orders[oi];
      TriplesUnfold(orders, oi, inp.nL, inp.nD);
      if order >= 1 {
        var res := ScanOrder(inp, order, best);
        OrderStep(inp, orders, oi, best, res);
        if res.Err? {
          return Err(res.msg);
        }
        best := res.value;
      }
      oi := oi + 1;
    }
    assert orders[oi..] == [];
    r := Ok(best);
  }
}
