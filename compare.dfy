/**
 * Before/after comparison of two computed series: lift alignment, the
 * percentage change of one column and the flattening of several series into
 * one overlay table.
 */
module Compare {
  import opened Wrappers
  import opened Wire
  import opened ComputePoint
  import opened Alignment

  /** `align_by_lift` of compare.py: branches on the sign of the lift difference. */
  method AlignByLift(a: seq<PointMetrics>, b: seq<PointMetrics>, tol: real) returns (out: seq<(PointMetrics, PointMetrics)>)
    ensures out == Aligned(a, b, tol)
  {
    out := [];
    var i, j := 0, 0;
    while i < |a| && j < |b|
      invariant 0 <= i <= |a| && 0 <= j <= |b|
      invariant out + MapPairs(a, b, AlignIdx(Lifts(a), Lifts(b), tol, i, j)) == Aligned(a, b, tol)
      decreases |a| - i + |b| - j
    {
      var d := a[i].lift_m - b[j].lift_m;
      if Abs(d) <= tol {
        MapPairsCons(a, b, (i, j), AlignIdx(Lifts(a), Lifts(b), tol, i + 1, j + 1));
        out := out + [(a[i], b[j])];
        i, j := i + 1, j + 1;
      } else if d < 0.0 {
        i := i + 1;
      } else {
        j := j + 1;
      }
    }
  }

  /** The value of a row's column as the dictionary holds it; a missing SR is a missing key. */
  function FieldJson(p: PointMetrics, key: string): (r: Result<Json>)
    ensures key == "lift_m" ==> r == Ok(JNum(p.lift_m))
    ensures key == "q_m3s_ref" ==> r == Ok(JNum(p.q_m3s_ref))
    ensures key == "A_ref_key" ==> r == Ok(JStr(p.A_ref_key))
    ensures key == "SR" ==> (r.Ok? <==> p.SR.Some?)
    ensures key == "series_idx" ==> r.Err?
  {
    match key
    case "lift_m" => Ok(JNum(p.lift_m))
    case "q_m3s_ref" => Ok(JNum(p.q_m3s_ref))
    case "dp_Pa_ref" => Ok(JNum(p.dp_Pa_ref))
    case "A_curtain" => Ok(JNum(p.A_curtain))
    case "A_throat" => Ok(JNum(p.A_throat))
    case "throat_used_m" => Ok(JNum(p.throat_used_m))
    case "A_eff" => Ok(JNum(p.A_eff))
    case "A_ref_key" => Ok(JStr(p.A_ref_key))
    case "L_over_D" => Ok(JNum(p.L_over_D))
    case "Cd_ref" => Ok(JNum(p.Cd_ref))
    case "V_ref" => Ok(JNum(p.V_ref))
    case "Mach_ref" => Ok(JNum(p.Mach_ref))
    case "SR" => if p.SR.Some? then Ok(JNum(p.SR.value)) else Err("KeyError: SR")
    case _ => Err("KeyError: " + key)
  }

  /** `float(row[key])`: a missing key and the text column both fail. */
  function FieldAt(p: PointMetrics, key: string): (r: Result<real>)
    ensures r.Ok? <==> FieldJson(p, key).Ok? && FieldJson(p, key).value.JNum?
    ensures r.Ok? ==> FieldJson(p, key) == Ok(JNum(r.value))
  {
    var j :- FieldJson(p, key);
    if j.JNum? then Ok(j.r) else Err("could not convert to float: " + key)
  }

  /** The columns whose "after" value is derived from the flow ratio rather than read. */
  predicate Derived(key: string)
  {
    key == "Cd_ref" || key == "V_ref" || key == "Mach_ref"
  }

  datatype DiffRow = DiffRow(lift_m: real, before: real, after: real, delta_pct: real)

  /** The q_after / q_before ratio, 0 when the before flow is 0. */
  function FlowRatio(before: PointMetrics, after: PointMetrics): real
  {
    if before.q_m3s_ref != 0.0 then after.q_m3s_ref / before.q_m3s_ref else 0.0
  }

  /** The row of one aligned pair: None when the before value is not positive. */
  function DiffOf(pr: (PointMetrics, PointMetrics), key: string): (r: Result<Option<DiffRow>>)
    ensures FieldAt(pr.0, key).Err? ==> r.Err?
    ensures FieldAt(pr.0, key).Ok? && FieldAt(pr.0, key).value <= 0.0 ==> r == Ok(None)
    ensures r.Ok? && r.value.Some? ==>
      var d := r.value.value;
      FieldAt(pr.0, key) == Ok(d.before) && d.before > 0.0 && d.lift_m == pr.0.lift_m &&
      d.delta_pct * d.before == 100.0 * (d.after - d.before) &&
      (Derived(key) ==> d.after == d.before * FlowRatio(pr.0, pr.1)) &&
      (!Derived(key) ==> FieldAt(pr.1, key) == Ok(d.after))
    ensures FieldAt(pr.0, key).Ok? && FieldAt(pr.0, key).value > 0.0 ==>
      (r.Ok? <==> Derived(key) || FieldAt(pr.1, key).Ok?) && (r.Ok? ==> r.value.Some?)
  {
    var beforeV :- FieldAt(pr.0, key);
    if beforeV <= 0.0 then Ok(None)
    else
      var afterV :- if Derived(key) then Ok(beforeV * FlowRatio(pr.0, pr.1)) else FieldAt(pr.1, key);
      Ok(Some(DiffRow(pr.0.lift_m, beforeV, afterV, 100.0 * (afterV - beforeV) / beforeV)))
  }

  /** The rows of diff_percent for a list of pairs, built front to back. */
  function DiffRows(aligned: seq<(PointMetrics, PointMetrics)>, key: string): (r: Result<seq<DiffRow>>)
    ensures r.Ok? <==> forall i :: 0 <= i < |aligned| ==> DiffOf(aligned[i], key).Ok?
    ensures r.Ok? ==> |r.value| <= |aligned|
    ensures r.Ok? ==> forall k :: 0 <= k < |r.value| ==> r.value[k].before > 0.0
    decreases |aligned|
  {
    if aligned == [] then Ok([])
    else
      var init :- DiffRows(aligned[..|aligned| - 1], key);
      var last :- DiffOf(aligned[|aligned| - 1], key);
      if last.None? then Ok(init) else Ok(init + [last.value])
  }

  /** When no pair is skipped, row i is the row of pair i. */
  lemma {:induction false} DiffRowsNoneSkipped(aligned: seq<(PointMetrics, PointMetrics)>, key: string)
    requires forall i :: 0 <= i < |aligned| ==> DiffOf(aligned[i], key).Ok? && DiffOf(aligned[i], key).value.Some?
    ensures DiffRows(aligned, key).Ok? && |DiffRows(aligned, key).value| == |aligned|
    ensures forall i :: 0 <= i < |aligned| ==> Some(DiffRows(aligned, key).value[i]) == DiffOf(aligned[i], key).value
    decreases |aligned|
  {
    if aligned != [] {
      var front := aligned[..|aligned| - 1];
      DiffRowsNoneSkipped(front, key);
    }
  }

  lemma {:induction false} DiffRowsErrSticks(aligned: seq<(PointMetrics, PointMetrics)>, n: nat, key: string)
    requires n <= |aligned| && DiffRows(aligned[..n], key).Err?
    ensures DiffRows(aligned, key) == DiffRows(aligned[..n], key)
    decreases |aligned|
  {
    if n < |aligned| {
      var front := aligned[..|aligned| - 1];
      assert front[..n] == aligned[..n];
      DiffRowsErrSticks(front, n, key);
    } else {
      assert aligned[..n] == aligned;
    }
  }

  /** The body of the diff_percent loop for one pair. */
  method DiffStep(pr: (PointMetrics, PointMetrics), key: string) returns (r: Result<Option<DiffRow>>)
    ensures r == DiffOf(pr, key)
  {
    var beforeRow, afterRow := pr.0, pr.1;
    var bv := FieldAt(beforeRow, key);
    if bv.Err? {
      return Err(bv.msg);
    }
    var beforeV := bv.value;
    if beforeV <= 0.0 {
      assert DiffOf(pr, key) == Ok(None);
      return Ok(None);
    }
    var afterV: real;
    if Derived(key) {
      var qBefore := beforeRow.q_m3s_ref;
      var qAfter := afterRow.q_m3s_ref;
      var ratio := if qBefore != 0.0 then qAfter / qBefore else 0.0;
      assert ratio == FlowRatio(pr.0, pr.1);
      afterV := beforeV * ratio;
    } else {
      var av := FieldAt(afterRow, key);
      if av.Err? {
        assert DiffOf(pr, key) == Err(av.msg);
        return Err(av.msg);
      }
      afterV := av.value;
    }
    var deltaPct := 100.0 * (afterV - beforeV) / beforeV;
    r := Ok(Some(DiffRow(beforeRow.lift_m, beforeV, afterV, deltaPct)));
    assert DiffOf(pr, key).value.value.after == afterV;
    assert DiffOf(pr, key).value.value.delta_pct == deltaPct;
  }

  /** diff_percent over the aligned pairs. */
  method DiffPercent(aligned: seq<(PointMetrics, PointMetrics)>, key: string) returns (r: Result<seq<DiffRow>>)
    ensures r == DiffRows(aligned, key)
  {
    var out: seq<DiffRow> := [];
    var i := 0;
    while i < |aligned|
      invariant 0 <= i <= |aligned|
      invariant DiffRows(aligned[..i], key) == Ok(out)
    {
      assert aligned[..i + 1][..i] == aligned[..i];
      var row := DiffStep(aligned[i], key);
      if row.Err? {
        DiffRowsErrSticks(aligned, i + 1, key);
        return Err(row.msg);
      }
      if row.value.Some? {
        out := out + [row.value.value];
      }
      i := i + 1;
    }
    assert aligned[..i] == aligned;
    r := Ok(out);
  }

  /**
   * A flow scaled uniformly by 1.10 shows as +10 % both in q_m3s_ref and, through
   * the flow ratio, in Cd_ref, whatever the after row's own Cd.
   */
  lemma TenPercentFlowGain(before: PointMetrics, after: PointMetrics)
    requires before.q_m3s_ref > 0.0 && before.Cd_ref > 0.0
    requires after.q_m3s_ref == 1.10 * before.q_m3s_ref
    ensures DiffOf((before, after), "q_m3s_ref").Ok? && DiffOf((before, after), "q_m3s_ref").value.Some?
    ensures DiffOf((before, after), "q_m3s_ref").value.value.delta_pct == 10.0
    ensures DiffOf((before, after), "Cd_ref").Ok? && DiffOf((before, after), "Cd_ref").value.Some?
    ensures DiffOf((before, after), "Cd_ref").value.value.delta_pct == 10.0
  {
    ScaledRatio(1.10, before.q_m3s_ref);
    assert FlowRatio(before, after) == 1.10;
    var dq := DiffOf((before, after), "q_m3s_ref").value.value;
    assert dq.before == before.q_m3s_ref && dq.after == after.q_m3s_ref;
    TenPercentOf(dq);
    var dc := DiffOf((before, after), "Cd_ref").value.value;
    assert dc.after == dc.before * 1.10;
    TenPercentOf(dc);
  }

  lemma TenPercentOf(d: DiffRow)
    requires d.before > 0.0 && d.after == 1.10 * d.before
    requires d.delta_pct * d.before == 100.0 * (d.after - d.before)
    ensures d.delta_pct == 10.0
  {
    assert d.delta_pct * d.before == 10.0 * d.before;
  }

  lemma ScaledRatio(c: real, x: real)
    requires x != 0.0
    ensures (c * x) / x == c
  {
  }

  /** The overlay item of one row: series index, lift and the requested columns, in key order. */
  function OverlayItem(idx: nat, p: PointMetrics, keys: seq<string>): (r: Result<map<string, Json>>)
    decreases |keys|
  {
    if keys == [] then Ok(map["series_idx" := JInt(idx), "lift_m" := JNum(p.lift_m)])
    else
      var item :- OverlayItem(idx, p, keys[..|keys| - 1]);
      var v :- FieldJson(p, keys[|keys| - 1]);
      Ok(item[keys[|keys| - 1] := v])
  }

  /** Every requested column of the row exists. */
  predicate KeysOk(p: PointMetrics, keys: seq<string>)
  {
    forall i :: 0 <= i < |keys| ==> FieldJson(p, keys[i]).Ok?
  }

  lemma KeysOkSplit(p: PointMetrics, keys: seq<string>)
    requires keys != []
    ensures KeysOk(p, keys) <==> KeysOk(p, keys[..|keys| - 1]) && FieldJson(p, keys[|keys| - 1]).Ok?
  {
    var front := keys[..|keys| - 1];
    assert forall i :: 0 <= i < |front| ==> front[i] == keys[i];
  }

  /** An item can be built exactly when every requested column exists. */
  lemma {:induction false} OverlayItemOk(idx: nat, p: PointMetrics, keys: seq<string>)
    ensures OverlayItem(idx, p, keys).Ok? <==> KeysOk(p, keys)
    decreases |keys|
  {
    if keys != [] {
      OverlayItemOk(idx, p, keys[..|keys| - 1]);
      KeysOkSplit(p, keys);
    }
  }

  /** A non-empty key list extends the item of its front by the last column. */
  lemma OverlayItemLast(idx: nat, p: PointMetrics, keys: seq<string>)
    requires keys != [] && OverlayItem(idx, p, keys).Ok?
    ensures OverlayItem(idx, p, keys[..|keys| - 1]).Ok? && FieldJson(p, keys[|keys| - 1]).Ok?
    ensures OverlayItem(idx, p, keys).value
      == OverlayItem(idx, p, keys[..|keys| - 1]).value[keys[|keys| - 1] := FieldJson(p, keys[|keys| - 1]).value]
  {
  }

  /**
   * An item holds exactly series_idx, lift_m and the requested keys, and
   * series_idx is the series index.
   */
  lemma {:induction false} OverlayItemKeys(idx: nat, p: PointMetrics, keys: seq<string>)
    requires OverlayItem(idx, p, keys).Ok?
    ensures OverlayItem(idx, p, keys).value.Keys == {"series_idx", "lift_m"} + set x | x in keys
    ensures OverlayItem(idx, p, keys).value["series_idx"] == JInt(idx)
    ensures OverlayItem(idx, p, keys).value["lift_m"] == JNum(p.lift_m)
    decreases |keys|
  {
    if keys != [] {
      var front, last := keys[..|keys| - 1], keys[|keys| - 1];
      OverlayItemLast(idx, p, keys);
      OverlayItemKeys(idx, p, front);
      assert last != "series_idx";
      assert keys == front + [last];
      KeySetSnoc(keys, front, last);
    }
  }

  lemma KeySetSnoc(keys: seq<string>, front: seq<string>, last: string)
    requires keys == front + [last]
    ensures (set x | x in keys) == (set x | x in front) + {last}
  {
  }

  /** Every requested key of an item holds the row's value for it. */
  lemma {:induction false} OverlayItemValues(idx: nat, p: PointMetrics, keys: seq<string>)
    requires OverlayItem(idx, p, keys).Ok?
    ensures forall i :: 0 <= i < |keys| ==> keys[i] in OverlayItem(idx, p, keys).value
    ensures forall i :: 0 <= i < |keys| ==> FieldJson(p, keys[i]) == Ok(OverlayItem(idx, p, keys).value[keys[i]])
    decreases |keys|
  {
    if keys != [] {
      var front, last := keys[..|keys| - 1], keys[|keys| - 1];
      OverlayItemLast(idx, p, keys);
      OverlayItemValues(idx, p, front);
      var item := OverlayItem(idx, p, keys).value;
      forall i | 0 <= i < |keys|
        ensures keys[i] in item && FieldJson(p, keys[i]) == Ok(item[keys[i]])
      {
        if keys[i] != last {
          assert front[i] == keys[i];
        }
      }
    }
  }

  /** The overlay items of one series, in row order. */
  function OverlaySeries(idx: nat, rows: seq<PointMetrics>, keys: seq<string>): (r: Result<seq<map<string, Json>>>)
    ensures r.Ok? ==> |r.value| == |rows|
    decreases |rows|
  {
    if rows == [] then Ok([])
    else
      var init :- OverlaySeries(idx, rows[..|rows| - 1], keys);
      var item :- OverlayItem(idx, rows[|rows| - 1], keys);
      Ok(init + [item])
  }

  /** Every row's item can be built. */
  predicate ItemsOk(idx: nat, rows: seq<PointMetrics>, keys: seq<string>)
  {
    forall i :: 0 <= i < |rows| ==> OverlayItem(idx, rows[i], keys).Ok?
  }

  lemma ItemsOkSplit(idx: nat, rows: seq<PointMetrics>, keys: seq<string>)
    requires rows != []
    ensures ItemsOk(idx, rows, keys) <==> ItemsOk(idx, rows[..|rows| - 1], keys) && OverlayItem(idx, rows[|rows| - 1], keys).Ok?
  {
    var front := rows[..|rows| - 1];
    assert forall i :: 0 <= i < |front| ==> front[i] == rows[i];
  }

  /** A series can be built exactly when every row's item can. */
  lemma {:induction false} OverlaySeriesOk(idx: nat, rows: seq<PointMetrics>, keys: seq<string>)
    ensures OverlaySeries(idx, rows, keys).Ok? <==> ItemsOk(idx, rows, keys)
    decreases |rows|
  {
    if rows != [] {
      OverlaySeriesOk(idx, rows[..|rows| - 1], keys);
      ItemsOkSplit(idx, rows, keys);
    }
  }

  /** The items of a series are its rows' items, in row order. */
  lemma {:induction false} OverlaySeriesItems(idx: nat, rows: seq<PointMetrics>, keys: seq<string>)
    requires OverlaySeries(idx, rows, keys).Ok?
    ensures forall i :: 0 <= i < |rows| ==> OverlayItem(idx, rows[i], keys) == Ok(OverlaySeries(idx, rows, keys).value[i])
    decreases |rows|
  {
    if rows != [] {
      var front := rows[..|rows| - 1];
      OverlaySeriesItems(idx, front, keys);
      var init := OverlaySeries(idx, front, keys).value;
      var out := OverlaySeries(idx, rows, keys).value;
      assert out == init + [OverlayItem(idx, rows[|rows| - 1], keys).value];
      forall i | 0 <= i < |rows| ensures OverlayItem(idx, rows[i], keys) == Ok(out[i]) {
        if i < |front| {
          assert front[i] == rows[i] && out[i] == init[i];
        }
      }
    }
  }

  /** The total number of rows of a list of series. */
  function TotalRows(ss: seq<seq<PointMetrics>>): nat
  {
    if ss == [] then 0 else TotalRows(ss[..|ss| - 1]) + |ss[|ss| - 1]|
  }

  /** The overlay of a list of series: the series' items one after the other. */
  function OverlayAll(ss: seq<seq<PointMetrics>>, keys: seq<string>): (r: Result<seq<map<string, Json>>>)
    ensures r.Ok? ==> |r.value| == TotalRows(ss)
    decreases |ss|
  {
    if ss == [] then Ok([])
    else
      var init :- OverlayAll(ss[..|ss| - 1], keys);
      var part :- OverlaySeries(|ss| - 1, ss[|ss| - 1], keys);
      Ok(init + part)
  }

  /** Every series' items can be built. */
  predicate SeriesOk(ss: seq<seq<PointMetrics>>, keys: seq<string>)
  {
    forall i :: 0 <= i < |ss| ==> OverlaySeries(i, ss[i], keys).Ok?
  }

  lemma SeriesOkSplit(ss: seq<seq<PointMetrics>>, keys: seq<string>)
    requires ss != []
    ensures SeriesOk(ss, keys) <==> SeriesOk(ss[..|ss| - 1], keys) && OverlaySeries(|ss| - 1, ss[|ss| - 1], keys).Ok?
  {
    var front := ss[..|ss| - 1];
    assert forall i :: 0 <= i < |front| ==> front[i] == ss[i];
  }

  /** The overlay succeeds exactly when every series' items can be built. */
  lemma {:induction false} OverlayAllOk(ss: seq<seq<PointMetrics>>, keys: seq<string>)
    ensures OverlayAll(ss, keys).Ok? <==> SeriesOk(ss, keys)
    decreases |ss|
  {
    if ss != [] {
      OverlayAllOk(ss[..|ss| - 1], keys);
      SeriesOkSplit(ss, keys);
    }
  }

  /** One more series appends its items. */
  lemma OverlayAllStep(ss: seq<seq<PointMetrics>>, idx: nat, keys: seq<string>, out: seq<map<string, Json>>, part: seq<map<string, Json>>)
    requires idx < |ss| && OverlayAll(ss[..idx], keys) == Ok(out) && OverlaySeries(idx, ss[idx], keys) == Ok(part)
    ensures OverlayAll(ss[..idx + 1], keys) == Ok(out + part)
  {
    var t := ss[..idx + 1];
    assert t[..|t| - 1] == ss[..idx];
    assert t[|t| - 1] == ss[idx];
  }

  /** One more row appends its item. */
  lemma OverlaySeriesStep(idx: nat, rows: seq<PointMetrics>, j: nat, keys: seq<string>, part: seq<map<string, Json>>, item: map<string, Json>)
    requires j < |rows| && OverlaySeries(idx, rows[..j], keys) == Ok(part) && OverlayItem(idx, rows[j], keys) == Ok(item)
    ensures OverlaySeries(idx, rows[..j + 1], keys) == Ok(part + [item])
  {
    var t := rows[..j + 1];
    assert t[..|t| - 1] == rows[..j];
    assert t[|t| - 1] == rows[j];
  }

  /** The items of series k sit, in row order, after the rows of the series before it. */
  lemma {:induction false} OverlayPlacement(ss: seq<seq<PointMetrics>>, keys: seq<string>, k: nat, i: nat)
    requires OverlayAll(ss, keys).Ok? && k < |ss| && i < |ss[k]|
    ensures TotalRows(ss[..k]) + i < TotalRows(ss)
    ensures OverlayItem(k, ss[k][i], keys) == Ok(OverlayAll(ss, keys).value[TotalRows(ss[..k]) + i])
    decreases |ss|
  {
    var front := ss[..|ss| - 1];
    var init := OverlayAll(front, keys).value;
    var part := OverlaySeries(|ss| - 1, ss[|ss| - 1], keys).value;
    assert OverlayAll(ss, keys).value == init + part;
    if k == |ss| - 1 {
      OverlaySeriesItems(k, ss[k], keys);
      assert ss[..k] == front;
    } else {
      assert front[..k] == ss[..k];
      OverlayPlacement(front, keys, k, i);
      assert front[k] == ss[k];
    }
  }

  lemma {:induction false} OverlayErrSticks(ss: seq<seq<PointMetrics>>, n: nat, keys: seq<string>)
    requires n <= |ss| && OverlayAll(ss[..n], keys).Err?
    ensures OverlayAll(ss, keys) == OverlayAll(ss[..n], keys)
    decreases |ss|
  {
    if n < |ss| {
      var front := ss[..|ss| - 1];
      assert front[..n] == ss[..n];
      OverlayErrSticks(front, n, keys);
    } else {
      assert ss[..n] == ss;
    }
  }

  lemma {:induction false} SeriesErrSticks(idx: nat, rows: seq<PointMetrics>, n: nat, keys: seq<string>)
    requires n <= |rows| && OverlaySeries(idx, rows[..n], keys).Err?
    ensures OverlaySeries(idx, rows, keys) == OverlaySeries(idx, rows[..n], keys)
    decreases |rows|
  {
    if n < |rows| {
      var front := rows[..|rows| - 1];
      assert front[..n] == rows[..n];
      SeriesErrSticks(idx, front, n, keys);
    } else {
      assert rows[..n] == rows;
    }
  }

  lemma {:induction false} ItemErrSticks(idx: nat, p: PointMetrics, keys: seq<string>, n: nat)
    requires n <= |keys| && OverlayItem(idx, p, keys[..n]).Err?
    ensures OverlayItem(idx, p, keys) == OverlayItem(idx, p, keys[..n])
    decreases |keys|
  {
    if n < |keys| {
      var front := keys[..|keys| - 1];
      assert front[..n] == keys[..n];
      ItemErrSticks(idx, p, front, n);
    } else {
      assert keys[..n] == keys;
    }
  }

  /** The item loop of overlay for one row. */
  method BuildItem(idx: nat, p: PointMetrics, keys: seq<string>) returns (r: Result<map<string, Json>>)
    ensures r == OverlayItem(idx, p, keys)
  {
    var item := map["series_idx" := JInt(idx), "lift_m" := JNum(p.lift_m)];
    var i := 0;
    while i < |keys|
      invariant 0 <= i <= |keys|
      invariant OverlayItem(idx, p, keys[..i]) == Ok(item)
    {
      assert keys[..i + 1][..i] == keys[..i];
      var v := FieldJson(p, keys[i]);
      if v.Err? {
        ItemErrSticks(idx, p, keys, i + 1);
        return Err(v.msg);
      }
      item := item[keys[i] := v.value];
      i := i + 1;
    }
    assert keys[..i] == keys;
    r := Ok(item);
  }

  /** A failing item fails the whole overlay with its message. */
  lemma OverlayItemFails(ss: seq<seq<PointMetrics>>, idx: nat, j: nat, keys: seq<string>, out: seq<map<string, Json>>, part: seq<map<string, Json>>)
    requires idx < |ss| && j < |ss[idx]|
    requires OverlayAll(ss[..idx], keys) == Ok(out) && OverlaySeries(idx, ss[idx][..j], keys) == Ok(part)
    requires OverlayItem(idx, ss[idx][j], keys).Err?
    ensures OverlayAll(ss, keys) == Err(OverlayItem(idx, ss[idx][j], keys).msg)
  {
    var rows := ss[idx];
    assert rows[..j + 1][..j] == rows[..j];
    SeriesErrSticks(idx, rows, j + 1, keys);
    assert ss[..idx + 1][..idx] == ss[..idx];
    OverlayErrSticks(ss, idx + 1, keys);
  }

  /** overlay: every row of every series, in order, tagged with its series index. */
  method Overlay(ss: seq<seq<PointMetrics>>, keys: seq<string>) returns (r: Result<seq<map<string, Json>>>)
    ensures r == OverlayAll(ss, keys)
  {
    var out: seq<map<string, Json>> := [];
    var idx := 0;
    while idx < |ss|
      invariant 0 <= idx <= |ss|
      invariant OverlayAll(ss[..idx], keys) == Ok(out)
    {
      var rows := ss[idx];
      var part: seq<map<string, Json>> := [];
      var j := 0;
      while j < |rows|
        invariant 0 <= j <= |rows|
        invariant OverlaySeries(idx, rows[..j], keys) == Ok(part)
      {
        var item := BuildItem(idx, rows[j], keys);
        if item.Err? {
          OverlayItemFails(ss, idx, j, keys, out, part);
          return Err(item.msg);
        }
        OverlaySeriesStep(idx, rows, j, keys, part, item.value);
        part := part + [item.value];
        j := j + 1;
      }
      assert rows[..j] == rows;
      OverlayAllStep(ss, idx, keys, out, part);
      out := out + part;
      idx := idx + 1;
    }
    assert ss[..idx] == ss;
    r := Ok(out);
  }
}
