/** The signal predicates and the sector classifier of the `app/` pipeline
    (app/signals.py). Each one is a pure function of already-fetched data;
    pandas' NaN (a max or mean over an empty slice, a value that
    `pd.to_numeric(errors="coerce")` could not parse) is `None`, and a
    comparison against NaN is false. */
module Signals {
  import opened Common

  // ---------------------------------------------------------------------
  // Rule 1: box breakout / near the all-time high
  // ---------------------------------------------------------------------

  /** `breakout_signal`: today's close beats 1.01 times the highest high of
      the `n` bars before it. With `n == 0` that window is empty, its max is
      NaN and the comparison is false. */
  function BreakoutSignal(bars: seq<Bar>, n: nat): (r: bool)
    ensures |bars| < n + 1 ==> !r
    ensures r <==> (n > 0 && |bars| >= n + 1 &&
      forall k :: |bars| - n - 1 <= k < |bars| - 1 ==> bars[|bars| - 1].close > bars[k].high * 1.01)
  {
    if |bars| < n + 1 then false
    else if n == 0 then false
    else
      var window := bars[|bars| - (n + 1)..];
      var highs := Highs(window[..n]);
      var lastClose := window[n].close;
      var highest := MaxOf(highs);
      BeatsBoundIffBeatsAll(highs, lastClose, 1.01, highest);
      assert forall k :: |bars| - n - 1 <= k < |bars| - 1 ==> bars[k].high == highs[k - (|bars| - n - 1)];
      lastClose > highest * 1.01
  }

  /** Today's close beats 1.01 times every high of the `n` bars before it. */
  ghost predicate ClosesAboveWindow(bars: seq<Bar>, n: nat)
    requires |bars| >= n + 1
  {
    forall k :: |bars| - n - 1 <= k < |bars| - 1 ==> bars[|bars| - 1].close > bars[k].high * 1.01
  }

  /** Only the last `n + 1` bars decide a breakout. */
  lemma {:induction false} BreakoutIgnoresOlderBars(older: seq<Bar>, bars: seq<Bar>, n: nat)
    requires |bars| >= n + 1
    ensures BreakoutSignal(older + bars, n) == BreakoutSignal(bars, n)
  {
    var all := older + bars;
    var d := |older|;
    assert forall k :: 0 <= k < |bars| ==> all[k + d] == bars[k];
    assert ClosesAboveWindow(all, n) <==> ClosesAboveWindow(bars, n) by {
      if ClosesAboveWindow(bars, n) {
        forall k | |all| - n - 1 <= k < |all| - 1
          ensures all[|all| - 1].close > all[k].high * 1.01
        {
          assert all[k] == bars[k - d];
        }
      }
    }
  }

  /** `near_all_time_high`: today's close is at least `tolerance` times the
      highest high of the whole history. An empty history raises in the
      source (`iloc[-1]`); that is `None` here. */
  function NearAllTimeHigh(bars: seq<Bar>, tolerance: real): (r: Option<bool>)
    ensures r.None? <==> bars == []
    ensures r.Some? && tolerance >= 0.0 ==>
      (r.value <==> forall k :: 0 <= k < |bars| ==> bars[|bars| - 1].close >= bars[k].high * tolerance)
  {
    if bars == [] then None
    else
      var highs := Highs(bars);
      var lastClose := bars[|bars| - 1].close;
      var highest := MaxOf(highs);
      if tolerance >= 0.0 then
        ReachesBoundIffReachesAll(highs, lastClose, tolerance, highest);
        Some(lastClose >= highest * tolerance)
      else Some(lastClose >= highest * tolerance)
  }

  // ---------------------------------------------------------------------
  // Rule 2: volume spike
  // ---------------------------------------------------------------------

  /** `rolling(w).mean()` at row `i`: the mean of the `w` volumes ending at
      and including row `i`. */
  function RollingMean(vols: seq<real>, i: int, w: nat): real
    requires w > 0 && w - 1 <= i < |vols|
  {
    Mean(vols[i - w + 1..i + 1])
  }

  /** `volume_signal`: today's volume exceeds 1.5 times its own rolling mean,
      and each of the last three volumes exceeds its own rolling mean. A
      window of 0 gives a NaN mean, so no comparison holds. */
  function VolumeSignal(bars: seq<Bar>, maWindow: nat): (r: bool)
    ensures |bars| < maWindow + 3 ==> !r
    ensures r <==> maWindow > 0 && |bars| >= maWindow + 3 && VolumeConditions(bars, maWindow)
  {
    if |bars| < maWindow + 3 || maWindow == 0 then false
    else VolumeConditions(bars, maWindow)
  }

  /** Today's volume spikes, and each of the last three volumes beats its own
      rolling mean. */
  predicate VolumeConditions(bars: seq<Bar>, w: nat)
    requires w > 0 && |bars| >= w + 3
  {
    var vols := Volumes(bars);
    var n := |bars|;
    vols[n - 1] > RollingMean(vols, n - 1, w) * 1.5 &&
    vols[n - 3] > RollingMean(vols, n - 3, w) &&
    vols[n - 2] > RollingMean(vols, n - 2, w) &&
    vols[n - 1] > RollingMean(vols, n - 1, w)
  }

  /** The volume signal needs three consecutive qualifying days ending today:
      one failing day among the last three rules it out, however many
      qualifying days came before. */
  lemma ThreeConsecutiveDaysNeeded(bars: seq<Bar>, maWindow: nat, j: int)
    requires maWindow > 0 && |bars| >= maWindow + 3 && |bars| - 3 <= j < |bars|
    requires bars[j].volume <= RollingMean(Volumes(bars), j, maWindow)
    ensures !VolumeSignal(bars, maWindow)
  {
  }

  /** Given at least `maWindow + 3` bars, older bars never change the
      volume signal: only the last `maWindow + 3` decide it. */
  lemma {:induction false} VolumeIgnoresOlderBars(older: seq<Bar>, bars: seq<Bar>, maWindow: nat)
    requires maWindow > 0 && |bars| >= maWindow + 3
    ensures VolumeSignal(older + bars, maWindow) == VolumeSignal(bars, maWindow)
  {
    var all := older + bars;
    var n := |bars|;
    var d := |older|;
    assert |all| == n + d;
    RollingMeanShift(older, bars, n - 3, maWindow);
    RollingMeanShift(older, bars, n - 2, maWindow);
    RollingMeanShift(older, bars, n - 1, maWindow);
    assert VolumeConditions(all, maWindow) == VolumeConditions(bars, maWindow);
  }

  lemma RollingMeanShift(older: seq<Bar>, bars: seq<Bar>, j: int, w: nat)
    requires w > 0 && w - 1 <= j < |bars|
    ensures Volumes(older + bars)[j + |older|] == Volumes(bars)[j]
    ensures RollingMean(Volumes(older + bars), j + |older|, w) == RollingMean(Volumes(bars), j, w)
  {
    var d := |older|;
    var va, vb := Volumes(older + bars), Volumes(bars);
    assert va[j + d - w + 1..j + d + 1] == vb[j - w + 1..j + 1];
  }

  /** Because the rolling mean includes today, a one-day window can never
      fire on non-negative volumes: today's volume would have to exceed 1.5
      times itself. */
  lemma OneDayWindowNeverFires(bars: seq<Bar>)
    requires forall i :: 0 <= i < |bars| ==> bars[i].volume >= 0.0
    ensures !VolumeSignal(bars, 1)
  {
    if |bars| >= 4 {
      var vols := Volumes(bars);
      var n := |bars|;
      var today := vols[n - 1..n];
      assert today == [vols[n - 1]] && today[1..] == [];
      assert Sum(today) == vols[n - 1];
      assert RollingMean(vols, n - 1, 1) == vols[n - 1];
    }
  }

  // ---------------------------------------------------------------------
  // Rule 4: main-force money flow
  // ---------------------------------------------------------------------

  /** One row of a stock's fund-flow table. */
  datatype FlowRecord = FlowRecord(date: int, mainNetIn: real, mainNetRatio: real)

  function DateKey(r: FlowRecord): real
  {
    -(r.date as real)
  }

  /** `sort_values("date")`: ascending by date (descending by the negated
      date). */
  function ByDate(rows: seq<FlowRecord>): (r: seq<FlowRecord>)
    ensures |r| == |rows| && multiset(r) == multiset(rows)
    ensures forall i, j :: 0 <= i < j < |r| ==> r[i].date <= r[j].date
  {
    var sorted := SortDescBy(rows, DateKey);
    assert forall i, j :: 0 <= i < j < |sorted| ==> DateKey(sorted[i]) >= DateKey(sorted[j]);
    sorted
  }

  /** `money_flow_signal`: the three latest rows all have positive main net
      inflow and the latest has a main net ratio above 20 (percent). A
      missing table or fewer than three rows is no signal. */
  function MoneyFlowSignal(flow: Option<seq<FlowRecord>>): (r: bool)
    ensures flow.None? ==> !r
    ensures flow.Some? && |flow.value| < 3 ==> !r
    ensures r ==> (|flow.value| >= 3 &&
      exists x :: (x in flow.value && IsLatest(x, flow.value) && x.mainNetIn > 0.0 && x.mainNetRatio > 20.0))
  {
    match flow
    case None => false
    case Some(rows) =>
      if |rows| < 3 then false
      else
        var sorted := ByDate(rows);
        var last3 := sorted[|sorted| - 3..];
        var ok := (forall k | 0 <= k < 3 :: last3[k].mainNetIn > 0.0) && last3[2].mainNetRatio > 20.0;
        if ok then
          var x := sorted[|sorted| - 1];
          assert x == last3[2];
          assert x in multiset(rows);
          assert IsLatest(x, rows) by {
            forall y | y in rows ensures y.date <= x.date {
              assert y in multiset(sorted);
              var k :| 0 <= k < |sorted| && sorted[k] == y;
              assert k == |sorted| - 1 || sorted[k].date <= x.date;
            }
          }
          ok
        else ok
  }

  /** No row of `rows` is dated after `x`. */
  ghost predicate IsLatest(x: FlowRecord, rows: seq<FlowRecord>)
  {
    forall y :: y in rows ==> y.date <= x.date
  }

  /** The signal fires when every row has positive main net inflow and
      the one latest row has a ratio above 20. */
  lemma MoneyFlowWhenAllPositive(rows: seq<FlowRecord>, x: FlowRecord)
    requires |rows| >= 3
    requires forall y :: y in rows ==> y.mainNetIn > 0.0
    requires x in rows && IsLatest(x, rows) && x.mainNetRatio > 20.0
    requires forall y :: y in rows && y.date == x.date ==> y == x
    ensures MoneyFlowSignal(Some(rows))
  {
    var sorted := ByDate(rows);
    forall k | 0 <= k < |sorted| ensures sorted[k] in rows {
      assert sorted[k] in multiset(rows);
    }
    var last := sorted[|sorted| - 1];
    assert x in multiset(sorted);
    var i :| 0 <= i < |sorted| && sorted[i] == x;
    assert x.date <= last.date;
    assert last.date <= x.date;
    assert last == x;
  }

  /** No two rows of the table share a date. */
  ghost predicate DistinctDates(rows: seq<FlowRecord>)
  {
    forall i, j :: 0 <= i < |rows| && 0 <= j < |rows| && i != j ==> rows[i].date != rows[j].date
  }

  /** `a`, `b`, `c` are rows with increasing dates, `c` is the latest and
      no other row comes after `a`: the three latest rows of the table. */
  ghost predicate LatestThreeRows(rows: seq<FlowRecord>, a: FlowRecord, b: FlowRecord, c: FlowRecord)
  {
    a in rows && b in rows && c in rows && a.date < b.date < c.date && IsLatest(c, rows) &&
    forall y :: y in rows && y.date > a.date ==> y == b || y == c
  }

  /** Positive main net inflow on all three days, a ratio above 20 on the
      last. */
  predicate InflowOnThreeDays(a: FlowRecord, b: FlowRecord, c: FlowRecord)
  {
    a.mainNetIn > 0.0 && b.mainNetIn > 0.0 && c.mainNetIn > 0.0 && c.mainNetRatio > 20.0
  }

  /** With distinct dates, the signal holds exactly when the three latest
      rows of the table all have positive main net inflow and the latest
      has a ratio above 20. */
  lemma MoneyFlowIff(rows: seq<FlowRecord>)
    requires DistinctDates(rows)
    ensures MoneyFlowSignal(Some(rows)) <==>
      |rows| >= 3 && exists a, b, c :: LatestThreeRows(rows, a, b, c) && InflowOnThreeDays(a, b, c)
  {
    if |rows| >= 3 {
      var sorted := ByDate(rows);
      var n := |sorted|;
      SortedDatesStrict(rows);
      MoneyFlowReadsLastThree(rows);
      LastThreeAreLatest(rows, sorted);
      if MoneyFlowSignal(Some(rows)) {
        assert LatestThreeRows(rows, sorted[n - 3], sorted[n - 2], sorted[n - 1]);
        assert InflowOnThreeDays(sorted[n - 3], sorted[n - 2], sorted[n - 1]);
      }
      if exists a, b, c :: LatestThreeRows(rows, a, b, c) && InflowOnThreeDays(a, b, c) {
        var a, b, c :| LatestThreeRows(rows, a, b, c) && InflowOnThreeDays(a, b, c);
        LatestThree(rows, sorted, a, b, c);
      }
    }
  }

  /** The signal reads the three last rows of the sorted table. */
  lemma MoneyFlowReadsLastThree(rows: seq<FlowRecord>)
    requires |rows| >= 3
    ensures var sorted := ByDate(rows); var n := |sorted|;
      MoneyFlowSignal(Some(rows)) <==>
        sorted[n - 3].mainNetIn > 0.0 && sorted[n - 2].mainNetIn > 0.0 &&
        sorted[n - 1].mainNetIn > 0.0 && sorted[n - 1].mainNetRatio > 20.0
  {
    var sorted := ByDate(rows);
    var n := |sorted|;
    var last3 := sorted[n - 3..];
    assert last3[0] == sorted[n - 3] && last3[1] == sorted[n - 2] && last3[2] == sorted[n - 1];
  }

  /** The last three rows of the sorted table are rows of the table with
      increasing dates, the last is the latest and no other row comes
      after the first. */
  lemma LastThreeAreLatest(rows: seq<FlowRecord>, sorted: seq<FlowRecord>)
    requires |sorted| >= 3 && multiset(sorted) == multiset(rows)
    requires forall i, j :: 0 <= i < j < |sorted| ==> sorted[i].date < sorted[j].date
    ensures var n := |sorted|; var a, b, c := sorted[n - 3], sorted[n - 2], sorted[n - 1];
      a in rows && b in rows && c in rows && a.date < b.date < c.date && IsLatest(c, rows) &&
      forall y :: y in rows && y.date > a.date ==> y == b || y == c
  {
    var n := |sorted|;
    forall k | 0 <= k < n ensures sorted[k] in rows {
      assert sorted[k] in multiset(rows);
    }
    forall y | y in rows ensures y.date <= sorted[n - 1].date && (y.date > sorted[n - 3].date ==> y == sorted[n - 2] || y == sorted[n - 1]) {
      assert y in multiset(sorted);
      var k :| 0 <= k < n && sorted[k] == y;
      if k < n - 1 {
        assert sorted[k].date < sorted[n - 1].date;
      }
      if k <= n - 3 && k != n - 3 {
        assert sorted[k].date < sorted[n - 3].date;
      }
    }
  }

  /** Three rows in increasing date order, with no other row after the
      first, are the last three of the sorted table. */
  lemma LatestThree(rows: seq<FlowRecord>, sorted: seq<FlowRecord>, a: FlowRecord, b: FlowRecord, c: FlowRecord)
    requires multiset(sorted) == multiset(rows)
    requires forall i, j :: 0 <= i < j < |sorted| ==> sorted[i].date < sorted[j].date
    requires a in rows && b in rows && c in rows && a.date < b.date < c.date
    requires forall y :: y in rows && y.date > a.date ==> y == b || y == c
    ensures |sorted| >= 3
    ensures a == sorted[|sorted| - 3] && b == sorted[|sorted| - 2] && c == sorted[|sorted| - 1]
  {
    var n := |sorted|;
    assert a in multiset(sorted) && b in multiset(sorted) && c in multiset(sorted);
    var i :| 0 <= i < n && sorted[i] == a;
    var j :| 0 <= j < n && sorted[j] == b;
    var k :| 0 <= k < n && sorted[k] == c;
    DateOrderIsIndexOrder(sorted, i, j);
    DateOrderIsIndexOrder(sorted, j, k);
    if i + 3 < n {
      AfterFirst(rows, sorted, a, b, c, i, i + 1);
      AfterFirst(rows, sorted, a, b, c, i, i + 2);
      AfterFirst(rows, sorted, a, b, c, i, i + 3);
      assert false;
    }
  }

  lemma DateOrderIsIndexOrder(sorted: seq<FlowRecord>, i: nat, j: nat)
    requires forall i, j :: 0 <= i < j < |sorted| ==> sorted[i].date < sorted[j].date
    requires i < |sorted| && j < |sorted| && sorted[i].date < sorted[j].date
    ensures i < j
  {
  }

  lemma AfterFirst(rows: seq<FlowRecord>, sorted: seq<FlowRecord>, a: FlowRecord, b: FlowRecord, c: FlowRecord, i: nat, m: nat)
    requires multiset(sorted) == multiset(rows)
    requires forall i, j :: 0 <= i < j < |sorted| ==> sorted[i].date < sorted[j].date
    requires forall y :: y in rows && y.date > a.date ==> y == b || y == c
    requires i < m < |sorted| && sorted[i] == a
    ensures sorted[m] == b || sorted[m] == c
  {
    assert sorted[m] in multiset(rows);
    assert sorted[m].date > a.date;
  }

  /** Sorting a table whose dates are distinct gives strictly increasing
      dates. */
  lemma SortedDatesStrict(rows: seq<FlowRecord>)
    requires DistinctDates(rows)
    ensures forall i, j :: 0 <= i < j < |ByDate(rows)| ==> ByDate(rows)[i].date < ByDate(rows)[j].date
  {
    var sorted := ByDate(rows);
    DistinctDatesPermuted(rows, sorted);
  }

  /** Distinct dates survive any reordering of the rows. */
  lemma DistinctDatesPermuted(s: seq<FlowRecord>, t: seq<FlowRecord>)
    requires DistinctDates(s) && multiset(s) == multiset(t)
    ensures DistinctDates(t)
  {
    DistinctDatesNoRepeats(s);
    assert Distinct(t);
    forall i, j | 0 <= i < |t| && 0 <= j < |t| && i != j ensures t[i].date != t[j].date {
      if i < j {
        DistinctIndices(t, i, j);
      } else {
        DistinctIndices(t, j, i);
      }
      assert t[i] in multiset(s) && t[j] in multiset(s);
      var p :| 0 <= p < |s| && s[p] == t[i];
      var q :| 0 <= q < |s| && s[q] == t[j];
    }
  }

  /** A table with distinct dates holds no row twice. */
  lemma {:induction false} DistinctDatesNoRepeats(s: seq<FlowRecord>)
    requires DistinctDates(s)
    ensures Distinct(s)
  {
    if s != [] {
      var tail := s[1..];
      assert s == [s[0]] + tail;
      assert DistinctDates(tail) by {
        forall i, j | 0 <= i < |tail| && 0 <= j < |tail| && i != j ensures tail[i].date != tail[j].date {
          assert tail[i] == s[i + 1] && tail[j] == s[j + 1];
        }
      }
      DistinctDatesNoRepeats(tail);
      assert s[0] !in tail by {
        forall k | 0 <= k < |tail| ensures tail[k] != s[0] {
          assert tail[k] == s[k + 1];
        }
      }
      forall x ensures multiset(s)[x] <= 1 {
        assert multiset(s)[x] == multiset{s[0]}[x] + multiset(tail)[x];
      }
    }
  }

  /** Because of the sort by date, the order in which the fund-flow rows
      arrive does not matter, provided no two rows share a date. */
  lemma MoneyFlowIgnoresRowOrder(a: seq<FlowRecord>, b: seq<FlowRecord>)
    requires multiset(a) == multiset(b)
    requires DistinctDates(a)
    ensures MoneyFlowSignal(Some(a)) == MoneyFlowSignal(Some(b))
  {
    var sa, sb := ByDate(a), ByDate(b);
    assert sa == SortDescBy(a, DateKey) && sb == SortDescBy(b, DateKey);
    SortedDatesStrict(a);
    assert KeyInjective(sa, DateKey);
    SortedUnique(sa, sb, DateKey);
    assert |a| == |multiset(a)| == |b|;
  }

  // ---------------------------------------------------------------------
  // Rule 5: relative strength against the index
  // ---------------------------------------------------------------------

  /** Return over the last `lookback + 1` closes, `close[-1] / close[-L-1] - 1`.
      `None` when the series is too short or the base close is 0 (where
      the source would produce an IEEE infinity). */
  function WindowReturn(closes: seq<real>, lookback: nat): (r: Option<real>)
    ensures r.Some? <==> |closes| >= lookback + 1 && closes[|closes| - lookback - 1] != 0.0
    ensures r.Some? ==> (r.value + 1.0) * closes[|closes| - lookback - 1] == closes[|closes| - 1]
  {
    if |closes| < lookback + 1 then None
    else
      var base := closes[|closes| - lookback - 1];
      if base == 0.0 then None
      else Some(closes[|closes| - 1] / base - 1.0)
  }

  /** `calc_rs`: the ratio of the stock's return to the index's return over
      the same lookback. Fail-closed: `None` when either series is too
      short or the index return is exactly 0, so nothing is ever divided by
      zero. */
  function CalcRs(stock: seq<Bar>, index: seq<real>, lookback: nat): (r: Option<real>)
    ensures |stock| < lookback + 1 || |index| < lookback + 1 ==> r.None?
    ensures r.Some? <==>
      WindowReturn(Closes(stock), lookback).Some? && WindowReturn(index, lookback).Some? &&
      WindowReturn(index, lookback).value != 0.0
    ensures r.Some? ==>
      r.value * WindowReturn(index, lookback).value == WindowReturn(Closes(stock), lookback).value
  {
    if |stock| < lookback + 1 || |index| < lookback + 1 then None
    else
      match (WindowReturn(Closes(stock), lookback), WindowReturn(index, lookback))
      case (Some(stockRet), Some(indexRet)) =>
        if indexRet == 0.0 then None else Some(stockRet / indexRet)
      case _ => None
  }

  /** What `RS > threshold` means: in a rising market the stock's return
      beats `threshold` times the index return; in a falling market the
      inequality flips, so the stock must have done worse than that. */
  lemma RsAboveMeaning(stock: seq<Bar>, index: seq<real>, lookback: nat, threshold: real)
    requires CalcRs(stock, index, lookback).Some?
    ensures var rs := CalcRs(stock, index, lookback).value;
      var sr := WindowReturn(Closes(stock), lookback).value;
      var ir := WindowReturn(index, lookback).value;
      (ir > 0.0 ==> (rs > threshold <==> sr > threshold * ir)) &&
      (ir < 0.0 ==> (rs > threshold <==> sr < threshold * ir))
  {
    var rs := CalcRs(stock, index, lookback).value;
    var sr := WindowReturn(Closes(stock), lookback).value;
    var ir := WindowReturn(index, lookback).value;
    assert rs * ir == sr;
    if ir > 0.0 {
      assert rs > threshold <==> rs * ir > threshold * ir;
    } else if ir < 0.0 {
      assert rs > threshold <==> rs * ir < threshold * ir;
    }
  }

  // ---------------------------------------------------------------------
  // Rules 3 & 6: sector percentile ranks and main-line sectors
  // ---------------------------------------------------------------------

  /** One row of the sector fund-flow ranking table: the sector name
      (`板块名称`), its change (`涨跌幅`) and its main net inflow
      (`主力净流入-净额`), each already passed through
      `pd.to_numeric(errors="coerce")` (`None` = NaN). */
  datatype SectorRaw = SectorRaw(name: string, change: Option<real>, inflow: Option<real>)

  /** The table, with whether each of the two source columns is present. */
  datatype SectorTable = SectorTable(hasChange: bool, hasInflow: bool, rows: seq<SectorRaw>)

  /** A row of `compute_sector_scores`' output: the input row unchanged plus
      the numeric columns `涨跌幅_num` and `main_net_in` and the two
      percentile ranks. */
  datatype SectorScore = SectorScore(
    raw: SectorRaw, changeNum: Option<real>, mainNetIn: Option<real>,
    upRankPct: Option<real>, flowRankPct: Option<real>)

  /** A row of `mark_main_sectors`' output. */
  datatype MarkedSector = MarkedSector(score: SectorScore, isMain: bool)

  function CountValid(col: seq<Option<real>>): (c: nat)
    ensures c <= |col|
  {
    if col == [] then 0 else (if col[0].Some? then 1 else 0) + CountValid(col[1..])
  }

  function CountBelow(col: seq<Option<real>>, v: real): nat
  {
    if col == [] then 0
    else (if col[0].Some? && col[0].value < v then 1 else 0) + CountBelow(col[1..], v)
  }

  function CountEqual(col: seq<Option<real>>, v: real): nat
  {
    if col == [] then 0
    else (if col[0] == Some(v) then 1 else 0) + CountEqual(col[1..], v)
  }

  lemma {:induction false} CountsWithinValid(col: seq<Option<real>>, v: real)
    ensures CountBelow(col, v) + CountEqual(col, v) <= CountValid(col)
  {
    if col != [] {
      CountsWithinValid(col[1..], v);
    }
  }

  lemma {:induction false} CountEqualHasSelf(col: seq<Option<real>>, i: nat, v: real)
    requires i < |col| && col[i] == Some(v)
    ensures CountEqual(col, v) >= 1
  {
    if i > 0 {
      CountEqualHasSelf(col[1..], i - 1, v);
    }
  }

  /** Every value strictly below `v` or equal to `u < v` is below `v`. */
  lemma {:induction false} CountBelowGrows(col: seq<Option<real>>, u: real, v: real)
    requires u < v
    ensures CountBelow(col, v) >= CountBelow(col, u) + CountEqual(col, u)
  {
    if col != [] {
      CountBelowGrows(col[1..], u, v);
    }
  }

  lemma {:induction false} UniqueMaxCounts(col: seq<Option<real>>, i: nat, v: real)
    requires i < |col| && col[i] == Some(v)
    requires forall j :: 0 <= j < |col| && j != i && col[j].Some? ==> col[j].value < v
    ensures CountBelow(col, v) == CountValid(col) - 1
    ensures CountEqual(col, v) == 1
  {
    if i == 0 {
      NoneAboveCounts(col[1..], v);
    } else {
      assert col[0].Some? ==> col[0].value < v;
      UniqueMaxCounts(col[1..], i - 1, v);
    }
  }

  lemma {:induction false} NoneAboveCounts(col: seq<Option<real>>, v: real)
    requires forall j :: 0 <= j < |col| && col[j].Some? ==> col[j].value < v
    ensures CountBelow(col, v) == CountValid(col) && CountEqual(col, v) == 0
  {
    if col != [] {
      NoneAboveCounts(col[1..], v);
    }
  }

  lemma {:induction false} AllEqualCounts(col: seq<Option<real>>, v: real)
    requires forall j :: 0 <= j < |col| ==> col[j] == Some(v)
    ensures CountBelow(col, v) == 0 && CountEqual(col, v) == |col| == CountValid(col)
  {
    if col != [] {
      AllEqualCounts(col[1..], v);
    }
  }

  /** pandas `rank(pct=True)` with the default "average" method: NaN stays
      NaN; otherwise the average of the tied positions,
      #{x < v} + (#{x == v} + 1) / 2, divided by the number of non-NaN
      values. */
  function PctRank(col: seq<Option<real>>, i: nat): (p: Option<real>)
    requires i < |col|
    ensures p.Some? <==> col[i].Some?
    ensures p.Some? ==> 0.0 < p.value <= 1.0
  {
    match col[i]
    case None => None
    case Some(v) =>
      CountsWithinValid(col, v);
      CountEqualHasSelf(col, i, v);
      var n := CountValid(col) as real;
      var rank := AverageRank(col, v);
      assert 1.0 <= rank <= n;
      DivAtMost(rank, n, 1.0);
      Some(rank / n)
  }

  /** The average 1-based position of `v` among the sorted non-NaN values. */
  function AverageRank(col: seq<Option<real>>, v: real): real
  {
    CountBelow(col, v) as real + (CountEqual(col, v) as real + 1.0) / 2.0
  }

  lemma DivAtMost(x: real, d: real, c: real)
    requires d > 0.0 && x <= c * d
    ensures x / d <= c
  {
    var q := x / d;
    assert q * d == x;
    if q > c {
      assert q * d - c * d == (q - c) * d;
    }
  }

  lemma DivStrictlyMonotone(x: real, y: real, d: real)
    requires d > 0.0 && x < y
    ensures x / d < y / d
  {
    var a, b := x / d, y / d;
    assert a * d == x && b * d == y;
    if a >= b {
      assert a * d - b * d == (a - b) * d;
    }
  }

  /** A strictly larger value gets a strictly larger percentile, an equal
      value the same percentile. */
  lemma {:induction false} PctRankRespectsOrder(col: seq<Option<real>>, i: nat, j: nat)
    requires i < |col| && j < |col| && col[i].Some? && col[j].Some?
    ensures col[i].value < col[j].value ==> PctRank(col, i).value < PctRank(col, j).value
    ensures col[i].value == col[j].value ==> PctRank(col, i).value == PctRank(col, j).value
  {
    var u, v := col[i].value, col[j].value;
    if u < v {
      CountBelowGrows(col, u, v);
      CountEqualHasSelf(col, i, u);
      CountEqualHasSelf(col, j, v);
      CountsWithinValid(col, v);
      var n := CountValid(col) as real;
      assert AverageRank(col, u) < AverageRank(col, v);
      DivStrictlyMonotone(AverageRank(col, u), AverageRank(col, v), n);
    }
  }

  /** A unique largest value ranks exactly 1.0. */
  lemma {:induction false} PctRankUniqueMax(col: seq<Option<real>>, i: nat)
    requires i < |col| && col[i].Some?
    requires forall j :: 0 <= j < |col| && j != i && col[j].Some? ==> col[j].value < col[i].value
    ensures PctRank(col, i) == Some(1.0)
  {
    var v := col[i].value;
    UniqueMaxCounts(col, i, v);
    var n := CountValid(col) as real;
    assert AverageRank(col, v) == n;
    DivSelf(n);
  }

  lemma DivSelf(n: real)
    requires n > 0.0
    ensures n / n == 1.0
  {
  }

  /** A column whose entries are all the same value `v`: every entry ties at
      (n + 1) / (2n). */
  lemma {:induction false} PctRankAllTied(col: seq<Option<real>>, i: nat, v: real)
    requires i < |col|
    requires forall j :: 0 <= j < |col| ==> col[j] == Some(v)
    ensures PctRank(col, i) == Some((|col| as real + 1.0) / (2.0 * |col| as real))
  {
    AllEqualCounts(col, v);
    var n := |col| as real;
    assert AverageRank(col, v) == (n + 1.0) / 2.0;
    HalveThenDivide(n + 1.0, n);
  }

  lemma HalveThenDivide(x: real, n: real)
    requires n > 0.0
    ensures (x / 2.0) / n == x / (2.0 * n)
  {
    var q := x / (2.0 * n);
    assert q * (2.0 * n) == x;
    assert (q * n) * 2.0 == x;
    assert q * n == x / 2.0;
  }

  /** The numeric `涨跌幅_num` column: the coerced change, or 0.0 throughout
      when the table has no `涨跌幅` column. */
  function ChangeColumn(t: SectorTable): (col: seq<Option<real>>)
    ensures |col| == |t.rows|
  {
    seq(|t.rows|, i requires 0 <= i < |t.rows| => if t.hasChange then t.rows[i].change else Some(0.0))
  }

  /** The numeric `main_net_in` column, likewise. */
  function InflowColumn(t: SectorTable): (col: seq<Option<real>>)
    ensures |col| == |t.rows|
  {
    seq(|t.rows|, i requires 0 <= i < |t.rows| => if t.hasInflow then t.rows[i].inflow else Some(0.0))
  }

  /** `compute_sector_scores`: one output row per input row, the input row
      kept as it was, with both percentiles in (0, 1] wherever the value is
      a number. */
  function ComputeSectorScores(t: SectorTable): (r: seq<SectorScore>)
    ensures |r| == |t.rows|
    ensures forall i :: 0 <= i < |r| ==> r[i].raw == t.rows[i]
    ensures forall i :: 0 <= i < |r| ==>
      r[i].changeNum == (if t.hasChange then t.rows[i].change else Some(0.0)) &&
      r[i].mainNetIn == (if t.hasInflow then t.rows[i].inflow else Some(0.0))
    ensures forall i :: 0 <= i < |r| ==>
      (r[i].upRankPct.Some? <==> r[i].changeNum.Some?) &&
      (r[i].flowRankPct.Some? <==> r[i].mainNetIn.Some?) &&
      (r[i].upRankPct.Some? ==> 0.0 < r[i].upRankPct.value <= 1.0) &&
      (r[i].flowRankPct.Some? ==> 0.0 < r[i].flowRankPct.value <= 1.0)
  {
    var up, flow := ChangeColumn(t), InflowColumn(t);
    seq(|t.rows|, i requires 0 <= i < |t.rows| =>
      SectorScore(t.rows[i], up[i], flow[i], PctRank(up, i), PctRank(flow, i)))
  }

  /** Within one table, percentiles follow the values on both columns. */
  lemma SectorRanksRespectOrder(t: SectorTable, i: nat, j: nat)
    requires i < |t.rows| && j < |t.rows|
    ensures var r := ComputeSectorScores(t);
      (r[i].changeNum.Some? && r[j].changeNum.Some? ==>
        (r[i].changeNum.value < r[j].changeNum.value ==> r[i].upRankPct.value < r[j].upRankPct.value) &&
        (r[i].changeNum.value == r[j].changeNum.value ==> r[i].upRankPct == r[j].upRankPct)) &&
      (r[i].mainNetIn.Some? && r[j].mainNetIn.Some? ==>
        (r[i].mainNetIn.value < r[j].mainNetIn.value ==> r[i].flowRankPct.value < r[j].flowRankPct.value) &&
        (r[i].mainNetIn.value == r[j].mainNetIn.value ==> r[i].flowRankPct == r[j].flowRankPct))
  {
    var up, flow := ChangeColumn(t), InflowColumn(t);
    if up[i].Some? && up[j].Some? {
      PctRankRespectsOrder(up, i, j);
    }
    if flow[i].Some? && flow[j].Some? {
      PctRankRespectsOrder(flow, i, j);
    }
  }

  /** A sector whose change is the unique largest number in the table ranks
      1.0 on `up_rank_pct`; in particular so does a lone sector. */
  lemma SectorUniqueTopRanksOne(t: SectorTable, i: nat)
    requires i < |t.rows|
    requires ChangeColumn(t)[i].Some?
    requires forall j :: 0 <= j < |t.rows| && j != i && ChangeColumn(t)[j].Some? ==>
      ChangeColumn(t)[j].value < ChangeColumn(t)[i].value
    ensures ComputeSectorScores(t)[i].upRankPct == Some(1.0)
  {
    PctRankUniqueMax(ChangeColumn(t), i);
  }

  /** Without the `涨跌幅` column every sector ties at (n + 1) / (2n). */
  lemma MissingChangeColumnTies(t: SectorTable, i: nat)
    requires !t.hasChange && i < |t.rows|
    ensures var n := |t.rows| as real;
      ComputeSectorScores(t)[i].upRankPct == Some((n + 1.0) / (2.0 * n))
  {
    PctRankAllTied(ChangeColumn(t), i, 0.0);
  }

  /** `mark_main_sectors`: the other columns unchanged, `is_main_sector` set
      exactly when both percentiles exceed 0.8 and the main net inflow is
      positive (NaN compares false). */
  function MarkMainSectors(s: seq<SectorScore>): (r: seq<MarkedSector>)
    ensures |r| == |s|
    ensures forall i :: 0 <= i < |r| ==> r[i].score == s[i]
    ensures forall i :: 0 <= i < |r| ==>
      (r[i].isMain <==>
        s[i].upRankPct.Some? && s[i].upRankPct.value > 0.8 &&
        s[i].flowRankPct.Some? && s[i].flowRankPct.value > 0.8 &&
        s[i].mainNetIn.Some? && s[i].mainNetIn.value > 0.0)
  {
    seq(|s|, i requires 0 <= i < |s| =>
      MarkedSector(s[i], IsMainLine(s[i])))
  }

  predicate IsMainLine(s: SectorScore)
  {
    GreaterThan(s.upRankPct, 0.8) && GreaterThan(s.flowRankPct, 0.8) && GreaterThan(s.mainNetIn, 0.0)
  }

  /** A pandas comparison `x > c`, false when `x` is NaN. */
  predicate GreaterThan(x: Option<real>, c: real)
  {
    x.Some? && x.value > c
  }

  /** A sector with no positive main net inflow is never main-line, however
      high both of its percentiles are. */
  lemma NoInflowNeverMain(s: seq<SectorScore>, i: nat)
    requires i < |s|
    requires s[i].mainNetIn.None? || s[i].mainNetIn.value <= 0.0
    ensures !MarkMainSectors(s)[i].isMain
  {
  }

  /** A table without the inflow column has no main-line sector (every
      inflow defaults to 0.0); neither has a table of two or more sectors
      without the change column (every sector ties at most at 0.75). */
  lemma {:induction false} MissingColumnsNoMainLine(t: SectorTable, i: nat)
    requires i < |t.rows|
    requires !t.hasInflow || (!t.hasChange && |t.rows| >= 2)
    ensures !MarkMainSectors(ComputeSectorScores(t))[i].isMain
  {
    var r := ComputeSectorScores(t);
    if t.hasInflow {
      MissingChangeColumnTies(t, i);
      var n := |t.rows| as real;
      DivAtMost(n + 1.0, 2.0 * n, 0.8);
    }
  }
}
