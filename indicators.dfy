/** The three indicators of the `selector/` variant
    (selector/indicators.py). Each looks only at the trailing bars of one
    stock's history, sorted by trade date, oldest first. */
module Indicators {
  import opened Common

  /** The market's 20-day return as `calc_rs` receives it: `None` when the
      index series could not be read, a finite number, or the infinity or
      NaN that a zero base close produces. */
  datatype MarketReturn = NoMarket | MarketValue(ret: real) | NonFiniteMarket

  /** `calc_breakout`: today's close beats 1.01 times the highest high of
      the 55 bars before today, or of all earlier bars when the history is
      shorter. A one-bar history has no earlier bar: the max is NaN and the
      comparison false. An empty history raises (the only caller checks
      for it first). */
  function CalcBreakout(bars: seq<Bar>): (r: bool)
    requires |bars| > 0
    ensures |bars| >= 56 ==> (r <==>
      forall k :: |bars| - 56 <= k < |bars| - 1 ==> bars[|bars| - 1].close > bars[k].high * 1.01)
    ensures |bars| < 56 ==> (r <==>
      |bars| >= 2 && forall k :: 0 <= k < |bars| - 1 ==> bars[|bars| - 1].close > bars[k].high * 1.01)
  {
    var n := |bars|;
    var start := if n < 56 then 0 else n - 56;
    var window := bars[start..n - 1];
    if window == [] then false
    else
      var highs := Highs(window);
      var highest := MaxOf(highs);
      var today := bars[n - 1].close;
      BeatsBoundIffBeatsAll(highs, today, 1.01, highest);
      assert forall k :: start <= k < n - 1 ==> bars[k].high == highs[k - start];
      today > highest * 1.01
  }

  /** With 56 bars or more, bars older than the last 56 do not matter. */
  lemma CalcBreakoutIgnoresOlderBars(older: seq<Bar>, bars: seq<Bar>)
    requires |bars| >= 56
    ensures CalcBreakout(older + bars) == CalcBreakout(bars)
  {
    var all := older + bars;
    assert forall k :: 0 <= k < |bars| ==> all[|older| + k] == bars[k];
    assert CalcBreakout(all) <==> forall k :: |bars| - 56 <= k < |bars| - 1 ==> bars[|bars| - 1].close > bars[k].high * 1.01 by {
      assert all[|all| - 1] == bars[|bars| - 1];
      assert forall k :: |all| - 56 <= k < |all| - 1 ==> all[k] == bars[k - |older|];
    }
  }

  /** The moving average `calc_volume_spike` compares today's volume with:
      the 20 volumes before today, or all earlier ones when the history is
      shorter; today is never part of it. */
  function PriorVolumes(bars: seq<Bar>): (w: seq<real>)
    requires |bars| > 0
    ensures |w| == if |bars| < 21 then |bars| - 1 else 20
    ensures forall k :: 0 <= k < |w| ==> w[k] == bars[|bars| - 1 - |w| + k].volume
  {
    var n := |bars|;
    var start := if n < 21 then 0 else n - 21;
    Volumes(bars[start..n - 1])
  }

  /** `calc_volume_spike`: today's volume is above 1.5 times that average.
      Stated without the division: today's volume times the window length
      beats 1.5 times the window's total. A one-bar history has an empty
      window, whose mean is NaN: no spike. */
  function CalcVolumeSpike(bars: seq<Bar>): (r: bool)
    requires |bars| > 0
    ensures var w := PriorVolumes(bars);
      r <==> |w| > 0 && bars[|bars| - 1].volume * (|w| as real) > 1.5 * Sum(w)
  {
    var w := PriorVolumes(bars);
    if w == [] then false
    else
      var today := bars[|bars| - 1].volume;
      var ma := Mean(w);
      MeanComparison(today, w, 1.5);
      today > ma * 1.5
  }

  /** `c > mean(w) * f` exactly when `c * |w| > f * sum(w)`. */
  lemma MeanComparison(c: real, w: seq<real>, f: real)
    requires |w| > 0
    ensures c > Mean(w) * f <==> c * (|w| as real) > f * Sum(w)
  {
    var n := |w| as real;
    var m := Mean(w);
    assert m * n == Sum(w);
    assert (m * f) * n == f * Sum(w);
    if c > m * f {
      assert c * n - (m * f) * n == (c - m * f) * n;
    } else {
      assert (m * f) * n - c * n == (m * f - c) * n;
    }
  }

  /** With 21 bars or more, bars older than the last 21 do not matter. */
  lemma CalcVolumeSpikeIgnoresOlderBars(older: seq<Bar>, bars: seq<Bar>)
    requires |bars| >= 21
    ensures CalcVolumeSpike(older + bars) == CalcVolumeSpike(bars)
  {
    var all := older + bars;
    assert PriorVolumes(all) == PriorVolumes(bars) by {
      assert forall k :: |all| - 21 <= k < |all| ==> all[k] == bars[k - |older|];
    }
    assert all[|all| - 1] == bars[|bars| - 1];
  }

  /** `calc_rs`: fail-open, true when the market return is unknown or
      within 1e-6 of zero; otherwise true when the stock's return is at
      least 0.7 times the market's. A non-finite market return gives a
      quotient of 0 or NaN, which is never at least 0.7. */
  function CalcRs(stockRet: real, market: MarketReturn): (r: bool)
    ensures market.NoMarket? ==> r
    ensures market.NonFiniteMarket? ==> !r
    ensures market.MarketValue? && -0.000001 < market.ret < 0.000001 ==> r
    ensures market.MarketValue? && market.ret >= 0.000001 ==> (r <==> stockRet >= 0.7 * market.ret)
    ensures market.MarketValue? && market.ret <= -0.000001 ==> (r <==> stockRet <= 0.7 * market.ret)
  {
    match market
    case NoMarket => true
    case NonFiniteMarket => false
    case MarketValue(m) =>
      if -0.000001 < m < 0.000001 then true
      else
        QuotientAtLeast(stockRet, m, 0.7);
        stockRet / m >= 0.7
  }

  /** Dividing by a positive number keeps the inequality, by a negative one
      flips it. */
  lemma QuotientAtLeast(x: real, m: real, t: real)
    requires m != 0.0
    ensures m > 0.0 ==> (x / m >= t <==> x >= t * m)
    ensures m < 0.0 ==> (x / m >= t <==> x <= t * m)
  {
    var q := x / m;
    assert q * m == x;
    if m > 0.0 {
      if q >= t {
        assert q * m - t * m == (q - t) * m;
      } else {
        assert t * m - q * m == (t - q) * m;
      }
    } else {
      if q >= t {
        assert q * m - t * m == (q - t) * m;
      } else {
        assert t * m - q * m == (t - q) * m;
      }
    }
  }
}
