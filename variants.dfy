/** How the rules of the two variants relate when they read the same
    series: the `app/` rules (app/signals.py) against the `selector/`
    indicators (selector/indicators.py). */
module Variants {
  import opened Common
  import Signals
  import Indicators

  /** With at least 56 bars both breakout rules look at the same 55 highs
      before today with the same 1% margin, so they agree. */
  lemma BreakoutRulesAgree(bars: seq<Bar>)
    requires |bars| >= 56
    ensures Indicators.CalcBreakout(bars) == Signals.BreakoutSignal(bars, 55)
  {
  }

  /** Two bars: today's close beats yesterday's high by more than 1%. */
  function ShortBreakout(): (bars: seq<Bar>)
    ensures |bars| == 2
  {
    [Bar(1, 10.0, 10.0, 1.0), Bar(2, 10.0, 11.0, 1.0)]
  }

  /** On a short history the rules part: the `selector/` rule falls back to
      every earlier bar, the `app/` rule needs 56 bars. */
  lemma ShortHistoryBreakoutDiffers()
    ensures Indicators.CalcBreakout(ShortBreakout())
    ensures !Signals.BreakoutSignal(ShortBreakout(), 55)
  {
    var bars := ShortBreakout();
    assert bars[1].close > bars[0].high * 1.01;
  }

  /** In a rising market (index return at least 1e-6) the `selector/` check
      passes exactly when the `app/` ratio reaches 0.7, so every stock the
      `app/` threshold `RS > 0.7` admits passes it too; a ratio of exactly
      0.7 passes only the `selector/` check. */
  lemma RsRulesInRisingMarket(stock: seq<Bar>, index: seq<real>)
    requires Signals.CalcRs(stock, index, 20).Some?
    requires Signals.WindowReturn(index, 20).value >= 0.000001
    ensures var rs := Signals.CalcRs(stock, index, 20).value;
      var sr := Signals.WindowReturn(Closes(stock), 20).value;
      var ir := Signals.WindowReturn(index, 20).value;
      (Indicators.CalcRs(sr, Indicators.MarketValue(ir)) <==> rs >= 0.7) &&
      (rs > 0.7 ==> Indicators.CalcRs(sr, Indicators.MarketValue(ir)))
  {
    var rs := Signals.CalcRs(stock, index, 20).value;
    var sr := Signals.WindowReturn(Closes(stock), 20).value;
    var ir := Signals.WindowReturn(index, 20).value;
    assert rs * ir == sr;
    if rs >= 0.7 {
      assert sr - 0.7 * ir == (rs - 0.7) * ir;
    } else {
      assert 0.7 * ir - sr == (0.7 - rs) * ir;
    }
  }

  /** Without index data the `app/` rule has no ratio and drops the stock,
      while the `selector/` check lets it through. */
  lemma RsMissingIndex(stock: seq<Bar>, stockRet: real)
    ensures Signals.CalcRs(stock, [], 20).None?
    ensures Indicators.CalcRs(stockRet, Indicators.NoMarket)
  {
  }

  lemma {:induction false} SumOfOnes(s: seq<real>)
    requires forall i :: 0 <= i < |s| ==> s[i] == 1.0
    ensures Sum(s) == |s| as real
  {
    if s != [] {
      SumOfOnes(s[1..]);
    }
  }

  /** 23 bars of volume 1 and a last bar of volume 2. */
  function DoubledLastVolume(): (bars: seq<Bar>)
    ensures |bars| == 23
    ensures forall i :: 0 <= i < 22 ==> bars[i].volume == 1.0
    ensures bars[22].volume == 2.0
  {
    seq(23, i requires 0 <= i < 23 => Bar(i, 1.0, 1.0, if i == 22 then 2.0 else 1.0))
  }

  /** The two volume rules are different rules: one doubled day after a flat
      stretch is a `selector/` spike (the mean leaves today out and needs no
      earlier spike), but not an `app/` signal, which also wants the two
      days before today above their own rolling means. */
  lemma VolumeRulesDiffer()
    ensures Indicators.CalcVolumeSpike(DoubledLastVolume())
    ensures !Signals.VolumeSignal(DoubledLastVolume(), 20)
  {
    var bars := DoubledLastVolume();
    var w := Indicators.PriorVolumes(bars);
    SumOfOnes(w);
    var vols := Volumes(bars);
    SumOfOnes(vols[2..22]);
    assert Signals.RollingMean(vols, 21, 20) == 1.0;
  }
}
