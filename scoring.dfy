/** The weighted total score of a candidate stock (app/scoring.py). */
module Scoring {

  /** The four weights; together they sum to 1. */
  datatype ScoreWeights = ScoreWeights(breakout: real, volume: real, moneyFlow: real, sector: real)

  const Weights := ScoreWeights(0.30, 0.25, 0.25, 0.20)

  function Indicator(b: bool): real
  {
    if b then 1.0 else 0.0
  }

  /** `calc_total_score`: each met rule contributes its weight, the sector
      score contributes in proportion, and the whole is scaled to 100. With
      a sector score in [0, 1] the result is in [0, 100]. */
  function CalcTotalScore(breakoutOk: bool, volumeOk: bool, moneyFlowOk: bool, sectorScore: real): (score: real)
    ensures 0.0 <= sectorScore <= 1.0 ==> 0.0 <= score <= 100.0
    ensures breakoutOk && volumeOk && moneyFlowOk && sectorScore >= 0.0 ==> score >= 80.0
    ensures !breakoutOk && !volumeOk && !moneyFlowOk ==> score == 20.0 * sectorScore
  {
    var s := Indicator(breakoutOk) * Weights.breakout
           + Indicator(volumeOk) * Weights.volume
           + Indicator(moneyFlowOk) * Weights.moneyFlow
           + sectorScore * Weights.sector;
    s * 100.0
  }

  lemma WeightsSumToOne()
    ensures Weights.breakout + Weights.volume + Weights.moneyFlow + Weights.sector == 1.0
  {
  }

  /** Meeting one more rule, or a higher sector score, never lowers the
      score. */
  lemma ScoreMonotone(b1: bool, v1: bool, m1: bool, s1: real, b2: bool, v2: bool, m2: bool, s2: real)
    requires (b1 ==> b2) && (v1 ==> v2) && (m1 ==> m2) && s1 <= s2
    ensures CalcTotalScore(b1, v1, m1, s1) <= CalcTotalScore(b2, v2, m2, s2)
  {
  }

  /** The two extremes of the [0, 100] range. */
  lemma ScoreExtremes()
    ensures CalcTotalScore(true, true, true, 1.0) == 100.0
    ensures CalcTotalScore(false, false, false, 0.0) == 0.0
  {
  }

  /** When all three rules hold, the score reaches the 80 threshold with any
      non-negative sector score; a sector score above 0.8 (which every
      main-line sector has) puts it above 96. */
  lemma AllRulesScore(sectorScore: real)
    requires sectorScore > 0.8
    ensures CalcTotalScore(true, true, true, sectorScore) > 96.0
  {
  }

  /** Without all three rules the score stays below 80 for a sector score of
      at most 1, so the 80 threshold can only be met when all three rules
      hold. */
  lemma ThresholdNeedsAllRules(b: bool, v: bool, m: bool, sectorScore: real)
    requires sectorScore <= 1.0
    requires CalcTotalScore(b, v, m, sectorScore) >= 80.0
    ensures b && v && m
  {
  }
}
