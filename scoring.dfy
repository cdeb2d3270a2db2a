/**
 * The anomaly scorer and labeler: a score clamped to [0, 100] built from the
 * relative deviation, a spike bonus and a volatility-cluster bonus, and a
 * five-way label chosen by exclusive lower thresholds.
 */
module Scoring {
  import opened JsNumber
  import opened Types

  datatype Label = NORMAL | LOW | MEDIUM | HIGH | CRITICAL

  /** The text the label column carries. */
  function LabelText(l: Label): string
  {
    match l
    case NORMAL => "NORMAL"
    case LOW => "LOW"
    case MEDIUM => "MEDIUM"
    case HIGH => "HIGH"
    case CRITICAL => "CRITICAL"
  }

  /** Distinct labels have distinct texts. */
  lemma LabelTextDistinct(l1: Label, l2: Label)
    ensures l1 != l2 ==> LabelText(l1) != LabelText(l2)
  {
  }

  /** Severity order of the labels. */
  function Rank(l: Label): nat
  {
    match l
    case NORMAL => 0
    case LOW => 1
    case MEDIUM => 2
    case HIGH => 3
    case CRITICAL => 4
  }

  /** The deviation term `|value - baseValue| / baseValue * 50`. */
  function DeviationScore(value: real, baseValue: real): (s: real)
    requires baseValue != 0.0
    ensures baseValue > 0.0 ==> s >= 0.0
    ensures baseValue > 0.0 && value == baseValue ==> s == 0.0
  {
    AbsReal(value - baseValue) / baseValue * 50.0
  }

  /** The score before clamping: deviation, plus 30 for a non-zero spike, plus 20 for a cluster beyond 10 in magnitude. */
  function RawScore(value: real, baseValue: real, spikeValue: real, volatilityCluster: real): (raw: real)
    requires baseValue != 0.0
    ensures DeviationScore(value, baseValue) <= raw <= DeviationScore(value, baseValue) + 50.0
    ensures raw == DeviationScore(value, baseValue) <==> spikeValue == 0.0 && AbsReal(volatilityCluster) <= 10.0
  {
    DeviationScore(value, baseValue)
      + (if AbsReal(spikeValue) > 0.0 then 30.0 else 0.0)
      + (if AbsReal(volatilityCluster) > 10.0 then 20.0 else 0.0)
  }

  /** `calculateAnomalyScore`: the raw score clamped into [0, 100]. */
  function AnomalyScore(value: real, baseValue: real, spikeValue: real, volatilityCluster: real): (score: real)
    requires baseValue != 0.0
    ensures 0.0 <= score <= 100.0
    ensures score == 100.0 || score == 0.0 || score == RawScore(value, baseValue, spikeValue, volatilityCluster)
    ensures 0.0 <= RawScore(value, baseValue, spikeValue, volatilityCluster) <= 100.0 ==>
      score == RawScore(value, baseValue, spikeValue, volatilityCluster)
    ensures RawScore(value, baseValue, spikeValue, volatilityCluster) > 100.0 ==> score == 100.0
    ensures RawScore(value, baseValue, spikeValue, volatilityCluster) < 0.0 ==> score == 0.0
    ensures baseValue > 0.0 && spikeValue != 0.0 ==> score >= 30.0
    ensures baseValue > 0.0 && AbsReal(volatilityCluster) > 10.0 ==> score >= 20.0
    ensures baseValue > 0.0 && spikeValue != 0.0 && AbsReal(volatilityCluster) > 10.0 ==> score >= 50.0
  {
    Min(100.0, Max(0.0, RawScore(value, baseValue, spikeValue, volatilityCluster)))
  }

  /** With a positive base value the spike bonus is exactly 30 more, before the cap, and only its presence matters. */
  lemma SpikeBonus(value: real, baseValue: real, spikeValue: real, volatilityCluster: real)
    requires baseValue > 0.0
    ensures spikeValue != 0.0 ==>
      AnomalyScore(value, baseValue, spikeValue, volatilityCluster)
        == Min(100.0, AnomalyScore(value, baseValue, 0.0, volatilityCluster) + 30.0)
    ensures spikeValue == 0.0 ==>
      AnomalyScore(value, baseValue, spikeValue, volatilityCluster)
        == Min(100.0, DeviationScore(value, baseValue) + (if AbsReal(volatilityCluster) > 10.0 then 20.0 else 0.0))
  {
  }

  /** With a positive base value the cluster bonus is exactly 20 more, before the cap, and only beyond magnitude 10. */
  lemma ClusterBonus(value: real, baseValue: real, spikeValue: real, volatilityCluster: real)
    requires baseValue > 0.0
    ensures AbsReal(volatilityCluster) > 10.0 ==>
      AnomalyScore(value, baseValue, spikeValue, volatilityCluster)
        == Min(100.0, AnomalyScore(value, baseValue, spikeValue, 0.0) + 20.0)
    ensures AbsReal(volatilityCluster) <= 10.0 ==>
      AnomalyScore(value, baseValue, spikeValue, volatilityCluster)
        == AnomalyScore(value, baseValue, spikeValue, 0.0)
  {
  }

  /** `generateLabel`: exclusive lower bounds 80, 60, 40, 20; the metric plays no part. */
  function GenerateLabel(score: real, metricType: MetricType): (l: Label)
    ensures l == CRITICAL <==> score > 80.0
    ensures l == HIGH <==> 60.0 < score <= 80.0
    ensures l == MEDIUM <==> 40.0 < score <= 60.0
    ensures l == LOW <==> 20.0 < score <= 40.0
    ensures l == NORMAL <==> score <= 20.0
  {
    if score > 80.0 then CRITICAL
    else if score > 60.0 then HIGH
    else if score > 40.0 then MEDIUM
    else if score > 20.0 then LOW
    else NORMAL
  }

  /** The label does not depend on the metric. */
  lemma LabelIgnoresMetric(score: real, m1: MetricType, m2: MetricType)
    ensures GenerateLabel(score, m1) == GenerateLabel(score, m2)
  {
  }

  /** A higher score never gets a less severe label. */
  lemma LabelMonotone(s1: real, s2: real, m: MetricType)
    requires s1 <= s2
    ensures Rank(GenerateLabel(s1, m)) <= Rank(GenerateLabel(s2, m))
  {
  }

  /** A sample whose spike value is non-zero scores at least 30 and so is labelled LOW or above. */
  lemma SpikedIsNotNormal(value: real, baseValue: real, spikeValue: real, volatilityCluster: real, m: MetricType)
    requires baseValue > 0.0 && spikeValue != 0.0
    ensures Rank(GenerateLabel(AnomalyScore(value, baseValue, spikeValue, volatilityCluster), m)) >= Rank(LOW)
  {
  }
}
