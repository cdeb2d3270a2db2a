/**
 * One time series: the point count chosen from the range, the per-sample
 * composition (base value, trend, periodic harmonics, volatility cluster,
 * scaled noise and an optional spike), the anomaly score and label, and the
 * four output columns. The functions give the series on the sequence of
 * draws that follows the spike positions; the engine's loop is specified
 * against them.
 */
module Series {
  import opened JsNumber
  import opened Types
  import opened Random
  import opened Hash
  import opened Scoring
  import opened Signal
  import opened Spikes

  /** A query after defaulting: everything the generator needs from the panel. */
  datatype Query = Query(refId: seq<CodeUnit>, metricType: MetricType, volatilityLevel: real, spikeFrequency: real)

  const MillisPerHour: real := 3600000.0

  /** `calculateDataPoints`: 200 points below an hour, 500 below a day, 700 below a week, 1000 otherwise. */
  function CalculateDataPoints(from: real, to: real): (points: nat)
    ensures points == 200 <==> (to - from) / MillisPerHour < 1.0
    ensures points == 500 <==> 1.0 <= (to - from) / MillisPerHour < 24.0
    ensures points == 700 <==> 24.0 <= (to - from) / MillisPerHour < 168.0
    ensures points == 1000 <==> 168.0 <= (to - from) / MillisPerHour
    ensures points % 10 == 0
  {
    var hours := (to - from) / MillisPerHour;
    if hours < 1.0 then 200
    else if hours < 24.0 then 500
    else if hours < 168.0 then 700
    else 1000
  }

  /** A longer range never yields fewer points. */
  lemma DataPointsMonotone(from1: real, to1: real, from2: real, to2: real)
    requires to1 - from1 <= to2 - from2
    ensures CalculateDataPoints(from1, to1) <= CalculateDataPoints(from2, to2)
  {
  }

  /**
   * The spike slots never exceed a tenth of the point count: at most 20, 50,
   * 70 or 100 samples are spiked, whatever the frequency.
   */
  lemma SpikeCountCapped(from: real, to: real, frequency: real)
    ensures SpikeCount(CalculateDataPoints(from, to), frequency) <= CalculateDataPoints(from, to) / 10
  {
    var points := CalculateDataPoints(from, to);
    assert points as real / 10.0 == (points / 10) as real;
  }

  /** The fixed inputs of a series run. */
  datatype Setup = Setup(math: MathLib, model: NoiseModel, query: Query, from: real, interval: real, points: nat)

  /** What the engine computes for one sample before clamping: the raw value and the two terms the score looks at. */
  datatype Sample = Sample(raw: real, cluster: real, spike: real)

  /** Draws one sample takes: four for the cluster, the noise model's share, and two more when spiked. */
  function SampleDraws(model: NoiseModel, spiked: bool): nat
  {
    4 + NoiseDraws(model) + (if spiked then 2 else 0)
  }

  /** The value before clamping: each term added in the engine's order, the noise scaled by the metric's multiplier. */
  function Compose(baseValue: real, trend: real, periodic: real, cluster: real, noise: real, multiplier: real, spike: real): real
  {
    baseValue + trend + periodic + cluster + noise * multiplier + spike
  }

  /**
   * The spike term as the engine draws it: `generateSpike` when the index is
   * spiked, otherwise 0 without touching the generator. A spiked index with a
   * positive volatility always gets a non-zero spike.
   */
  function OptionalSpike(spiked: bool, state: int, metric: MetricType, volatilityLevel: real): (d: Drawn<real>)
    ensures !spiked ==> d == Drawn(0.0, state)
    ensures state >= 0 ==> d.state >= 0
    ensures spiked && state >= 0 && volatilityLevel > 0.0 ==> d.value != 0.0
  {
    if spiked then
      SpikeScalePositive(metric, volatilityLevel);
      SpikeDraw(state, BaseValue(metric), volatilityLevel)
    else
      Drawn(0.0, state)
  }

  /** A positive volatility gives a positive spike scale. */
  lemma SpikeScalePositive(metric: MetricType, volatilityLevel: real)
    ensures volatilityLevel > 0.0 ==> SpikeScale(BaseValue(metric), volatilityLevel) > 0.0
  {
    if volatilityLevel > 0.0 {
      MulPos(BaseValue(metric), volatilityLevel / 50.0);
    }
  }

  /** The noise intensity of a volatility level given in percent. */
  function NoiseIntensity(volatilityLevel: real): (intensity: real)
    ensures intensity * 100.0 == volatilityLevel
    ensures 0.0 <= volatilityLevel <= 100.0 ==> 0.0 <= intensity <= 1.0
  {
    volatilityLevel / 100.0
  }

  /**
   * Sample `i` of a run, drawn from the generator state `state` in the
   * engine's order: the volatility cluster, the noise, then the optional
   * spike. The trend and the periodic term take no draw.
   */
  function SampleDraw(setup: Setup, i: nat, spiked: bool, state: int): (d: Drawn<Sample>)
    requires setup.points > 0
    ensures state >= 0 ==> d.state >= 0
    ensures !spiked ==> d.value.spike == 0.0
    ensures spiked && state >= 0 && setup.query.volatilityLevel > 0.0 ==> d.value.spike != 0.0
    ensures setup.query.volatilityLevel == 0.0 ==> d.value.cluster == 0.0
  {
    var q := setup.query;
    var t := i as real / setup.points as real;
    var cluster := ClusterDraw(setup.math, state, t, q.volatilityLevel);
    var noise := NoiseDraw(setup.math, setup.model, cluster.state, NoiseIntensity(q.volatilityLevel));
    var spike := OptionalSpike(spiked, noise.state, q.metricType, q.volatilityLevel);
    var raw := Compose(BaseValue(q.metricType), Trend(setup.math, t, q.metricType), Periodic(setup.math, t),
      cluster.value, noise.value, VolatilityMultiplier(q.metricType), spike.value);
    Drawn(Sample(raw, cluster.value, spike.value), spike.state)
  }

  /** One sample takes exactly its share of draws: four, the noise model's share, and two more when spiked. */
  lemma SampleDrawCount(setup: Setup, i: nat, spiked: bool, state: int)
    requires setup.points > 0
    ensures SampleDraw(setup, i, spiked, state).state == Iterate(state, SampleDraws(setup.model, spiked))
  {
    var q := setup.query;
    var t := i as real / setup.points as real;
    var nd := NoiseDraws(setup.model);
    ClusterDrawCount(setup.math, state, t, q.volatilityLevel);
    NoiseDrawCount(setup.math, setup.model, Iterate(state, 4), NoiseIntensity(q.volatilityLevel));
    IterateAdd(state, 4, nd);
    if spiked {
      SpikeDrawCount(Iterate(state, 4 + nd), BaseValue(q.metricType), q.volatilityLevel);
      IterateAdd(state, 4 + nd, 2);
    }
  }

  /** The draws the first `n` samples take. */
  function SeriesDraws(model: NoiseModel, flags: seq<bool>, n: nat): nat
    requires n <= |flags|
  {
    if n == 0 then 0 else SeriesDraws(model, flags, n - 1) + SampleDraws(model, flags[n - 1])
  }

  /** `n` samples take four draws each for the cluster, the noise model's share each, and two per spiked sample. */
  lemma {:induction false} SeriesDrawsTotal(model: NoiseModel, flags: seq<bool>, n: nat)
    requires n <= |flags|
    ensures SeriesDraws(model, flags, n) == n * (4 + NoiseDraws(model)) + 2 * CountTrue(flags[..n])
  {
    if n > 0 {
      SeriesDrawsTotal(model, flags, n - 1);
      assert flags[..n][..n - 1] == flags[..n - 1];
      assert n * (4 + NoiseDraws(model)) == (n - 1) * (4 + NoiseDraws(model)) + (4 + NoiseDraws(model));
    }
  }

  /** The generator state sample `k` starts from: the run's first state advanced by the draws of the samples before it. */
  function SampleStart(model: NoiseModel, flags: seq<bool>, state: int, k: nat): (start: int)
    requires k <= |flags|
    ensures state >= 0 ==> start >= 0
  {
    Iterate(state, SeriesDraws(model, flags, k))
  }

  /**
   * The samples of a run whose spike flags are `flags`, the first drawn from
   * `state`: sample `k` is drawn from the state the samples before it leave.
   * No sample off the flags carries a spike; from a non-negative state with a
   * positive volatility, every sample on them does.
   */
  function SeriesRun(setup: Setup, flags: seq<bool>, state: int): (samples: seq<Sample>)
    requires setup.points > 0
    ensures |samples| == |flags|
    ensures forall k :: 0 <= k < |flags| && !flags[k] ==> samples[k].spike == 0.0
    ensures state >= 0 && setup.query.volatilityLevel > 0.0 ==>
      forall k :: 0 <= k < |flags| && flags[k] ==> samples[k].spike != 0.0
  {
    seq(|flags|, k requires 0 <= k < |flags| =>
      SampleDraw(setup, k, flags[k], SampleStart(setup.model, flags, state, k)).value)
  }

  /** Drawing sample `k` from its start state leaves the state sample `k + 1` starts from. */
  lemma NextSampleStart(setup: Setup, flags: seq<bool>, state: int, k: nat)
    requires setup.points > 0 && k < |flags|
    ensures SampleDraw(setup, k, flags[k], SampleStart(setup.model, flags, state, k)).state
         == SampleStart(setup.model, flags, state, k + 1)
  {
    var start := SampleStart(setup.model, flags, state, k);
    SampleDrawCount(setup, k, flags[k], start);
    IterateAdd(state, SeriesDraws(setup.model, flags, k), SampleDraws(setup.model, flags[k]));
  }

  /** The value column's entry: the raw value clamped at zero. */
  function OutputValue(s: Sample): (v: real)
    ensures v >= 0.0
    ensures s.raw >= 0.0 ==> v == s.raw
    ensures s.raw < 0.0 ==> v == 0.0
  {
    Max(0.0, s.raw)
  }

  /** The score column's entry, taken from the unclamped value. */
  function ScoreOf(metric: MetricType, s: Sample): (score: real)
    ensures 0.0 <= score <= 100.0
    ensures s.spike != 0.0 ==> score >= 30.0
  {
    AnomalyScore(s.raw, BaseValue(metric), s.spike, s.cluster)
  }

  /** The label column's entry. */
  function LabelOf(metric: MetricType, s: Sample): (l: Label)
    ensures l == NORMAL <==> ScoreOf(metric, s) <= 20.0
    ensures s.spike != 0.0 ==> l != NORMAL
  {
    GenerateLabel(ScoreOf(metric, s), metric)
  }

  /** The data frame the engine returns: the query's id, the metric's display name and four equally long columns. */
  datatype Frame = Frame(refId: seq<CodeUnit>, valueName: string, time: seq<real>, values: seq<real>,
                         anomalyScores: seq<real>, labels: seq<string>)

  /** The `k`-th timestamp: `from` plus `k` intervals. */
  function Timestamp(from: real, interval: real, k: nat): (t: real)
    ensures k == 0 ==> t == from
    ensures interval > 0.0 ==> (t > from <==> k > 0)
  {
    from + k as real * interval
  }

  /** The time column: `n` timestamps, one per point. */
  function TimeColumn(from: real, interval: real, n: nat): (col: seq<real>)
    ensures |col| == n
  {
    seq(n, k requires 0 <= k => Timestamp(from, interval, k))
  }

  /** The value column: each sample's value clamped at zero. */
  function ValueColumn(samples: seq<Sample>): (col: seq<real>)
    ensures |col| == |samples|
  {
    seq(|samples|, k requires 0 <= k < |samples| => OutputValue(samples[k]))
  }

  /** The score column, from each sample's unclamped value. */
  function ScoreColumn(metric: MetricType, samples: seq<Sample>): (col: seq<real>)
    ensures |col| == |samples|
  {
    seq(|samples|, k requires 0 <= k < |samples| => ScoreOf(metric, samples[k]))
  }

  /** The label column. */
  function LabelColumn(metric: MetricType, samples: seq<Sample>): (col: seq<string>)
    ensures |col| == |samples|
  {
    seq(|samples|, k requires 0 <= k < |samples| => LabelText(LabelOf(metric, samples[k])))
  }

  /** The time column grows by one timestamp at a time. */
  lemma TimeColumnAppend(from: real, interval: real, n: nat)
    ensures TimeColumn(from, interval, n + 1) == TimeColumn(from, interval, n) + [Timestamp(from, interval, n)]
  {
    var long, short := TimeColumn(from, interval, n + 1), TimeColumn(from, interval, n);
    assert forall k :: 0 <= k < n ==> long[k] == short[k];
  }

  /** The three sample columns grow by one sample's entries at a time. */
  lemma ColumnsAppend(metric: MetricType, samples: seq<Sample>, n: nat)
    requires n < |samples|
    ensures ValueColumn(samples[..n + 1]) == ValueColumn(samples[..n]) + [OutputValue(samples[n])]
    ensures ScoreColumn(metric, samples[..n + 1]) == ScoreColumn(metric, samples[..n]) + [ScoreOf(metric, samples[n])]
    ensures LabelColumn(metric, samples[..n + 1]) == LabelColumn(metric, samples[..n]) + [LabelText(LabelOf(metric, samples[n]))]
  {
    var long, short := samples[..n + 1], samples[..n];
    assert forall k :: 0 <= k < n ==> long[k] == short[k];
    assert ValueColumn(long) == ValueColumn(short) + [OutputValue(samples[n])];
    assert ScoreColumn(metric, long) == ScoreColumn(metric, short) + [ScoreOf(metric, samples[n])];
    assert LabelColumn(metric, long) == LabelColumn(metric, short) + [LabelText(LabelOf(metric, samples[n]))];
  }

  /** The generator seed of a query: the engine seed plus the hash of the query's id, added as doubles. */
  function QuerySeed(engineSeed: int, refId: seq<CodeUnit>): (seed: int)
    ensures engineSeed >= 0 ==> seed >= 0
    ensures -TwoPow53 < engineSeed + Abs(HashFold(refId)) < TwoPow53 ==> seed == engineSeed + Abs(HashFold(refId))
  {
    RoundToDouble(engineSeed + Abs(HashFold(refId)))
  }

  /** The fixed inputs of the run for `query` over [from, to]. */
  function SetupOf(math: MathLib, model: NoiseModel, query: Query, from: real, to: real): (setup: Setup)
    ensures setup.points == CalculateDataPoints(from, to) && setup.points > 0
  {
    Setup(math, model, query, from, (to - from) / CalculateDataPoints(from, to) as real, CalculateDataPoints(from, to))
  }

  /**
   * The samples of a run: the spike flags are drawn first, then every sample
   * in order from the state they leave.
   */
  function SeriesSamples(math: MathLib, model: NoiseModel, engineSeed: int, query: Query, from: real, to: real): (samples: seq<Sample>)
    ensures |samples| == CalculateDataPoints(from, to)
  {
    var setup := SetupOf(math, model, query, from, to);
    var spikes := SpikePositions(QuerySeed(engineSeed, query.refId), setup.points, query.spikeFrequency);
    SeriesRun(setup, spikes.value, spikes.state)
  }

  /**
   * The frame built from a run's samples: all four columns have one entry
   * per point; times step by the interval from `from`; values are never
   * negative; scores lie in [0, 100] and each label is the one its score earns.
   */
  function FrameOf(query: Query, setup: Setup, samples: seq<Sample>): (frame: Frame)
    requires |samples| == setup.points
    ensures frame.refId == query.refId && frame.valueName == MetricName(query.metricType)
    ensures |frame.time| == |frame.values| == |frame.anomalyScores| == |frame.labels| == setup.points
    ensures forall k :: 0 <= k < |frame.time| ==> frame.time[k] == setup.from + k as real * setup.interval
    ensures forall k :: 0 <= k < |frame.values| ==> frame.values[k] >= 0.0
    ensures forall k :: 0 <= k < |frame.anomalyScores| ==> 0.0 <= frame.anomalyScores[k] <= 100.0
    ensures forall k :: 0 <= k < |frame.labels| ==>
      frame.labels[k] == LabelText(GenerateLabel(frame.anomalyScores[k], query.metricType))
  {
    Frame(query.refId, MetricName(query.metricType), TimeColumn(setup.from, setup.interval, setup.points),
          ValueColumn(samples), ScoreColumn(query.metricType, samples), LabelColumn(query.metricType, samples))
  }

  /** `generateTimeSeries`: the frame of the run for `query` over [from, to]; its time column steps from `from` by a `points`-th of the range. */
  function TimeSeries(math: MathLib, model: NoiseModel, engineSeed: int, query: Query, from: real, to: real): (frame: Frame)
    ensures frame.time == TimeColumn(from, (to - from) / CalculateDataPoints(from, to) as real, CalculateDataPoints(from, to))
  {
    FrameOf(query, SetupOf(math, model, query, from, to), SeriesSamples(math, model, engineSeed, query, from, to))
  }

  /** Over a forward range the timestamps start at `from`, strictly increase and stay below `to`. */
  lemma TimestampsIncrease(from: real, to: real, points: nat, j: nat, k: nat)
    requires from < to && j < k < points
    ensures TimeColumn(from, (to - from) / points as real, points)[0] == from
    ensures TimeColumn(from, (to - from) / points as real, points)[j] < TimeColumn(from, (to - from) / points as real, points)[k]
    ensures TimeColumn(from, (to - from) / points as real, points)[k] < to
  {
    var interval := (to - from) / points as real;
    assert interval > 0.0;
    assert TimeColumn(from, interval, points)[j] == from + j as real * interval;
    assert TimeColumn(from, interval, points)[k] == from + k as real * interval;
    MulPos((k - j) as real, interval);
    assert k as real * interval - j as real * interval == (k - j) as real * interval;
    MulPos((points - k) as real, interval);
    assert interval * points as real == to - from;
    assert points as real * interval - k as real * interval == (points - k) as real * interval;
  }

  /**
   * With a non-negative engine seed and a positive volatility, every index
   * drawn as a spike position gets a non-zero spike, hence a score of at least
   * 30 and a label above NORMAL.
   */
  lemma SpikedSamplesFlagged(math: MathLib, model: NoiseModel, engineSeed: int, query: Query, from: real, to: real, k: nat)
    requires engineSeed >= 0 && query.volatilityLevel > 0.0
    requires k < CalculateDataPoints(from, to)
    requires SpikePositions(QuerySeed(engineSeed, query.refId), CalculateDataPoints(from, to), query.spikeFrequency).value[k]
    ensures TimeSeries(math, model, engineSeed, query, from, to).anomalyScores[k] >= 30.0
    ensures TimeSeries(math, model, engineSeed, query, from, to).labels[k] != LabelText(NORMAL)
  {
    var setup := SetupOf(math, model, query, from, to);
    var spikes := SpikePositions(QuerySeed(engineSeed, query.refId), setup.points, query.spikeFrequency);
    var samples := SeriesRun(setup, spikes.value, spikes.state);
    assert samples[k].spike != 0.0;
    SpikedEntry(query, setup, samples, k);
  }

  /** A sample with a spike scores at least 30 in its frame and is not labelled NORMAL. */
  lemma SpikedEntry(query: Query, setup: Setup, samples: seq<Sample>, k: nat)
    requires |samples| == setup.points && k < setup.points && samples[k].spike != 0.0
    ensures FrameOf(query, setup, samples).anomalyScores[k] >= 30.0
    ensures FrameOf(query, setup, samples).labels[k] != LabelText(NORMAL)
  {
    var frame := FrameOf(query, setup, samples);
    assert frame.labels[k] == LabelText(LabelOf(query.metricType, samples[k]));
    LabelTextDistinct(LabelOf(query.metricType, samples[k]), NORMAL);
  }

  /** At most `SpikeCount` samples carry a spike. */
  lemma SpikedSamplesAtMost(math: MathLib, model: NoiseModel, engineSeed: int, query: Query, from: real, to: real)
    ensures CountTrue(SpikePositions(QuerySeed(engineSeed, query.refId), CalculateDataPoints(from, to), query.spikeFrequency).value)
         <= CalculateDataPoints(from, to) / 10
  {
    SpikeCountCapped(from, to, query.spikeFrequency);
  }
}
