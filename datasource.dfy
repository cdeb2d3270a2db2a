/**
 * The data source object: its configuration (engine seed and noise model,
 * with their fallbacks), the defaulting of each query target, the request
 * handler that maps every target to a frame, and the generator loop that
 * builds one frame.
 */
module DataSource {
  import opened Wrappers
  import opened JsNumber
  import opened Types
  import opened Random
  import opened Hash
  import opened Scoring
  import opened Signal
  import opened Spikes
  import opened Series

  /** The data source settings: both fields may be absent. */
  datatype Settings = Settings(engineSeed: Option<int>, noiseModel: Option<NoiseModel>)

  /**
   * `engineSeed || Date.now()`: a configured seed is kept unless it is falsy
   * (absent or 0), in which case the clock reading `now` is used.
   */
  function ConfiguredSeed(settings: Settings, now: int): (seed: int)
    ensures settings.engineSeed.Some? && settings.engineSeed.value != 0 ==> seed == settings.engineSeed.value
    ensures settings.engineSeed.None? || settings.engineSeed.value == 0 ==> seed == now
  {
    match settings.engineSeed
    case Some(s) => if s != 0 then s else now
    case None => now
  }

  /** `noiseModel || NoiseModel.GAUSSIAN`: the configured model, Gaussian when none is set. */
  function ConfiguredNoiseModel(settings: Settings): (model: NoiseModel)
    ensures settings.noiseModel.Some? ==> model == settings.noiseModel.value
    ensures settings.noiseModel.None? ==> model == Gaussian
  {
    match settings.noiseModel
    case Some(m) => m
    case None => Gaussian
  }

  /** A query target as the panel sends it: every field but the id may be missing. */
  datatype QueryTarget = QueryTarget(
    refId: seq<CodeUnit>,
    metricType: Option<string>,
    volatilityLevel: Option<real>,
    spikeFrequency: Option<real>)

  /** The one way a request fails: a target names a metric the catalog does not hold. */
  datatype QueryError = UnknownMetric(key: string)

  /**
   * The defaulting in `query`: the metric key falls back to "USI" when it is
   * missing or empty (`||`), the volatility to 50 and the frequency to 5 when
   * missing (`??`). A key outside the catalog makes the target fail.
   */
  function ResolveQuery(target: QueryTarget): (r: Result<Query, QueryError>)
    ensures r.Success? ==> r.value.refId == target.refId
    ensures r.Success? <==>
      ParseMetricType(if target.metricType.None? || target.metricType.value == "" then "USI" else target.metricType.value).Some?
    ensures target.metricType.Some? && target.metricType.value != "" ==>
      (r.Success? ==> MetricKey(r.value.metricType) == target.metricType.value)
    ensures r.Success? && target.volatilityLevel.Some? ==> r.value.volatilityLevel == target.volatilityLevel.value
    ensures r.Success? && target.spikeFrequency.Some? ==> r.value.spikeFrequency == target.spikeFrequency.value
    ensures target.metricType.None? || target.metricType.value == "" ==> r.Success? && r.value.metricType == USI
    ensures r.Success? && target.volatilityLevel.None? ==> r.value.volatilityLevel == 50.0
    ensures r.Success? && target.spikeFrequency.None? ==> r.value.spikeFrequency == 5.0
  {
    var key := if target.metricType.None? || target.metricType.value == "" then "USI" else target.metricType.value;
    var volatility := if target.volatilityLevel.Some? then target.volatilityLevel.value else 50.0;
    var frequency := if target.spikeFrequency.Some? then target.spikeFrequency.value else 5.0;
    match ParseMetricType(key)
    case Some(metric) => Success(Query(target.refId, metric, volatility, frequency))
    case None => Failure(UnknownMetric(key))
  }

  /** A target with nothing but an id gets the editor's default query. */
  lemma FallbacksAreDefaultQuery(refId: seq<CodeUnit>)
    ensures ResolveQuery(QueryTarget(refId, None, None, None))
         == Success(Query(refId, DefaultQuery.metricType, DefaultQuery.volatilityLevel, DefaultQuery.spikeFrequency))
    ensures ResolveQuery(QueryTarget(refId, Some(""), None, None)) == ResolveQuery(QueryTarget(refId, None, None, None))
  {
  }

  /**
   * The targets of a request resolved in order; the first target that does
   * not resolve fails them all.
   */
  function ResolveAll(targets: seq<QueryTarget>): (r: Result<seq<Query>, QueryError>)
    ensures r.Success? ==> |r.value| == |targets|
    decreases |targets|
  {
    if |targets| == 0 then Success([])
    else
      var n := |targets| - 1;
      match ResolveAll(targets[..n])
      case Failure(e) => Failure(e)
      case Success(queries) =>
        match ResolveQuery(targets[n])
        case Failure(e) => Failure(e)
        case Success(q) => Success(queries + [q])
  }

  /** Resolving a request succeeds exactly when every target resolves. */
  lemma {:induction false} ResolveAllSucceeds(targets: seq<QueryTarget>)
    ensures ResolveAll(targets).Success? <==> forall k :: 0 <= k < |targets| ==> ResolveQuery(targets[k]).Success?
    decreases |targets|
  {
    if |targets| > 0 {
      var n := |targets| - 1;
      ResolveAllSucceeds(targets[..n]);
      assert forall k :: 0 <= k < n ==> targets[..n][k] == targets[k];
    }
  }

  /** A successful resolution holds each target's query in its place. */
  lemma {:induction false} ResolveAllValue(targets: seq<QueryTarget>, k: nat)
    requires k < |targets| && ResolveAll(targets).Success?
    ensures ResolveQuery(targets[k]).Success?
    ensures ResolveAll(targets).value[k] == ResolveQuery(targets[k]).value
    decreases |targets|
  {
    var n := |targets| - 1;
    if k < n {
      ResolveAllValue(targets[..n], k);
      assert targets[..n][k] == targets[k];
    }
  }

  /** A failed resolution carries the error of the first target that does not resolve; every target before it resolves. */
  lemma {:induction false} ResolveAllFirstFailure(targets: seq<QueryTarget>) returns (k: nat)
    requires ResolveAll(targets).Failure?
    ensures k < |targets|
    ensures ResolveQuery(targets[k]) == Failure(ResolveAll(targets).error)
    ensures forall j :: 0 <= j < k ==> ResolveQuery(targets[j]).Success?
    decreases |targets|
  {
    var n := |targets| - 1;
    if ResolveAll(targets[..n]).Failure? {
      k := ResolveAllFirstFailure(targets[..n]);
      assert targets[..n][k] == targets[k];
    } else {
      k := n;
      ResolveAllSucceeds(targets[..n]);
    }
    forall j | 0 <= j < k
      ensures ResolveQuery(targets[j]).Success?
    {
      assert targets[..n][j] == targets[j];
    }
  }

  /** The frames of resolved queries, one each, in order. */
  function Frames(math: MathLib, model: NoiseModel, engineSeed: int, queries: seq<Query>, from: real, to: real)
    : (frames: seq<Frame>)
    ensures |frames| == |queries|
  {
    seq(|queries|, k requires 0 <= k < |queries| => TimeSeries(math, model, engineSeed, queries[k], from, to))
  }

  /** Answering one more query appends its frame. */
  lemma FramesAppend(math: MathLib, model: NoiseModel, engineSeed: int, queries: seq<Query>, q: Query, from: real, to: real)
    ensures Frames(math, model, engineSeed, queries + [q], from, to)
         == Frames(math, model, engineSeed, queries, from, to) + [TimeSeries(math, model, engineSeed, q, from, to)]
  {
    var long, short := Frames(math, model, engineSeed, queries + [q], from, to), Frames(math, model, engineSeed, queries, from, to);
    assert forall k :: 0 <= k < |queries| ==> long[k] == short[k];
  }

  /**
   * The response to a request: a frame per target, in order, when every
   * target resolves; the error of the first one that does not otherwise.
   */
  function Respond(math: MathLib, model: NoiseModel, engineSeed: int, targets: seq<QueryTarget>, from: real, to: real)
    : (r: Result<seq<Frame>, QueryError>)
    ensures r.Success? <==> ResolveAll(targets).Success?
    ensures r.Success? ==> |r.value| == |targets|
  {
    match ResolveAll(targets)
    case Success(queries) => Success(Frames(math, model, engineSeed, queries, from, to))
    case Failure(e) => Failure(e)
  }

  /** Each frame of a successful response is the series of its target's resolved query. */
  lemma RespondFrames(math: MathLib, model: NoiseModel, engineSeed: int, targets: seq<QueryTarget>, from: real, to: real, k: nat)
    requires k < |targets| && Respond(math, model, engineSeed, targets, from, to).Success?
    ensures ResolveQuery(targets[k]).Success?
    ensures Respond(math, model, engineSeed, targets, from, to).value[k]
         == TimeSeries(math, model, engineSeed, ResolveQuery(targets[k]).value, from, to)
  {
    ResolveAllValue(targets, k);
  }

  /** A request with a target whose metric is not in the catalog fails, with the error of the first such target. */
  lemma RespondFails(math: MathLib, model: NoiseModel, engineSeed: int, targets: seq<QueryTarget>, from: real, to: real, j: nat)
      returns (k: nat)
    requires j < |targets| && ResolveQuery(targets[j]).Failure?
    ensures Respond(math, model, engineSeed, targets, from, to).Failure?
    ensures k <= j && ResolveQuery(targets[k]) == Failure(Respond(math, model, engineSeed, targets, from, to).error)
    ensures forall i :: 0 <= i < k ==> ResolveQuery(targets[i]).Success?
  {
    ResolveAllSucceeds(targets);
    k := ResolveAllFirstFailure(targets);
  }

  /** The id of the self-test query, "test", as UTF-16 code units. */
  const TestRefId: seq<CodeUnit> := [0x74, 0x65, 0x73, 0x74]

  class AnomalyDataSource {
    var engineSeed: int
    var noiseModel: NoiseModel

    /** Reads the settings once; `now` is the clock reading `Date.now()` gives at construction. */
    constructor (settings: Settings, now: int)
      ensures engineSeed == ConfiguredSeed(settings, now)
      ensures noiseModel == ConfiguredNoiseModel(settings)
    {
      engineSeed := if settings.engineSeed.Some? && settings.engineSeed.value != 0 then settings.engineSeed.value else now;
      noiseModel := if settings.noiseModel.Some? then settings.noiseModel.value else Gaussian;
    }

    /** `query`: defaults every target and generates its frame, over the request's range [from, to]. */
    method Query(math: MathLib, targets: seq<QueryTarget>, from: real, to: real) returns (r: Result<seq<Frame>, QueryError>)
      ensures r == Respond(math, noiseModel, engineSeed, targets, from, to)
    {
      var data: seq<Frame> := [];
      ghost var queries: seq<Query> := [];
      for k := 0 to |targets|
        invariant ResolveAll(targets[..k]) == Success(queries)
        invariant data == Frames(math, noiseModel, engineSeed, queries, from, to)
      {
        assert targets[..k + 1][..k] == targets[..k];
        var query := ResolveQuery(targets[k]);
        if query.Failure? {
          ResolveAllFailureSticks(targets, k + 1);
          return Failure(query.error);
        }
        var frame := GenerateTimeSeries(math, query.value, from, to);
        FramesAppend(math, noiseModel, engineSeed, queries, query.value, from, to);
        data := data + [frame];
        queries := queries + [query.value];
      }
      assert targets[..|targets|] == targets;
      return Success(data);
    }

    /**
     * `testDatasource`: generates the frame of a fixed USI query over the hour
     * before the clock and reports "success" when it has rows. The two
     * clock readings (`Date.now()` is called once for each end of the range)
     * are parameters. Every range yields at least 200 rows, so the self-test
     * always succeeds.
     */
    method TestDatasource(math: MathLib, fromClock: real, toClock: real) returns (status: string)
      ensures status == "success"
    {
      var testQuery := Series.Query(TestRefId, USI, 50.0, 5.0);
      var frame := GenerateTimeSeries(math, testQuery, fromClock - 3600000.0, toClock);
      if |frame.time| > 0 {
        status := "success";
      } else {
        status := "error";
      }
    }

    /**
     * `generateTimeSeries`: seeds a generator with the engine seed plus the
     * hash of the query's id, draws the spike positions, then builds every
     * sample in order and fills the four columns.
     */
    method GenerateTimeSeries(math: MathLib, query: Query, from: real, to: real) returns (frame: Frame)
      ensures frame == TimeSeries(math, noiseModel, engineSeed, query, from, to)
    {
      var points := CalculateDataPoints(from, to);
      var hash := HashString(query.refId);
      var rng := new SeededRandom(RoundToDouble(engineSeed + hash));
      assert rng.seed == QuerySeed(engineSeed, query.refId);
      var spikePositions := GenerateSpikePositions(points, query.spikeFrequency, rng);
      ghost var spikes := SpikePositions(QuerySeed(engineSeed, query.refId), points, query.spikeFrequency);
      assert spikePositions[..] == spikes.value && rng.seed == spikes.state;
      var setup := SetupOf(math, noiseModel, query, from, to);
      var timeValues, values, anomalyScores, labels := GenerateColumns(setup, spikePositions, rng);
      frame := Frame(query.refId, MetricName(query.metricType), timeValues, values, anomalyScores, labels);
      assert frame == FrameOf(query, setup, SeriesRun(setup, spikes.value, spikes.state));
    }

    /**
     * The generator loop of `generateTimeSeries`: one sample per point, in
     * order, drawn from `rng`, spiked where `spikePositions` says, and
     * appended to the four columns.
     */
    method GenerateColumns(setup: Setup, spikePositions: array<bool>, rng: SeededRandom)
      returns (timeValues: seq<real>, values: seq<real>, anomalyScores: seq<real>, labels: seq<string>)
      requires setup.points == spikePositions.Length > 0
      modifies rng
      ensures timeValues == TimeColumn(setup.from, setup.interval, setup.points)
      ensures values == ValueColumn(SeriesRun(setup, spikePositions[..], old(rng.seed)))
      ensures anomalyScores == ScoreColumn(setup.query.metricType, SeriesRun(setup, spikePositions[..], old(rng.seed)))
      ensures labels == LabelColumn(setup.query.metricType, SeriesRun(setup, spikePositions[..], old(rng.seed)))
      ensures rng.seed == SampleStart(setup.model, spikePositions[..], old(rng.seed), setup.points)
    {
      var points := setup.points;
      var from, interval := setup.from, setup.interval;
      var metric := setup.query.metricType;
      ghost var flags := spikePositions[..];
      ghost var start := rng.seed;
      ghost var samples := SeriesRun(setup, flags, start);
      timeValues, values, anomalyScores, labels := [], [], [], [];

      for i := 0 to points
        invariant rng.seed == SampleStart(setup.model, flags, start, i)
        invariant timeValues == TimeColumn(from, interval, i)
        invariant values == ValueColumn(samples[..i])
        invariant anomalyScores == ScoreColumn(metric, samples[..i])
        invariant labels == LabelColumn(metric, samples[..i])
      {
        var timestamp := Timestamp(from, interval, i);
        var sample := GenerateSample(setup, i, spikePositions[i], rng);
        var anomalyScore := AnomalyScore(sample.raw, BaseValue(metric), sample.spike, sample.cluster);
        var level := GenerateLabel(anomalyScore, metric);

        NextSampleStart(setup, flags, start, i);
        assert sample == samples[i];
        TimeColumnAppend(from, interval, i);
        ColumnsAppend(metric, samples, i);
        timeValues := timeValues + [timestamp];
        values := values + [Max(0.0, sample.raw)];
        anomalyScores := anomalyScores + [anomalyScore];
        labels := labels + [LabelText(level)];
      }

      assert samples[..points] == samples;
    }

    /**
     * One pass of the generator loop: the value at index `i` built term by
     * term, drawing the volatility cluster, the noise and, at a spiked index,
     * the spike.
     */
    method GenerateSample(setup: Setup, i: nat, spiked: bool, rng: SeededRandom) returns (sample: Sample)
      requires setup.points > 0
      modifies rng
      ensures Drawn(sample, rng.seed) == SampleDraw(setup, i, spiked, old(rng.seed))
    {
      var query := setup.query;
      var metric := query.metricType;
      var math := setup.math;
      var normalizedTime := i as real / setup.points as real;

      var value := BaseValue(metric);
      value := value + Trend(math, normalizedTime, metric);
      value := value + Periodic(math, normalizedTime);
      ghost var start := rng.seed;
      var volatilityCluster := CalculateVolatilityCluster(math, normalizedTime, query.volatilityLevel, rng);
      ghost var cluster := Drawn(volatilityCluster, rng.seed);
      value := value + volatilityCluster;
      var intensity := NoiseIntensity(query.volatilityLevel);
      var noise := GenerateNoise(math, setup.model, rng, intensity);
      ghost var noiseDrawn := Drawn(noise, rng.seed);
      value := value + noise * VolatilityMultiplier(metric);
      var spikeValue := 0.0;
      if spiked {
        spikeValue := GenerateSpike(metric, query.volatilityLevel, rng);
      }
      value := value + spikeValue;
      sample := Sample(value, volatilityCluster, spikeValue);
      assert cluster == ClusterDraw(math, start, normalizedTime, query.volatilityLevel);
      assert noiseDrawn == NoiseDraw(math, setup.model, cluster.state, intensity);
      assert Drawn(spikeValue, rng.seed) == OptionalSpike(spiked, noiseDrawn.state, metric, query.volatilityLevel);
      assert value == Compose(BaseValue(metric), Trend(math, normalizedTime, metric), Periodic(math, normalizedTime),
        volatilityCluster, noise, VolatilityMultiplier(metric), spikeValue);
    }
  }

  /** Once a prefix of the targets fails to resolve, the whole request fails with the same error. */
  lemma {:induction false} ResolveAllFailureSticks(targets: seq<QueryTarget>, k: nat)
    requires k <= |targets| && ResolveAll(targets[..k]).Failure?
    ensures ResolveAll(targets) == ResolveAll(targets[..k])
    decreases |targets| - k
  {
    if k < |targets| {
      assert targets[..k + 1][..k] == targets[..k];
      ResolveAllFailureSticks(targets, k + 1);
    } else {
      assert targets[..k] == targets;
    }
  }
}
