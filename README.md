# Financial Anomaly Engine — a Dafny model

This project models the core of a Grafana data source plugin that makes up
financial time series. A request holds query targets. For each target the
data source picks a metric (USI, LCL, VSS, MPW, SPS, ADF), a volatility level
and a spike frequency. It then produces a frame with four equally long
columns: time, value, anomaly score and label. Everything is deterministic:

- a linear congruential generator, `seed = (seed * 9301 + 49297) % 233280`, is
  seeded with the data source's engine seed plus a 32-bit string hash of the
  query's `refId`;
- it places the spikes first;
- then, for every point in order, it draws a volatility cluster (two Box-Muller
  Gaussians), a noise term (Gaussian, uniform or logistic-map chaotic, chosen in
  the data source settings) and, at a spiked index, a spike.

A sample's value is the sum of:

- the metric's base value;
- a metric-specific trend and a fixed periodic term;
- the cluster;
- the scaled noise;
- the spike.

The score is derived from the deviation, a spike bonus and a cluster bonus. The
label is derived from the score.

Files and what each module holds:

- `js_number.dfy`: the JavaScript number semantics the engine relies on.
  Doubles are rounded when the register gets large. `%` truncates. `<<` and
  `&` go through the signed 32-bit conversion. The `Math` functions are passed
  in as uninterpreted functions.
- `types.dfy`: the metric and noise-model enumerations, the metadata catalog
  and the default query.
- `seeded_random.dfy`: the generator, both as functions on the register and as
  the `SeededRandom` class.
- `hash.dfy`: `hashString`.
- `scoring.dfy`: `calculateAnomalyScore` and `generateLabel`.
- `signal.dfy`: trend, periodic term, volatility cluster, noise and spike.
  Each one that draws is modelled three ways:
  - as a function of the draws it takes;
  - as a function of the register (`…Draw`);
  - as a method on the generator object.
- `spikes.dfy`: `generateSpikePositions`.
- `series.dfy`: `calculateDataPoints` and the whole series as a specification.
  A run of samples, each drawn from the register state the samples before it
  leave, becomes a frame.
- `datasource.dfy`: the `AnomalyDataSource` class. It holds the configuration
  fallbacks, the target defaulting in `query`, the generator loop of
  `generateTimeSeries` (proved equal to the specification in `series.dfy`) and
  `testDatasource`.

Every call to the generator is tracked. Each drawing function has a
`…DrawCount` lemma that says how many numbers it takes and where they sit in
the seed's draw sequence. For example, `gaussian` takes `u1` and then `u2`
(src/datasource.ts:36-38), and the volatility cluster takes two Gaussians,
four draws in all (src/datasource.ts:219-230).

Facts about the code that the model keeps:

- The +30 score bonus is given when the spike value is non-zero
  (`Math.abs(spikeValue) > 0`, src/datasource.ts:277), not whenever an index is flagged. A flagged
  index with volatility 0 gets no bonus.
- `query` does not check the range. A range with `to < from` still yields 200 points,
  with a negative interval.
- A target whose metric key is not in the catalog makes `generateTimeSeries`
  throw at src/datasource.ts:102. The whole `query` call then rejects, not
  just that series.
  `ResolveQuery` and `Respond` model this as a `Failure` of the whole request,
  carrying the first such key.

## Model

| member | source | states |
|---|---|---|
| JsNumber.Abs | src/datasource.ts:315 | `Math.abs` of an integer is non-negative and is the integer or its negation |
| JsNumber.Min | src/datasource.ts:173 | `Math.min` is one of its arguments and not above either |
| JsNumber.Max | src/datasource.ts:134 | `Math.max` is one of its arguments and not below either |
| JsNumber.AbsReal | src/datasource.ts:272 | `Math.abs` of a number is non-negative and is the number or its negation |
| JsNumber.JsRem | src/datasource.ts:30 | the `%` remainder takes the dividend's sign: in [0, m) for a non-negative dividend, in (-m, 0] for a negative one |
| JsNumber.JsRemCongruent | src/datasource.ts:30 | the `%` remainder differs from the dividend by a multiple of m |
| JsNumber.RoundHalfEven | src/datasource.ts:30 | the result is a multiple of p within p/2 of a; at a tie it is the multiple with an even quotient |
| JsNumber.Ulp | src/datasource.ts:30 | the spacing of doubles around a magnitude of at least 2^53: the power of two q with 2^53·q ≤ 2a < 2^54·q |
| JsNumber.RoundToDouble | src/datasource.ts:30 | rounding an integer result to a double leaves it unchanged below 2^53 in magnitude and keeps its sign |
| JsNumber.RoundMagnitudeNearest | src/datasource.ts:30 | rounding a magnitude at the spacing it reaches gives a multiple of that spacing within half a spacing, a tie going to the even multiple |
| JsNumber.RoundToDoubleNearest | src/datasource.ts:30 | from 2^53 up, the rounded integer is a multiple of the double spacing `Ulp` within half a spacing of it, a tie going to the even multiple; a negative integer rounds to the negation of its magnitude's rounding |
| JsNumber.RoundToDoubleAt | src/datasource.ts:176 | an integer whose double spacing is p rounds to the nearest multiple of p, ties to even |
| JsNumber.RoundToDoubleRelative | src/datasource.ts:176 | rounding a non-negative integer to a double moves it by at most a 2^53-th of its value |
| JsNumber.RoundKeepsHalf | src/datasource.ts:30 | rounding a non-positive integer never moves it above half its value, so a negative product stays negative after rounding |
| JsNumber.ToInt32 | src/datasource.ts:313 | `hash & hash` lands in the signed 32-bit range and leaves a value already there unchanged |
| JsNumber.ShiftLeft5 | src/datasource.ts:312 | `hash << 5` is a signed 32-bit value |
| Types.ParseMetricType | src/types.ts:7-14 | looking a key up finds the member whose string value it is, and nothing exactly when no member has that value |
| Types.MetricKeyRoundTrip | src/types.ts:7-14 | every member's key parses back to it, and a key parses to a member only if it is that member's key |
| Types.AllMetricsComplete | src/types.ts:7-14 | the metric enumeration has exactly six distinct members |
| Types.MetricKey | src/types.ts:7-14 | each member's string value; `MetricKeyRoundTrip` states that it parses back to the member |
| Types.MetricName | src/types.ts:71-108 | each metric's display name in the catalog; `MetricNamesDistinct` states that they differ |
| Types.MetricNamesDistinct | src/types.ts:71-108 | no two metrics share a display name, so a value column's name identifies its metric |
| Types.MetricDescription | src/types.ts:71-108 | each metric's description in the catalog; no contract |
| Types.Metadata | src/types.ts:61-66 | the catalog record of a metric carries its own name and description, a base value in [30, 200] and a noise multiplier in [1.5, 4] |
| Types.DefaultQuery | src/types.ts:37-41 | the default query: USI, volatility 50, frequency 5; `FallbacksAreDefaultQuery` states that a bare target gets it |
| Types.BaseValue | src/types.ts:71-108 | every catalog base value is positive and lies in [30, 200], so it is a safe divisor for the score |
| Types.VolatilityMultiplier | src/types.ts:71-108 | every noise multiplier lies in [1.5, 4] |
| Types.BaseValuesDistinct | src/types.ts:71-108 | no two metrics share a base value |
| Random.Dividend | src/datasource.ts:30 | `seed * 9301 + 49297` with both operations rounded to doubles; exact while the exact value stays below 2^53 in magnitude; non-negative for a non-negative register |
| Random.Step | src/datasource.ts:30 | the new register lies strictly within ±233280, in [0, 233280) from a non-negative register |
| Random.StepCongruent | src/datasource.ts:30 | the new register is congruent to the rounded dividend modulo 233280 and takes its sign |
| Random.StepExact | src/datasource.ts:30 | while the exact dividend is below 2^53 in magnitude no rounding happens: the update is the truncating remainder, the Euclidean one for a non-negative register |
| Random.ClockSeedStep | src/datasource.ts:30 | for the clock-sized seed 1700000000065 rounding moves the dividend by 2, and the first update gives 147300, not the exact remainder 147302 |
| Random.NegativeRegisterStep | src/datasource.ts:30 | a register at most -6 has a negative dividend, so the next register and its draw are not positive |
| Random.NegativeSeedStep | src/datasource.ts:30-31 | the seed -999935 (engine seed -1000000 plus the hash of "A") steps to -172378, a negative draw |
| Random.NegativeRegisterRecovers | src/datasource.ts:30 | a negative register can return: -210637 steps to 0, and -6401 steps to -4, which steps to the positive 12093 |
| Random.Unit | src/datasource.ts:31 | `next()` returns a number in [0, 1) for a non-negative register, and that number times 233280 is the register |
| Random.UnitBinade | src/datasource.ts:31 | for a register n in (0, 233280) the power of two b that brings n·b into [233280/2, 233280), the binade of the quotient |
| Random.UnitScale | src/datasource.ts:31 | the scale 2^53·b: the quotient n / 233280 times the scale lies in [2^52, 2^53), so the scaled quotient has a 53-bit integer part |
| Random.UnitSignificand | src/datasource.ts:31 | the double of n / 233280 as an integer over `UnitScale(n)`: within half a unit of the exact scaled quotient, a tie going to the even integer, and below the scale so the double is below 1 |
| Random.Iterate | src/datasource.ts:29-32 | after at least one call the register is bounded by the modulus, and a non-negative seed keeps it non-negative |
| Random.Draws | src/datasource.ts:29-32 | a non-negative seed yields only draws in [0, 1), as many as requested |
| Random.IterateAdd | src/datasource.ts:29-32 | m calls followed by n calls leave the register where m + n calls do |
| Random.DrawsAdd | src/datasource.ts:29-32 | the draw sequence of a seed is its first m draws followed by the draws of the state reached after m calls |
| Random.NextDraw | src/datasource.ts:29-32 | from a non-negative register `next()` returns a value in [0, 1) and leaves a non-negative register |
| Random.NextDrawCount | src/datasource.ts:29-32 | `next()` takes exactly one draw, the first of the state's sequence |
| Random.UniformOf | src/datasource.ts:43 | a unit draw mapped by `uniform` lies in [min, max) when min < max, and is min when min = max |
| Random.UniformDraw | src/datasource.ts:42-44 | from a non-negative register `uniform(min, max)` returns a value in [min, max) |
| Random.UniformDrawCount | src/datasource.ts:42-44 | `uniform` takes exactly one draw |
| Random.BoxMuller | src/datasource.ts:38 | the standard normal `sqrt(-2 log u1) * cos(2 pi u2)`; no bound is claimed, since `Math` is uninterpreted |
| Random.GaussianOf | src/datasource.ts:38-39 | a zero standard deviation returns the mean |
| Random.GaussianDraw | src/datasource.ts:34-40 | a zero standard deviation returns the mean whatever the draws; a non-negative register stays non-negative |
| Random.GaussianDrawCount | src/datasource.ts:34-40 | `gaussian` takes exactly two draws, the first into the logarithm and the second into the cosine |
| Random.ZeroDrawReachable | src/datasource.ts:30-38 | register 22643 steps to 0, so `next()` can return 0, and a Gaussian taken there passes 0 to `Math.log` |
| Random.SeededRandom.constructor | src/datasource.ts:25-27 | the register starts at the given seed |
| Random.SeededRandom.Next | src/datasource.ts:29-32 | returns and stores exactly `NextDraw` of the old register |
| Random.SeededRandom.Gaussian | src/datasource.ts:34-40 | returns and stores exactly `GaussianDraw` of the old register |
| Random.SeededRandom.Uniform | src/datasource.ts:42-44 | returns and stores exactly `UniformDraw` of the old register |
| Hash.HashStep | src/datasource.ts:311-313 | one loop step is `31 * hash + char` wrapped to signed 32 bits |
| Hash.ShiftSubtractIsTimes31 | src/datasource.ts:312 | `(h << 5) - h + c` agrees with `31 * h + c` after the 32-bit wrap, for any h |
| Hash.HashFold | src/datasource.ts:308-314 | the loop's hash is a signed 32-bit value |
| Hash.HashIsWrappedPolynomial | src/datasource.ts:308-314 | the hash is the base-31 polynomial of the code units wrapped once to signed 32 bits, however long the string |
| Hash.EmptyHash | src/datasource.ts:309-315 | the empty string hashes to 0 |
| Hash.HashString | src/datasource.ts:308-316 | returns the absolute value of the loop's hash, a value in [0, 2^31] |
| Scoring.DeviationScore | src/datasource.ts:272-275 | the deviation term is non-negative, and zero when the value equals the base value |
| Scoring.RawScore | src/datasource.ts:272-283 | the unclamped score is the deviation plus at most 50, and equals the deviation exactly when there is no spike and no cluster beyond ±10 |
| Scoring.AnomalyScore | src/datasource.ts:266-286 | the score lies in [0, 100]: the raw score when it is in range, 100 above, 0 below; a non-zero spike forces at least 30, a cluster beyond ±10 at least 20, both together at least 50 |
| Scoring.SpikeBonus | src/datasource.ts:277-279 | a non-zero spike adds exactly 30 to the raw score and a zero spike adds nothing; the spike's size does not matter |
| Scoring.ClusterBonus | src/datasource.ts:281-283 | a cluster beyond magnitude 10 adds exactly 20 to the raw score, and one within ±10 adds nothing |
| Scoring.LabelText | src/datasource.ts:291-303 | the label strings; `LabelTextDistinct` states that they differ |
| Scoring.LabelTextDistinct | src/datasource.ts:291-303 | distinct labels have distinct texts, so the label column determines each label |
| Scoring.GenerateLabel | src/datasource.ts:291-303 | CRITICAL iff score > 80, HIGH iff in (60, 80], MEDIUM iff in (40, 60], LOW iff in (20, 40], NORMAL iff ≤ 20 |
| Scoring.LabelIgnoresMetric | src/datasource.ts:291 | the label does not depend on the metric argument |
| Scoring.LabelMonotone | src/datasource.ts:291-303 | a higher score never gets a less severe label |
| Scoring.SpikedIsNotNormal | src/datasource.ts:266-303 | a sample with a non-zero spike is labelled LOW or above |
| Signal.Trend | src/datasource.ts:186-203 | VSS's linear trend stays in [-10, 10) over the run; with sine and cosine in [-1, 1] the USI, LCL and SPS trends stay within ±15, ±10 and ±30 |
| Signal.Periodic | src/datasource.ts:208-214 | with sine and cosine in [-1, 1] the periodic term stays within ±14; it takes no draw |
| Signal.ClusterStrength | src/datasource.ts:226-227 | the cluster strength `exp(-abs(t - centre) * 10)`; no bound is claimed, since `Math.exp` is uninterpreted |
| Signal.ClusterValue | src/datasource.ts:219-230 | volatility 0 gives a zero cluster whatever the draws |
| Signal.ClusterDraw | src/datasource.ts:219-230 | volatility 0 gives a zero cluster; a non-negative register stays non-negative |
| Signal.ClusterDrawCount | src/datasource.ts:219-230 | the cluster takes exactly four draws: two for the centre's Gaussian, then two for the amplitude's |
| Signal.ClusterOf | src/datasource.ts:229 | a zero amplitude gives a zero cluster whatever the strength |
| Signal.Logistic | src/datasource.ts:244-245 | the logistic step with r = 3.9 maps [0, 1] into [0, 0.975] |
| Signal.ChaoticOf | src/datasource.ts:243-246 | chaotic noise from a unit draw lies in [-10, 9.5] times the intensity; intensity 0 gives 0 |
| Signal.NoiseValue | src/datasource.ts:235-250 | uniform noise lies in [-10, 10) times the intensity, chaotic in [-10, 9.5] times it; intensity 0 gives zero noise for every model |
| Signal.NoiseDraw | src/datasource.ts:235-250 | a non-negative register stays non-negative |
| Signal.NoiseDrawCount | src/datasource.ts:235-250 | Gaussian noise takes exactly two draws, uniform and chaotic noise one each, from the front of the sequence |
| Signal.SpikeOf | src/datasource.ts:257-260 | with a positive scale a spike is non-zero, upward exactly when the direction draw exceeds 0.5, and between half and twice the scale in magnitude |
| Signal.SpikeValue | src/datasource.ts:255-261 | the same for unit draws: non-zero with a positive scale, upward iff the first draw exceeds 0.5, magnitude within [0.5, 2] times the scale |
| Signal.SpikeScale | src/datasource.ts:258 | the scale `baseValue * (volatilityLevel / 50)` is non-negative for non-negative inputs and is the base value at volatility 50 |
| Signal.SpikeDraw | src/datasource.ts:255-261 | from a non-negative register with a positive scale the spike is non-zero |
| Signal.SpikeDrawCount | src/datasource.ts:255-261 | a spike takes exactly two draws: the direction first, then the uniform factor |
| Signal.CalculateVolatilityCluster | src/datasource.ts:219-230 | returns and leaves in the generator exactly `ClusterDraw` of the old register |
| Signal.GenerateNoise | src/datasource.ts:235-250 | returns and leaves in the generator exactly `NoiseDraw` of the old register |
| Signal.GenerateSpike | src/datasource.ts:255-261 | returns and leaves in the generator exactly `SpikeDraw` of the old register |
| Spikes.LoopCount | src/datasource.ts:175 | the loop `i < bound` runs the least natural number of times not below the bound |
| Spikes.LoopCountOfNat | src/datasource.ts:175 | a whole-number bound k gives exactly k iterations |
| Spikes.SpikeCount | src/datasource.ts:173-175 | the spike loop runs ceil(min(frequency, points / 10)) times |
| Spikes.SpikeCountWhole | src/datasource.ts:173-175 | for a whole frequency and a multiple of ten points the loop runs exactly min(frequency, points / 10) times |
| Spikes.SpikeBound | src/datasource.ts:173 | the loop bound is one of frequency and points / 10 and exceeds neither |
| Spikes.SlotOf | src/datasource.ts:176 | `Math.floor(rng.next() * points)` in doubles, for the register `next()` has just set: the quotient by 233280 and then the product are rounded to doubles before the floor; the index is below points, and in [0, points) for a non-negative register |
| Spikes.SlotNearExact | src/datasource.ts:176 | for a non-negative register the double index is the exact floor of `register * points / 233280`, or one less, and one less only when that quotient is a whole number |
| Spikes.SlotShortfall | src/datasource.ts:176 | the double index is one less than the exact floor for the registers 134136 at 200 points (114, not 115), 81648 at 700 (244, not 245) and 163296 at 700 (489, not 490) |
| Spikes.SpikeTargets | src/datasource.ts:175-176 | the k-th spike draw lands on `SlotOf` of the (k+1)-th register, an index below points, not negative from a non-negative seed |
| Spikes.Mark | src/datasource.ts:177 | marking never changes the array's length |
| Spikes.SpikeFlags | src/datasource.ts:171-178 | the flag array always has one entry per point |
| Spikes.SpikeFlagsAreTargets | src/datasource.ts:171-178 | an index is flagged exactly when some spike draw landed on it |
| Spikes.SpikedAtMost | src/datasource.ts:171-178 | after n spike draws at most n indices are flagged |
| Spikes.SpikePositions | src/datasource.ts:171-181 | one flag per point, at most as many flags as iterations, and the generator advanced by exactly that many draws |
| Spikes.GenerateSpikePositions | src/datasource.ts:171-181 | returns a new array with exactly the flags of `SpikePositions` and leaves the generator in its state |
| Series.CalculateDataPoints | src/datasource.ts:153-166 | 200 iff under an hour, 500 iff under a day, 700 iff under a week, 1000 otherwise; always a multiple of ten |
| Series.DataPointsMonotone | src/datasource.ts:153-166 | a longer range never yields fewer points |
| Series.SpikeCountCapped | src/datasource.ts:173 | at most a tenth of the points get spike draws, whatever the frequency |
| Series.Timestamp | src/datasource.ts:98 | the first timestamp is `from`, and with a positive interval every later one lies above it |
| Series.Compose | src/datasource.ts:101-119 | the raw value as the sum of base value, trend, periodic term, cluster, scaled noise and spike; stated through `SampleDraw` |
| Series.NoiseIntensity | src/datasource.ts:115 | the intensity is the volatility level read as a percentage, in [0, 1] for a level in [0, 100] |
| Series.OptionalSpike | src/datasource.ts:119 | an unflagged index takes no draw and gets 0; a flagged one with positive volatility gets a non-zero spike |
| Series.SampleDraw | src/datasource.ts:98-120 | an unflagged sample has no spike; a flagged one with positive volatility has a non-zero one; volatility 0 gives a zero cluster |
| Series.SampleDrawCount | src/datasource.ts:98-120 | one sample takes 4 draws, plus the noise model's share, plus 2 when spiked |
| Series.SeriesDrawsTotal | src/datasource.ts:97-137 | n samples take n·(4 + noise share) draws plus 2 per spiked sample |
| Series.SampleStart | src/datasource.ts:97-137 | the register each sample starts from is non-negative for a non-negative seed |
| Series.SeriesRun | src/datasource.ts:95-137 | one sample per flag; unflagged samples carry no spike; flagged ones carry a non-zero spike from a non-negative seed with positive volatility |
| Series.NextSampleStart | src/datasource.ts:97-137 | drawing sample k from its start state leaves exactly the state sample k + 1 starts from |
| Series.OutputValue | src/datasource.ts:134 | the value column is never negative: a non-negative raw value is kept and a negative one becomes 0 |
| Series.ScoreOf | src/datasource.ts:123-128 | the score column lies in [0, 100] and is at least 30 for a sample with a spike |
| Series.QuerySeed | src/datasource.ts:87 | the generator seed is the engine seed plus the hash, exactly while the sum is below 2^53, and non-negative for a non-negative engine seed |
| Series.SetupOf | src/datasource.ts:83-84 | a run always has at least one point and the point count of `calculateDataPoints` |
| Series.SeriesSamples | src/datasource.ts:80-137 | one sample per point |
| Series.LabelOf | src/datasource.ts:131 | a sample is labelled NORMAL iff its score is at most 20, never when it carries a spike |
| Series.FrameOf | src/datasource.ts:133-147 | same refId, the metric's display name, four columns of one entry per point, times stepping from `from`, values ≥ 0, scores in [0, 100], each label the one its score earns |
| Series.TimeSeries | src/datasource.ts:80-148 | the time column steps from `from` by a `points`-th of the range |
| Series.TimestampsIncrease | src/datasource.ts:84-98 | over a forward range the timestamps start at `from`, strictly increase and stay below `to` |
| Series.SpikedEntry | src/datasource.ts:123-131 | in a frame, a sample carrying a spike scores at least 30 and is not labelled NORMAL |
| Series.SpikedSamplesFlagged | src/datasource.ts:80-148 | with a non-negative engine seed and positive volatility every flagged index scores at least 30 and is not labelled NORMAL |
| Series.SpikedSamplesAtMost | src/datasource.ts:95 | at most a tenth of the points of a series are spiked |
| DataSource.ConfiguredSeed | src/datasource.ts:53 | a configured non-zero seed is kept; an absent or zero seed is replaced by the clock |
| DataSource.ConfiguredNoiseModel | src/datasource.ts:54 | a configured noise model is kept; Gaussian is used when none is set |
| DataSource.ResolveQuery | src/datasource.ts:64-69 | a target resolves iff its metric key (USI when missing or empty) is in the catalog; the id and every given field are kept; a missing or empty metric resolves to USI, a missing volatility to 50, a missing frequency to 5 |
| DataSource.FallbacksAreDefaultQuery | src/types.ts:37-41 | a target with only an id (or an empty metric) gets exactly the default query USI / 50 / 5 |
| DataSource.Frames | src/datasource.ts:63-72 | one series frame per resolved query, in order |
| DataSource.ResolveAll | src/datasource.ts:63-72 | a resolved request has one query per target |
| DataSource.ResolveAllSucceeds | src/datasource.ts:63-72 | a request resolves iff every target does |
| DataSource.ResolveAllValue | src/datasource.ts:63-72 | a resolved request holds each target's own query in its place |
| DataSource.ResolveAllFirstFailure | src/datasource.ts:63-72 | a failed request carries the error of the first unresolvable target; every target before it resolves |
| DataSource.ResolveAllFailureSticks | src/datasource.ts:63-72 | once some prefix of the targets fails to resolve, the whole request fails with that prefix's error |
| DataSource.Respond | src/datasource.ts:60-75 | a response succeeds iff the targets resolve, and then has one frame per target |
| DataSource.RespondFrames | src/datasource.ts:60-75 | the k-th frame of a successful response is the series of the k-th target's resolved query |
| DataSource.RespondFails | src/datasource.ts:60-75 | a target with an unknown metric fails the request, with the error of the first such target |
| DataSource.AnomalyDataSource.constructor | src/datasource.ts:51-55 | the engine seed and the noise model are the configured ones with their fallbacks |
| DataSource.AnomalyDataSource.Query | src/datasource.ts:60-75 | returns exactly `Respond` of its configuration and the targets |
| DataSource.AnomalyDataSource.TestDatasource | src/datasource.ts:321-356 | the self-test reports success for any clock readings |
| DataSource.AnomalyDataSource.GenerateTimeSeries | src/datasource.ts:80-148 | the frame the loop builds is exactly `TimeSeries` of the configuration, the query and the range |
| DataSource.AnomalyDataSource.GenerateColumns | src/datasource.ts:89-137 | the four pushed columns are exactly the time, value, score and label columns of the run drawn from the generator's state |
| DataSource.AnomalyDataSource.GenerateSample | src/datasource.ts:98-120 | one pass of the loop body returns exactly `SampleDraw` of the old register and leaves its state |

## Left out

- Floating point: values, scores and timestamps are exact reals. Rounding
  is modelled where it decides which numbers are drawn or which indices are
  spiked: the generator register, and the quotient `seed / 233280` and its
  product with the point count when a spike index is drawn (`Spikes.SlotOf`).
  Elsewhere `next()` is the exact quotient, and sums, products and divisions
  of values are not rounded.
- Infinity and NaN: `Math.log(0)` (reachable, see `Random.ZeroDrawReachable`)
  and overflow of very large seeds are not represented. `Math.sin`, `cos`, `tan`, `exp`, `log`
  and `sqrt` are uninterpreted functions passed in as a `MathLib` value;
  bounds that need them assume sine and cosine lie in [-1, 1].
- Series.FrameOf: values ≥ 0 and scores in [0, 100] hold of the real-valued
  model for every engine seed, but not of the source for a negative one. A
  negative configured seed is kept by src/datasource.ts:53, and when it
  outweighs the hash the register goes negative (`Random.NegativeSeedStep`,
  `Random.NegativeRegisterStep`). Then `u1` is negative, `Math.log(u1)` at
  src/datasource.ts:38 is NaN, `Math.max(0, NaN)` (:134) and the clamp
  (:285) let it through, and while the register stays at or below -6
  (`Random.NegativeRegisterStep`) the value and score columns hold NaN with
  every label NORMAL. The register can also reach 0 or [-5, -1] and turn
  positive (`Random.NegativeRegisterRecovers`); the samples after that are
  ordinary. The uninterpreted `log` does not represent NaN.
- Date.now(): the clock is a parameter of the constructor and of
  `TestDatasource`. Engine seeds are whole numbers; a fractional configured
  seed is not modelled.
- `TestDatasource` models the status only; the message text with the noise
  model and seed interpolated is not modelled.
- Grafana glue: `MutableDataFrame` is the `Frame` record, with its field
  names, types and the promise wrapper of `query` left out. The React
  editors, the plugin module file and the build configuration are not part
  of this model.
- Noise models outside the enumeration (a settings value that is none of
  the three strings) and the `default` branches of `calculateTrend` and
  `generateNoise` are not modelled: the noise model and metric are
  enumerations here.
- A metric key naming a property every JavaScript object has (such as
  "toString") finds a non-catalog value instead of nothing; the model treats
  it like any unknown key.
- `calculatePeriodicComponent` receives the generator but draws nothing;
  the model's `Periodic` takes no generator.
- The private helper methods (`calculateTrend`, `generateNoise`, …) are
  module-level functions and methods taking the generator; they read no
  data source field except the noise model, which is passed in.
- Signal.NoiseDraw, Signal.ClusterDraw: bounds on Gaussian noise and on the
  cluster are not stated, because they depend on `Math.log` and `Math.sqrt`.
- Series.SeriesSamples: states only the length. The content of each sample
  is stated by `SeriesRun` and `SampleDraw`, and connected to the loop by
  `GenerateColumns`.
- Spikes.SpikePositions: a negative register can yield a negative index.
  The source writes it as an object property, which leaves the elements
  alone. The model drops it (`Mark`) and proves the bounds only for a
  non-negative seed.
