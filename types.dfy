/**
 * The static catalog: metric and noise-model enumerations, the metadata
 * record and its constant table, and the default query values.
 */
module Types {
  import opened Wrappers

  /** The six metrics; each carries the string value of its enum member. */
  datatype MetricType = USI | LCL | VSS | MPW | SPS | ADF

  /** The three noise models selectable in the data source settings. */
  datatype NoiseModel = Gaussian | Uniform | Chaotic

  datatype MetricMetadata = MetricMetadata(
    name: string,
    description: string,
    baseValue: real,
    volatilityMultiplier: real)

  /** The string value of each `MetricType` member, which is also its key in the table. */
  function MetricKey(m: MetricType): string
  {
    match m
    case USI => "USI"
    case LCL => "LCL"
    case VSS => "VSS"
    case MPW => "MPW"
    case SPS => "SPS"
    case ADF => "ADF"
  }

  /** The member whose string value is `key`, if any: what indexing the table by a string finds. */
  function ParseMetricType(key: string): (r: Option<MetricType>)
    ensures r.Some? ==> MetricKey(r.value) == key
    ensures r.None? ==> forall m: MetricType :: MetricKey(m) != key
  {
    if key == "USI" then Some(USI)
    else if key == "LCL" then Some(LCL)
    else if key == "VSS" then Some(VSS)
    else if key == "MPW" then Some(MPW)
    else if key == "SPS" then Some(SPS)
    else if key == "ADF" then Some(ADF)
    else None
  }

  /** The six metrics in declaration order. */
  const AllMetrics: seq<MetricType> := [USI, LCL, VSS, MPW, SPS, ADF]

  /** The enumeration has exactly six members, each listed once. */
  lemma AllMetricsComplete(m: MetricType)
    ensures m in AllMetrics
    ensures |AllMetrics| == 6
    ensures forall i, j :: 0 <= i < j < |AllMetrics| ==> AllMetrics[i] != AllMetrics[j]
  {
    match m
    case USI => case LCL => case VSS => case MPW => case SPS => case ADF =>
  }

  /** The display name of each metric, the name of its value column. */
  function MetricName(m: MetricType): string
  {
    match m
    case USI => "Unexpected Spike Index"
    case LCL => "Liquidity Chaos Level"
    case VSS => "Volatility Storm Score"
    case MPW => "Market Panic Wave"
    case SPS => "Synthetic Price Shock"
    case ADF => "Algorithmic Distortion Factor"
  }

  /** Distinct metrics have distinct display names, so a value column names its metric. */
  lemma MetricNamesDistinct(m1: MetricType, m2: MetricType)
    ensures m1 != m2 ==> MetricName(m1) != MetricName(m2)
  {
  }

  /** The description the catalog gives each metric. */
  function MetricDescription(m: MetricType): string
  {
    match m
    case USI => "Measures sudden price movements that deviate from expected patterns"
    case LCL => "Quantifies market liquidity disruptions and order book imbalances"
    case VSS => "Tracks clustering of high-volatility periods"
    case MPW => "Detects coordinated selling pressure and fear-driven behavior"
    case SPS => "Simulates extreme price movements from external shocks"
    case ADF => "Identifies anomalies caused by automated trading systems"
  }

  /** The level a metric's series fluctuates around; always a positive divisor, between 30 and 200. */
  function BaseValue(m: MetricType): (b: real)
    ensures b > 0.0
    ensures 30.0 <= b <= 200.0
  {
    match m
    case USI => 100.0
    case LCL => 50.0
    case VSS => 75.0
    case MPW => 30.0
    case SPS => 200.0
    case ADF => 85.0
  }

  /** The factor the noise term is scaled by; between 1.5 and 4. */
  function VolatilityMultiplier(m: MetricType): (v: real)
    ensures 1.5 <= v <= 4.0
  {
    match m
    case USI => 1.5
    case LCL => 2.0
    case VSS => 2.5
    case MPW => 3.0
    case SPS => 4.0
    case ADF => 1.8
  }

  /** The metadata record of a metric, as the constant catalog holds it. */
  function Metadata(m: MetricType): (md: MetricMetadata)
    ensures 30.0 <= md.baseValue <= 200.0 && 1.5 <= md.volatilityMultiplier <= 4.0
    ensures md.name == MetricName(m) && md.description == MetricDescription(m)
  {
    MetricMetadata(MetricName(m), MetricDescription(m), BaseValue(m), VolatilityMultiplier(m))
  }

  /** No two metrics share a base value. */
  lemma BaseValuesDistinct(m1: MetricType, m2: MetricType)
    ensures m1 != m2 ==> BaseValue(m1) != BaseValue(m2)
  {
  }

  /** Keys and members correspond one to one: a key parses exactly when it is some member's value. */
  lemma {:induction false} MetricKeyRoundTrip(m: MetricType, key: string)
    ensures ParseMetricType(MetricKey(m)) == Some(m)
    ensures ParseMetricType(key) == Some(m) <==> key == MetricKey(m)
  {
  }

  /** The default values of the query fields the editor controls. */
  datatype QueryDefaults = QueryDefaults(metricType: MetricType, volatilityLevel: real, spikeFrequency: real)

  const DefaultQuery: QueryDefaults := QueryDefaults(USI, 50.0, 5.0)
}
