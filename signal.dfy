/**
 * The signal composer's terms: the metric's trend, the fixed periodic
 * harmonics, the volatility cluster, the noise model and the spike. The
 * value functions give each term from the draws it consumes, the draw
 * functions follow the engine's calls on the generator, and a lemma per term
 * shows the two agree; the methods are the engine's own steps.
 */
module Signal {
  import opened JsNumber
  import opened Types
  import opened Random

  /** `calculateTrend`: a closed form in the normalized time `t`, chosen by metric. */
  function Trend(math: MathLib, t: real, metric: MetricType): (r: real)
    ensures metric == VSS && 0.0 <= t < 1.0 ==> -10.0 <= r < 10.0
    ensures SinCosBounded(math) && metric == USI ==> -15.0 <= r <= 15.0
    ensures SinCosBounded(math) && metric == LCL ==> -10.0 <= r <= 10.0
    ensures SinCosBounded(math) && metric == SPS ==> -30.0 <= r <= 30.0
  {
    match metric
    case USI => math.sin(t * Pi * 2.0) * 15.0
    case LCL => math.cos(t * Pi * 3.0) * 10.0
    case VSS => t * 20.0 - 10.0
    case MPW => math.exp(-t * 2.0) * 25.0
    case SPS => math.sin(t * Pi * 4.0) * 30.0
    case ADF => math.tan(t * Pi / 2.0) * 5.0
  }

  /** `calculatePeriodicComponent`: three harmonics of amplitude 8, 4 and 2; it takes no draw. */
  function Periodic(math: MathLib, t: real): (r: real)
    ensures SinCosBounded(math) ==> -14.0 <= r <= 14.0
  {
    var freq1 := math.sin(t * Pi * 8.0) * 8.0;
    var freq2 := math.cos(t * Pi * 16.0) * 4.0;
    var freq3 := math.sin(t * Pi * 32.0) * 2.0;
    freq1 + freq2 + freq3
  }

  /** The cluster strength `exp(-|t - center| * 10)`. */
  function ClusterStrength(math: MathLib, t: real, center: real): real
  {
    math.exp(-AbsReal(t - center) * 10.0)
  }

  /**
   * `calculateVolatilityCluster` on its four draws `us`: the first two give a
   * Gaussian centre around 0.5, the last two a Gaussian amplitude scaled by
   * `volatilityLevel / 10`; with volatility 0 the term vanishes.
   */
  function ClusterValue(math: MathLib, t: real, volatilityLevel: real, us: seq<real>): (c: real)
    requires |us| == 4
    ensures volatilityLevel == 0.0 ==> c == 0.0
  {
    var center := 0.5 + GaussianOf(math, us[0], us[1], 0.0, 0.2);
    var amplitude := GaussianOf(math, us[2], us[3], 0.0, volatilityLevel / 10.0);
    ClusterOf(amplitude, ClusterStrength(math, t, center))
  }

  /** The cluster as the engine draws it: a Gaussian for the centre, then a Gaussian for the amplitude. */
  function ClusterDraw(math: MathLib, state: int, t: real, volatilityLevel: real): (d: Drawn<real>)
    ensures state >= 0 ==> d.state >= 0
    ensures volatilityLevel == 0.0 ==> d.value == 0.0
  {
    var center := GaussianDraw(math, state, 0.0, 0.2);
    var amplitude := GaussianDraw(math, center.state, 0.0, volatilityLevel / 10.0);
    Drawn(ClusterOf(amplitude.value, ClusterStrength(math, t, 0.5 + center.value)), amplitude.state)
  }

  /** The cluster takes exactly the first four draws of the state. */
  lemma ClusterDrawCount(math: MathLib, state: int, t: real, volatilityLevel: real)
    ensures ClusterDraw(math, state, t, volatilityLevel)
         == Drawn(ClusterValue(math, t, volatilityLevel, Draws(state, 4)), Iterate(state, 4))
  {
    GaussianDrawCount(math, state, 0.0, 0.2);
    GaussianDrawCount(math, Iterate(state, 2), 0.0, volatilityLevel / 10.0);
    DrawsAdd(state, 2, 2);
    IterateAdd(state, 2, 2);
  }

  /** The cluster term: the amplitude draw weighted by the strength. */
  function ClusterOf(amplitude: real, strength: real): (c: real)
    ensures amplitude == 0.0 ==> c == 0.0
  {
    amplitude * strength
  }

  /** Draws each noise model consumes. */
  function NoiseDraws(model: NoiseModel): nat
  {
    match model
    case Gaussian => 2
    case Uniform => 1
    case Chaotic => 1
  }

  /** One step of the logistic map with parameter 3.9. */
  function Logistic(x: real): (y: real)
    ensures 0.0 <= x <= 1.0 ==> 0.0 <= y <= 0.975
  {
    LogisticBound(x);
    3.9 * x * (1.0 - x)
  }

  /** The chaotic noise value for the draw `x`: one logistic step, centred on 0.5 and scaled by 20 and the intensity. */
  function ChaoticOf(x: real, intensity: real): (r: real)
    ensures 0.0 <= x <= 1.0 && intensity >= 0.0 ==> -10.0 * intensity <= r <= 9.5 * intensity
    ensures intensity == 0.0 ==> r == 0.0
  {
    ChaoticBound(x, intensity);
    (Logistic(x) - 0.5) * 20.0 * intensity
  }

  lemma ChaoticBound(x: real, intensity: real)
    ensures 0.0 <= x <= 1.0 && intensity >= 0.0 ==>
      -10.0 * intensity <= (Logistic(x) - 0.5) * 20.0 * intensity <= 9.5 * intensity
    ensures intensity == 0.0 ==> (Logistic(x) - 0.5) * 20.0 * intensity == 0.0
  {
    var centred := (Logistic(x) - 0.5) * 20.0;
    if 0.0 <= x <= 1.0 && intensity >= 0.0 {
      assert -10.0 <= centred <= 9.5;
      MulNonneg(centred + 10.0, intensity);
      MulNonneg(9.5 - centred, intensity);
      assert (centred + 10.0) * intensity == centred * intensity + 10.0 * intensity;
      assert (9.5 - centred) * intensity == 9.5 * intensity - centred * intensity;
    }
  }

  /** The logistic map with parameter 3.9 sends [0, 1] into [0, 0.975]. */
  lemma LogisticBound(x: real)
    ensures 0.0 <= x <= 1.0 ==> 0.0 <= 3.9 * x * (1.0 - x) <= 0.975
  {
    if 0.0 <= x <= 1.0 {
      MulNonneg(x, 1.0 - x);
      assert 0.975 - 3.9 * x * (1.0 - x) == 3.9 * ((x - 0.5) * (x - 0.5));
      SquareNonneg(x - 0.5);
    }
  }

  lemma SquareNonneg(a: real)
    ensures a * a >= 0.0
  {
    if a < 0.0 {
      MulNonneg(-a, -a);
    } else {
      MulNonneg(a, a);
    }
  }

  /**
   * `generateNoise` on the model's draws `us`: Gaussian noise takes two,
   * uniform and chaotic noise one each. Uniform noise stays within
   * `±10 * intensity` and chaotic noise within [-10, 9.5] times the
   * intensity; zero intensity gives zero noise.
   */
  function NoiseValue(math: MathLib, model: NoiseModel, intensity: real, us: seq<real>): (n: real)
    requires |us| == NoiseDraws(model)
    ensures InUnit(us) && model == Uniform && intensity > 0.0 ==> -10.0 * intensity <= n < 10.0 * intensity
    ensures InUnit(us) && model == Chaotic && intensity >= 0.0 ==> -10.0 * intensity <= n <= 9.5 * intensity
    ensures intensity == 0.0 ==> n == 0.0
  {
    match model
    case Gaussian => GaussianOf(math, us[0], us[1], 0.0, 5.0 * intensity)
    case Uniform => UniformOf(us[0], -10.0 * intensity, 10.0 * intensity)
    case Chaotic => ChaoticOf(us[0], intensity)
  }

  /** The noise as the engine draws it, by model. */
  function NoiseDraw(math: MathLib, model: NoiseModel, state: int, intensity: real): (d: Drawn<real>)
    ensures state >= 0 ==> d.state >= 0
  {
    match model
    case Gaussian => GaussianDraw(math, state, 0.0, 5.0 * intensity)
    case Uniform => UniformDraw(state, -10.0 * intensity, 10.0 * intensity)
    case Chaotic =>
      var x := NextDraw(state);
      Drawn(ChaoticOf(x.value, intensity), x.state)
  }

  /** The noise takes exactly the model's share of draws from the front of the state's sequence. */
  lemma NoiseDrawCount(math: MathLib, model: NoiseModel, state: int, intensity: real)
    ensures NoiseDraw(math, model, state, intensity)
         == Drawn(NoiseValue(math, model, intensity, Draws(state, NoiseDraws(model))), Iterate(state, NoiseDraws(model)))
  {
    match model
    case Gaussian => GaussianDrawCount(math, state, 0.0, 5.0 * intensity);
    case Uniform => UniformDrawCount(state, -10.0 * intensity, 10.0 * intensity);
    case Chaotic => NextDrawCount(state);
  }

  /** The spike scale `baseValue * (volatilityLevel / 50)`. */
  function SpikeScale(baseValue: real, volatilityLevel: real): (scale: real)
    ensures baseValue >= 0.0 && volatilityLevel >= 0.0 ==> scale >= 0.0
    ensures volatilityLevel == 50.0 ==> scale == baseValue
  {
    baseValue * (volatilityLevel / 50.0)
  }

  /** The spike value for a direction draw `u` and a uniform factor `f`: the factor times the scale, up when `u > 0.5`. */
  function SpikeOf(u: real, f: real, scale: real): (v: real)
    ensures scale >= 0.0 && 0.5 <= f <= 2.0 ==> 0.5 * scale <= AbsReal(v) <= 2.0 * scale
    ensures scale > 0.0 && 0.5 <= f ==> v != 0.0 && (v > 0.0 <==> u > 0.5)
  {
    MagnitudeBound(f, scale);
    ScalePositive(f, scale);
    if u > 0.5 then f * scale else -(f * scale)
  }

  /** A factor in [0.5, 2] times a non-negative scale lies between half and twice the scale. */
  lemma MagnitudeBound(f: real, scale: real)
    ensures scale >= 0.0 && 0.5 <= f <= 2.0 ==> 0.5 * scale <= AbsReal(f * scale) <= 2.0 * scale
  {
    if scale >= 0.0 && 0.5 <= f <= 2.0 {
      MulNonneg(f - 0.5, scale);
      MulNonneg(2.0 - f, scale);
      assert (2.0 - f) * scale == 2.0 * scale - f * scale;
      assert (f - 0.5) * scale == f * scale - 0.5 * scale;
      assert AbsReal(f * scale) == f * scale;
    }
  }

  lemma ScalePositive(f: real, k: real)
    ensures k > 0.0 && 0.5 <= f ==> f * k > 0.0
  {
    if k > 0.0 && 0.5 <= f {
      MulPos(f, k);
    }
  }

  /**
   * `generateSpike` on its two draws `us`: a direction (up when the first
   * exceeds 0.5) and a uniform factor in [0.5, 2) from the second, applied to
   * `baseValue * volatilityLevel / 50`.
   */
  function SpikeValue(baseValue: real, volatilityLevel: real, us: seq<real>): (v: real)
    requires |us| == 2
    ensures InUnit(us) && SpikeScale(baseValue, volatilityLevel) > 0.0 ==> v != 0.0 && (v > 0.0 <==> us[0] > 0.5)
    ensures InUnit(us) && SpikeScale(baseValue, volatilityLevel) >= 0.0 ==>
      0.5 * SpikeScale(baseValue, volatilityLevel) <= AbsReal(v) <= 2.0 * SpikeScale(baseValue, volatilityLevel)
  {
    SpikeOf(us[0], UniformOf(us[1], 0.5, 2.0), SpikeScale(baseValue, volatilityLevel))
  }

  /** The spike as the engine draws it: `next()` for the direction, then `uniform(0.5, 2)` for the factor. */
  function SpikeDraw(state: int, baseValue: real, volatilityLevel: real): (d: Drawn<real>)
    ensures state >= 0 ==> d.state >= 0
    ensures state >= 0 && SpikeScale(baseValue, volatilityLevel) > 0.0 ==> d.value != 0.0
  {
    var direction := NextDraw(state);
    var factor := UniformDraw(direction.state, 0.5, 2.0);
    Drawn(SpikeOf(direction.value, factor.value, SpikeScale(baseValue, volatilityLevel)), factor.state)
  }

  /** The spike takes exactly the first two draws of the state: the direction the first, the factor the second. */
  lemma SpikeDrawCount(state: int, baseValue: real, volatilityLevel: real)
    ensures SpikeDraw(state, baseValue, volatilityLevel)
         == Drawn(SpikeValue(baseValue, volatilityLevel, Draws(state, 2)), Iterate(state, 2))
  {
    NextDrawCount(state);
    UniformDrawCount(Step(state), 0.5, 2.0);
    DrawsAdd(state, 1, 1);
    IterateAdd(state, 1, 1);
  }

  method CalculateVolatilityCluster(math: MathLib, t: real, volatilityLevel: real, rng: SeededRandom) returns (c: real)
    modifies rng
    ensures Drawn(c, rng.seed) == ClusterDraw(math, old(rng.seed), t, volatilityLevel)
  {
    var clusterCenter := rng.Gaussian(math, 0.0, 0.2);
    clusterCenter := 0.5 + clusterCenter;
    var clusterStrength := ClusterStrength(math, t, clusterCenter);
    var amplitude := rng.Gaussian(math, 0.0, volatilityLevel / 10.0);
    c := ClusterOf(amplitude, clusterStrength);
  }

  method GenerateNoise(math: MathLib, model: NoiseModel, rng: SeededRandom, intensity: real) returns (n: real)
    modifies rng
    ensures Drawn(n, rng.seed) == NoiseDraw(math, model, old(rng.seed), intensity)
  {
    match model
    case Gaussian =>
      n := rng.Gaussian(math, 0.0, 5.0 * intensity);
    case Uniform =>
      n := rng.Uniform(-10.0 * intensity, 10.0 * intensity);
    case Chaotic =>
      var x := rng.Next();
      n := ChaoticOf(x, intensity);
  }

  method GenerateSpike(metric: MetricType, volatilityLevel: real, rng: SeededRandom) returns (v: real)
    modifies rng
    ensures Drawn(v, rng.seed) == SpikeDraw(old(rng.seed), BaseValue(metric), volatilityLevel)
  {
    var baseValue := BaseValue(metric);
    var u := rng.Next();
    var factor := rng.Uniform(0.5, 2.0);
    v := SpikeOf(u, factor, SpikeScale(baseValue, volatilityLevel));
  }
}
