/**
 * The seeded pseudo-random source: a linear congruential register advanced
 * by `next()`, with uniform, bounded-uniform and Box-Muller Gaussian draws.
 * The functions give the draw sequence of a seed; the class is the mutable
 * generator, specified against them.
 */
module Random {
  import opened JsNumber

  const Multiplier: int := 9301
  const Increment: int := 49297
  const Modulus: int := 233280

  /**
   * The dividend of one update as doubles evaluate it: the product
   * `seed * 9301` rounded to the nearest double, then the sum with 49297
   * rounded again. Below 2^53 in magnitude nothing is rounded.
   */
  function Dividend(state: int): (d: int)
    ensures -TwoPow53 < state * Multiplier && state * Multiplier + Increment < TwoPow53 ==> d == state * Multiplier + Increment
    ensures state >= 0 ==> d >= 0
  {
    RoundToDouble(RoundToDouble(state * Multiplier) + Increment)
  }

  /**
   * One update of the register, `(seed * 9301 + 49297) % 233280`: the
   * rounded dividend reduced by the truncating `%`.
   */
  function Step(state: int): (next: int)
    ensures -Modulus < next < Modulus
    ensures state >= 0 ==> 0 <= next < Modulus
  {
    JsRem(Dividend(state), Modulus)
  }

  /** The new register is congruent to the rounded dividend modulo 233280 and takes its sign. */
  lemma StepCongruent(state: int)
    ensures (Dividend(state) - Step(state)) % Modulus == 0
    ensures Dividend(state) >= 0 ==> Step(state) >= 0
    ensures Dividend(state) < 0 ==> Step(state) <= 0
  {
    JsRemCongruent(Dividend(state), Modulus);
  }

  /**
   * While the exact dividend stays below 2^53 in magnitude no rounding
   * occurs: the update is the truncating remainder of `state * 9301 + 49297`,
   * the Euclidean one for a non-negative register.
   */
  lemma StepExact(state: int)
    ensures -TwoPow53 < state * Multiplier && state * Multiplier + Increment < TwoPow53 ==>
      Step(state) == JsRem(state * Multiplier + Increment, Modulus)
    ensures 0 <= state && state * Multiplier + Increment < TwoPow53 ==>
      Step(state) == (state * Multiplier + Increment) % Modulus
  {
  }

  /**
   * A clock-sized seed (a `Date.now()` reading plus a hash): both roundings
   * of the first update move the dividend, so the register differs from the
   * exact remainder 147302.
   */
  lemma ClockSeedStep()
    ensures Dividend(1700000000065) == 15811700000653860
    ensures 1700000000065 * Multiplier + Increment == 15811700000653862
    ensures Step(1700000000065) == 147300
  {
  }

  /**
   * A negative register at most -6 has a negative dividend, so the next
   * register is not positive and its draw lies in (-1, 0].
   */
  lemma NegativeRegisterStep(state: int)
    requires state <= -6
    ensures Dividend(state) < 0 && Step(state) <= 0 && Unit(Step(state)) <= 0.0
  {
    RoundKeepsHalf(state * Multiplier);
    RoundKeepsHalf(RoundToDouble(state * Multiplier) + Increment);
    StepCongruent(state);
  }

  /** A negative seed: -1000000 plus the hash 65 of "A" steps to -172378, a negative first draw. */
  lemma NegativeSeedStep()
    ensures Step(-999935) == -172378 && Unit(Step(-999935)) < 0.0
  {
  }

  /**
   * A negative register need not stay negative: -210637 steps to 0, and
   * -6401 steps to -4, whose dividend is positive again.
   */
  lemma NegativeRegisterRecovers()
    ensures Step(-210637) == 0
    ensures Step(-6401) == -4 && Step(-4) == 12093 && Unit(Step(-4)) > 0.0
  {
  }

  /** The number `next()` returns once the register holds `state`. */
  function Unit(state: int): (u: real)
    ensures 0 <= state < Modulus ==> 0.0 <= u < 1.0
    ensures -Modulus < state < Modulus ==> -1.0 < u < 1.0
    ensures u * 233280.0 == state as real
  {
    state as real / 233280.0
  }

  /**
   * The power of two `b` that puts the quotient `n / 233280` of a register
   * 0 < n < 233280 into the 53-bit significand range at the scale 2^53 * b:
   * 2^52 <= (n / 233280) * 2^53 * b < 2^53. Found by doubling `j`.
   */
  function UnitBinade(n: nat, j: nat): (b: nat)
    requires 1 <= n && 1 <= j && PowerOfTwo(j) && n * j < Modulus
    ensures PowerOfTwo(b) && b >= j
    ensures Modulus <= 2 * (n * b) && n * b < Modulus
    decreases Modulus - n * j
  {
    if 2 * (n * j) >= Modulus then j
    else
      assert (2 * j) / 2 == j;
      assert n * (2 * j) == 2 * (n * j);
      UnitBinade(n, 2 * j)
  }

  /** The scale of the double nearest `n / 233280`: doubles in its binade are `1 / UnitScale(n)` apart. */
  function UnitScale(n: nat): (scale: nat)
    requires 1 <= n < Modulus
    ensures scale >= TwoPow53 && scale % TwoPow53 == 0 && PowerOfTwo(scale / TwoPow53)
    ensures TwoPow53 * Modulus <= 2 * (n * scale) && n * scale < TwoPow53 * Modulus
  {
    var b := UnitBinade(n, 1);
    assert n * (TwoPow53 * b) == TwoPow53 * (n * b);
    assert (TwoPow53 * b) / TwoPow53 == b;
    TwoPow53 * b
  }

  /**
   * The significand of the double `next()` returns once the register holds
   * 0 < n < 233280: that double is `UnitSignificand(n) / UnitScale(n)`, the
   * multiple of `1 / UnitScale(n)` nearest `n / 233280`, a tie going to the
   * even one.
   */
  function UnitSignificand(n: nat): (m: nat)
    requires 1 <= n < Modulus
    ensures 2 * Abs(m * Modulus - n * UnitScale(n)) <= Modulus
    ensures 2 * Abs(m * Modulus - n * UnitScale(n)) == Modulus ==> m % 2 == 0
    ensures m < UnitScale(n)
  {
    var scale := UnitScale(n);
    var r := RoundHalfEven(n * scale, Modulus);
    MultipleRem(r / Modulus, Modulus);
    assert r == (r / Modulus) * Modulus;
    MulMono(n, Modulus - 1, scale);
    r / Modulus
  }

  /** The register after `n` calls of `next()`. */
  function Iterate(seed: int, n: nat): (state: int)
    ensures n > 0 ==> -Modulus < state < Modulus
    ensures seed >= 0 ==> state >= 0
    decreases n
  {
    if n == 0 then seed else Step(Iterate(seed, n - 1))
  }

  /** The first `n` numbers `next()` returns from a generator seeded with `seed`. */
  function Draws(seed: int, n: nat): (us: seq<real>)
    ensures |us| == n
    ensures seed >= 0 ==> InUnit(us)
    decreases n
  {
    if n == 0 then [] else Draws(seed, n - 1) + [Unit(Iterate(seed, n))]
  }

  /** The `k`-th number drawn is the register after `k + 1` steps, scaled. */
  lemma {:induction false} DrawsAt(seed: int, n: nat, k: nat)
    requires k < n
    ensures Draws(seed, n)[k] == Unit(Iterate(seed, k + 1))
  {
    if k < n - 1 {
      DrawsAt(seed, n - 1, k);
    }
  }

  /** Every number lies in the unit interval [0, 1). */
  predicate InUnit(us: seq<real>)
  {
    forall k :: 0 <= k < |us| ==> 0.0 <= us[k] < 1.0
  }

  /** Running `m` and then `n` steps is running `m + n` steps. */
  lemma {:induction false} IterateAdd(seed: int, m: nat, n: nat)
    ensures Iterate(seed, m + n) == Iterate(Iterate(seed, m), n)
    decreases n
  {
    if n > 0 {
      IterateAdd(seed, m, n - 1);
    }
  }

  /** The draw sequence of a seed splits at any point into a prefix and the draws of the state reached there. */
  lemma {:induction false} DrawsAdd(seed: int, m: nat, n: nat)
    ensures Draws(seed, m + n) == Draws(seed, m) + Draws(Iterate(seed, m), n)
  {
    var whole, left, right := Draws(seed, m + n), Draws(seed, m), Draws(Iterate(seed, m), n);
    forall k | 0 <= k < m + n
      ensures whole[k] == (left + right)[k]
    {
      DrawsAt(seed, m + n, k);
      if k < m {
        DrawsAt(seed, m, k);
      } else {
        DrawsAt(Iterate(seed, m), n, k - m);
        IterateAdd(seed, m, k - m + 1);
      }
    }
    assert whole == left + right;
  }

  /** A value together with the register state after producing it. */
  datatype Drawn<T> = Drawn(value: T, state: int)

  /** `next()`: one step, returning the new state scaled into the unit interval. */
  function NextDraw(state: int): (d: Drawn<real>)
    ensures state >= 0 ==> 0.0 <= d.value < 1.0 && d.state >= 0
  {
    Drawn(Unit(Step(state)), Step(state))
  }

  /** `next()` takes exactly one draw: the first of the seed's sequence. */
  lemma NextDrawCount(state: int)
    ensures NextDraw(state).state == Iterate(state, 1)
    ensures NextDraw(state).value == Draws(state, 1)[0]
  {
  }

  /** The value `uniform(min, max)` returns for the draw `u`: `min + u * (max - min)`. */
  function UniformOf(u: real, min: real, max: real): (x: real)
    ensures 0.0 <= u < 1.0 && min <= max ==> min <= x <= max
    ensures 0.0 <= u < 1.0 && min < max ==> min <= x < max
    ensures min == max ==> x == min
  {
    if 0.0 <= u < 1.0 && min <= max then
      UniformBound(u, min, max);
      min + u * (max - min)
    else
      min + u * (max - min)
  }

  /** `uniform(min, max)`: one call of `next()`, its number mapped onto [min, max). */
  function UniformDraw(state: int, min: real, max: real): (d: Drawn<real>)
    ensures state >= 0 && min < max ==> min <= d.value < max && d.state >= 0
  {
    var u := NextDraw(state);
    Drawn(UniformOf(u.value, min, max), u.state)
  }

  /** `uniform` takes exactly the first draw of the state. */
  lemma UniformDrawCount(state: int, min: real, max: real)
    ensures UniformDraw(state, min, max) == Drawn(UniformOf(Draws(state, 1)[0], min, max), Iterate(state, 1))
  {
    NextDrawCount(state);
  }

  lemma MulNonneg(a: real, b: real)
    requires a >= 0.0 && b >= 0.0
    ensures a * b >= 0.0
  {
  }

  lemma MulPos(a: real, b: real)
    requires a > 0.0 && b > 0.0
    ensures a * b > 0.0
  {
  }

  /** A unit-interval draw mapped onto [min, max] stays inside it, and below `max` when the interval is not empty. */
  lemma UniformBound(u: real, min: real, max: real)
    ensures 0.0 <= u < 1.0 && min <= max ==> min <= min + u * (max - min) <= max
    ensures 0.0 <= u < 1.0 && min < max ==> min + u * (max - min) < max
  {
    if 0.0 <= u < 1.0 && min <= max {
      MulNonneg(u, max - min);
      MulNonneg(1.0 - u, max - min);
      assert (1.0 - u) * (max - min) == (max - min) - u * (max - min);
      if min < max {
        MulPos(1.0 - u, max - min);
      }
    }
  }

  /** The Box-Muller transform of two uniform draws. */
  function BoxMuller(math: MathLib, u1: real, u2: real): real
  {
    math.sqrt(-2.0 * math.log(u1)) * math.cos(2.0 * Pi * u2)
  }

  /** The value `gaussian(mean, stdDev)` returns for the draws `u1`, `u2`. */
  function GaussianOf(math: MathLib, u1: real, u2: real, mean: real, stdDev: real): (z: real)
    ensures stdDev == 0.0 ==> z == mean
  {
    BoxMuller(math, u1, u2) * stdDev + mean
  }

  /** `gaussian(mean, stdDev)`: two calls of `next()`, the first number fed to the logarithm and the second to the cosine. */
  function GaussianDraw(math: MathLib, state: int, mean: real, stdDev: real): (d: Drawn<real>)
    ensures stdDev == 0.0 ==> d.value == mean
    ensures state >= 0 ==> d.state >= 0
  {
    var u1 := NextDraw(state);
    var u2 := NextDraw(u1.state);
    Drawn(GaussianOf(math, u1.value, u2.value, mean, stdDev), u2.state)
  }

  /** `gaussian` takes exactly the first two draws of the state, `u1` the first and `u2` the second. */
  lemma GaussianDrawCount(math: MathLib, state: int, mean: real, stdDev: real)
    ensures GaussianDraw(math, state, mean, stdDev)
         == Drawn(GaussianOf(math, Draws(state, 2)[0], Draws(state, 2)[1], mean, stdDev), Iterate(state, 2))
  {
    NextDrawCount(state);
    NextDrawCount(Step(state));
    IterateAdd(state, 1, 1);
    DrawsAdd(state, 1, 1);
  }

  /** The register value whose successor is 0, so that a Gaussian draw taken there passes 0 to the logarithm. */
  lemma ZeroDrawReachable()
    ensures Step(22643) == 0 && Unit(Step(22643)) == 0.0
  {
  }

  /**
   * The generator object: `next()` advances the register; `gaussian` and
   * `uniform` are built on it. Each method returns the value of the draw
   * function of the same name and leaves the register in the state it reaches.
   */
  class SeededRandom {
    var seed: int

    constructor (seed: int)
      ensures this.seed == seed
    {
      this.seed := seed;
    }

    method Next() returns (u: real)
      modifies this
      ensures Drawn(u, seed) == NextDraw(old(seed))
    {
      seed := JsRem(RoundToDouble(RoundToDouble(seed * Multiplier) + Increment), Modulus);
      u := seed as real / 233280.0;
    }

    method Gaussian(math: MathLib, mean: real, stdDev: real) returns (z: real)
      modifies this
      ensures Drawn(z, seed) == GaussianDraw(math, old(seed), mean, stdDev)
    {
      var u1 := Next();
      var u2 := Next();
      z := GaussianOf(math, u1, u2, mean, stdDev);
    }

    method Uniform(min: real, max: real) returns (x: real)
      modifies this
      ensures Drawn(x, seed) == UniformDraw(old(seed), min, max)
    {
      var u := Next();
      x := UniformOf(u, min, max);
    }
  }
}
