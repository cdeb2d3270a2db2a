/**
 * Spike placement: before any sample is produced, the engine draws one
 * uniform number per spike slot and marks the sample index it lands on.
 * Several draws may land on the same index, so at most (not exactly) that
 * many samples are spiked.
 */
module Spikes {
  import opened JsNumber
  import opened Random

  /** How many times `for (let i = 0; i < bound; i++)` runs: the least natural number not below `bound`. */
  function LoopCount(bound: real): (n: nat)
    ensures n as real >= bound
    ensures n == 0 || ((n - 1) as real) < bound
  {
    if bound <= 0.0 then 0 else -((-bound).Floor)
  }

  /** The loop guard `j < bound` holds exactly for the first `LoopCount(bound)` values of `j`. */
  lemma LoopGuard(bound: real, j: nat)
    ensures (j as real) < bound <==> j < LoopCount(bound)
  {
  }

  /** The loop runs exactly `k` times for a whole-number bound `k`. */
  lemma LoopCountOfNat(k: nat)
    ensures LoopCount(k as real) == k
  {
  }

  /** The spike-slot bound `Math.min(frequency, points / 10)`. */
  function SpikeBound(points: nat, frequency: real): (b: real)
    ensures b <= frequency && b <= points as real / 10.0
    ensures b == frequency || b == points as real / 10.0
  {
    Min(frequency, points as real / 10.0)
  }

  /** The number of spike draws: the slot loop's trip count. */
  function SpikeCount(points: nat, frequency: real): (n: nat)
    ensures n as real >= SpikeBound(points, frequency)
    ensures n == 0 || ((n - 1) as real) < SpikeBound(points, frequency)
  {
    LoopCount(SpikeBound(points, frequency))
  }

  /**
   * For a whole-number frequency and a point count divisible by ten, the
   * engine draws exactly `min(frequency, points / 10)` spike slots.
   */
  lemma SpikeCountWhole(points: nat, frequency: nat)
    requires points % 10 == 0
    ensures SpikeCount(points, frequency as real) == if frequency < points / 10 then frequency else points / 10
  {
    assert points as real / 10.0 == (points / 10) as real;
    if frequency < points / 10 {
      LoopCountOfNat(frequency);
    } else {
      LoopCountOfNat(points / 10);
    }
  }

  /**
   * The index `Math.floor(rng.next() * points)` once `next()` has set the
   * register to `s`. Doubles round twice on the way: the quotient
   * s / 233280 to its significand `UnitSignificand`, then the product with
   * `points`; scaling by the power of two `UnitScale` changes neither
   * rounding, so the product rounds as the integer `significand * points`.
   */
  function SlotOf(s: int, points: nat): (p: int)
    requires -Modulus < s < Modulus
    ensures s >= 0 ==> 0 <= p
    ensures points > 0 ==> p < points
  {
    if s == 0 then 0
    else
      var product := UnitSignificand(Abs(s)) * points;
      var rounded := RoundToDouble(if s > 0 then product else -product);
      NatProduct(UnitSignificand(Abs(s)), points);
      SlotBelow(Abs(s), points);
      SlotBounds(rounded, UnitScale(Abs(s)), s > 0, points);
      rounded / UnitScale(Abs(s))
  }

  /** Sign and upper bound of the slot, over the rounded product and the scale. */
  lemma SlotBounds(rounded: int, scale: int, positive: bool, points: int)
    requires scale > 0
    requires positive ==> rounded >= 0 && (points > 0 ==> rounded < points * scale)
    requires !positive ==> rounded <= 0
    ensures positive ==> rounded / scale >= 0
    ensures points > 0 ==> rounded / scale < points
  {
    DivSign(rounded, scale);
    if points > 0 {
      MulMono(1, points, scale);
      DivBelow(rounded, scale, points);
    }
  }

  lemma DivSign(a: int, d: int)
    requires d > 0
    ensures a >= 0 ==> a / d >= 0
    ensures a <= 0 ==> a / d <= 0
  {
    if a >= 0 {
      DivBetween(a, d, a / d);
    } else {
      assert a == (a / d) * d + a % d && 0 <= a % d < d;
      if a / d > 0 {
        MulMono(1, a / d, d);
      }
    }
  }

  /** The rounded product stays below `points` whole units of the scale, so the slot is below `points`. */
  lemma SlotBelow(n: nat, points: nat)
    requires 1 <= n < Modulus
    ensures points > 0 ==> RoundToDouble(UnitSignificand(n) * points) < points * UnitScale(n)
  {
    var scale, m := UnitScale(n), UnitSignificand(n);
    NatProduct(m, points);
    RoundToDoubleRelative(m * points);
    BelowOfRoundings(n, points, scale, m, RoundToDouble(m * points));
  }

  /** `SlotBelow` over the scale `scale`, the significand `m` and the rounded product `r`. */
  lemma BelowOfRoundings(n: int, points: int, scale: int, m: int, r: int)
    requires 1 <= n < Modulus && points >= 0 && scale >= TwoPow53
    requires 2 * Abs(m * Modulus - n * scale) <= Modulus
    requires TwoPow53 * (r - m * points) <= m * points
    ensures points > 0 ==> r < points * scale
  {
    if points > 0 {
      MulMono(n, Modulus - 1, scale);
      assert 2 * Modulus * m <= 2 * Modulus * scale - scale - 1;
      ProductBound(m, scale, points);
    }
  }

  /** Multiplying the significand bound by `points`. */
  lemma ProductBound(m: int, scale: int, points: int)
    requires points >= 1 && scale >= 0 && 2 * Modulus * m <= 2 * Modulus * scale - scale - 1
    ensures 2 * Modulus * (m * points) <= 2 * Modulus * (points * scale) - points * scale - points
    ensures points * scale >= 0
  {
    MulMono(2 * Modulus * m, 2 * Modulus * scale - scale - 1, points);
  }

  /**
   * Against the exact quotient: the slot is the floor of
   * s * points / 233280, except that it may fall one short when that
   * quotient is a whole number and the rounded product lands just below it.
   */
  lemma SlotNearExact(s: int, points: nat)
    requires 0 <= s < Modulus && points < 0x10_0000
    ensures SlotOf(s, points) == (s * points) / Modulus
         || ((s * points) % Modulus == 0 && SlotOf(s, points) == (s * points) / Modulus - 1)
  {
    if s > 0 && points > 0 {
      var scale, m := UnitScale(s), UnitSignificand(s);
      NatProduct(m, points);
      NatProduct(s, points);
      RoundToDoubleRelative(m * points);
      ErrorOfRoundings(s, points, scale, m, RoundToDouble(m * points));
      FloorFromError(RoundToDouble(m * points), scale, s * points);
    } else if s > 0 {
      DivSign(0, UnitScale(s));
      DivBelow(0, UnitScale(s), 1);
    }
  }

  /**
   * Registers at which the rounded product lands just below a whole-number
   * quotient, so the slot is one less than the exact floor: 134136 at 200
   * points (exactly 115), and 81648 and 163296 at 700 points (exactly 245
   * and 490).
   */
  lemma SlotShortfall()
    ensures 134136 * 200 == 115 * Modulus && SlotOf(134136, 200) == 114
    ensures 81648 * 700 == 245 * Modulus && SlotOf(81648, 700) == 244
    ensures 163296 * 700 == 490 * Modulus && SlotOf(163296, 700) == 489
  {
    assert PowerOfTwo(1) && PowerOfTwo(2) && PowerOfTwo(4) && PowerOfTwo(8) && PowerOfTwo(16);
    assert PowerOfTwo(32) && PowerOfTwo(64) && PowerOfTwo(128) && PowerOfTwo(256) && PowerOfTwo(512);
    assert SlotOf(134136, 200) == 114 by {
      assert UnitScale(134136) == TwoPow53;
      assert UnitSignificand(134136) == 5179139571476070;
      RoundToDoubleAt(1035827914295214000, 128);
      assert RoundHalfEven(1035827914295214000, 128) == 1035827914295213952;
      DivBetween(1035827914295213952, TwoPow53, 114);
    }
    assert SlotOf(81648, 700) == 244 by {
      assert UnitBinade(81648, 1) == UnitBinade(81648, 2) == 2;
      assert UnitScale(81648) == 2 * TwoPow53;
      assert UnitSignificand(81648) == 6305039478318694;
      RoundToDoubleAt(4413527634823085800, 512);
      assert RoundHalfEven(4413527634823085800, 512) == 4413527634823085568;
      DivBetween(4413527634823085568, 2 * TwoPow53, 244);
    }
    assert SlotOf(163296, 700) == 489 by {
      assert UnitScale(163296) == TwoPow53;
      assert UnitSignificand(163296) == 6305039478318694;
      RoundToDoubleAt(4413527634823085800, 512);
      assert RoundHalfEven(4413527634823085800, 512) == 4413527634823085568;
      DivBetween(4413527634823085568, TwoPow53, 489);
    }
  }

  /** A value within one scale unit of w / 233280 (scaled) floors to w's quotient, or one less when w divides exactly. */
  lemma FloorFromError(r: int, scale: int, w: nat)
    requires scale >= 1 && Abs(Modulus * r - w * scale) < scale
    ensures r / scale == w / Modulus || (w % Modulus == 0 && r / scale == w / Modulus - 1)
  {
    var e, rem := w / Modulus, w % Modulus;
    var es, rs := e * scale, rem * scale;
    SplitProduct(w, e, rem, scale);
    assert w * scale == Modulus * es + rs;
    MulMono(rem, Modulus - 1, scale);
    assert (e + 1) * scale == es + scale && (e - 1) * scale == es - scale;
    if rem >= 1 {
      MulMono(1, rem, scale);
      DivBetween(r, scale, e);
    } else if r >= es {
      DivBetween(r, scale, e);
    } else {
      DivBetween(r, scale, e - 1);
    }
  }

  lemma SplitProduct(w: int, e: int, rem: int, scale: int)
    requires w == e * Modulus + rem
    ensures w * scale == Modulus * (e * scale) + rem * scale
  {
  }

  /**
   * The two roundings together keep the scaled product within one unit of
   * the scale of the exact s * points / 233280; stated over the scale `scale`,
   * the significand `m` and the rounded product `r`.
   */
  lemma ErrorOfRoundings(s: int, points: int, scale: int, m: int, r: int)
    requires 1 <= points < 0x10_0000 && scale >= TwoPow53 && 0 <= m <= scale
    requires 2 * Abs(m * Modulus - s * scale) <= Modulus
    requires TwoPow53 * (r - m * points) <= m * points && TwoPow53 * (m * points - r) <= m * points
    ensures Abs(Modulus * r - (s * points) * scale) < scale
  {
    var x := m * points;
    ErrorSplit(r, m, s, points, scale);
    MulMono(m, scale, points);
    MulMono(points, 0x10_0000 - 1, scale);
    ScaleHalf(m * Modulus - s * scale, points);
    ErrorBound(r, x, points * (m * Modulus - s * scale), points, scale, points * scale);
  }

  lemma ErrorSplit(r: int, m: int, s: int, points: int, scale: int)
    ensures Modulus * r - (s * points) * scale == Modulus * (r - m * points) + points * (m * Modulus - s * scale)
  {
  }

  lemma ScaleHalf(d: int, points: nat)
    requires 2 * Abs(d) <= Modulus
    ensures 2 * Abs(points * d) <= Modulus * points
  {
    MulMono(2 * Abs(d), Modulus, points);
    assert Abs(points * d) == Abs(d) * points;
  }

  lemma ErrorBound(r: int, x: int, pd: int, points: int, scale: int, ps: int)
    requires TwoPow53 * (r - x) <= x && TwoPow53 * (x - r) <= x
    requires 0 <= x <= ps && ps <= (0x10_0000 - 1) * scale && scale >= TwoPow53
    requires 2 * Abs(pd) <= Modulus * points && 1 <= points < 0x10_0000
    ensures Abs(Modulus * (r - x) + pd) < scale
  {
  }

  /** The indices the first `n` spike draws from state `s` land on, in draw order. */
  function SpikeTargets(s: int, points: nat, n: nat): (ts: seq<int>)
    ensures |ts| == n
    ensures forall k :: 0 <= k < n ==> ts[k] == SlotOf(Iterate(s, k + 1), points)
    ensures points > 0 ==> forall k :: 0 <= k < n ==> ts[k] < points
    ensures points > 0 && s >= 0 ==> forall k :: 0 <= k < n ==> 0 <= ts[k]
  {
    if n == 0 then [] else SpikeTargets(s, points, n - 1) + [SlotOf(Iterate(s, n), points)]
  }

  /** `positions[p] = true`, for an index inside the array; any other key leaves the elements alone. */
  function Mark(positions: seq<bool>, p: int): (r: seq<bool>)
    ensures |r| == |positions|
  {
    if 0 <= p < |positions| then positions[p := true] else positions
  }

  /** The flags after the first `n` spike draws from state `s`, starting from all `false`. */
  function SpikeFlags(s: int, points: nat, n: nat): (flags: seq<bool>)
    ensures |flags| == points
  {
    if n == 0 then seq(points, _ => false)
    else Mark(SpikeFlags(s, points, n - 1), SlotOf(Iterate(s, n), points))
  }

  /** An index is flagged exactly when some spike draw landed on it. */
  lemma {:induction false} SpikeFlagsAreTargets(s: int, points: nat, n: nat, j: int)
    requires 0 <= j < points
    ensures SpikeFlags(s, points, n)[j] <==> j in SpikeTargets(s, points, n)
  {
    if n > 0 {
      SpikeFlagsAreTargets(s, points, n - 1, j);
      assert SpikeTargets(s, points, n) == SpikeTargets(s, points, n - 1) + [SlotOf(Iterate(s, n), points)];
    }
  }

  /** The number of `true` entries. */
  function CountTrue(flags: seq<bool>): (c: nat)
    ensures c <= |flags|
  {
    if |flags| == 0 then 0
    else CountTrue(flags[..|flags| - 1]) + (if flags[|flags| - 1] then 1 else 0)
  }

  /** Setting one flag raises the count by at most one. */
  lemma {:induction false} CountMark(flags: seq<bool>, p: int)
    ensures CountTrue(Mark(flags, p)) <= CountTrue(flags) + 1
    decreases |flags|
  {
    if 0 <= p < |flags| {
      var last := |flags| - 1;
      if p == last {
        assert flags[p := true][..last] == flags[..last];
      } else {
        assert flags[p := true][..last] == flags[..last][p := true];
        CountMark(flags[..last], p);
      }
    }
  }

  lemma {:induction false} CountNone(n: nat)
    ensures CountTrue(seq(n, _ => false)) == 0
  {
    if n > 0 {
      assert seq(n, _ => false)[..n - 1] == seq(n - 1, _ => false);
      CountNone(n - 1);
    }
  }

  /** After `n` spike draws at most `n` samples are spiked. */
  lemma {:induction false} SpikedAtMost(s: int, points: nat, n: nat)
    ensures CountTrue(SpikeFlags(s, points, n)) <= n
  {
    if n == 0 {
      CountNone(points);
    } else {
      SpikedAtMost(s, points, n - 1);
      CountMark(SpikeFlags(s, points, n - 1), SlotOf(Iterate(s, n), points));
    }
  }

  /** `generateSpikePositions`: the spike flags of the generator's state, with the generator advanced past the spike draws. */
  function SpikePositions(s: int, points: nat, frequency: real): (d: Drawn<seq<bool>>)
    ensures |d.value| == points
    ensures d.state == Iterate(s, SpikeCount(points, frequency))
    ensures CountTrue(d.value) <= SpikeCount(points, frequency)
  {
    SpikedAtMost(s, points, SpikeCount(points, frequency));
    Drawn(SpikeFlags(s, points, SpikeCount(points, frequency)), Iterate(s, SpikeCount(points, frequency)))
  }

  method GenerateSpikePositions(points: nat, frequency: real, rng: SeededRandom) returns (positions: array<bool>)
    modifies rng
    ensures fresh(positions)
    ensures Drawn(positions[..], rng.seed) == SpikePositions(old(rng.seed), points, frequency)
  {
    positions := new bool[points](_ => false);
    assert positions[..] == SpikeFlags(rng.seed, points, 0);
    var numSpikes := Min(frequency, points as real / 10.0);
    var i := 0;
    while (i as real) < numSpikes
      invariant i <= LoopCount(numSpikes)
      invariant rng.seed == Iterate(old(rng.seed), i)
      invariant positions[..] == SpikeFlags(old(rng.seed), points, i)
      decreases LoopCount(numSpikes) - i
    {
      LoopGuard(numSpikes, i);
      ghost var before := positions[..];
      // The double `next()` returns is fixed by the register it has just set.
      var u := rng.Next();
      assert rng.seed == Iterate(old(rng.seed), i + 1);
      var position := SlotOf(rng.seed, points);
      if 0 <= position < points {
        positions[position] := true;
      }
      assert positions[..] == Mark(before, position);
      i := i + 1;
    }
    LoopGuard(numSpikes, i);
  }
}
