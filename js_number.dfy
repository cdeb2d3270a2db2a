/**
 * The parts of JavaScript number semantics the engine depends on:
 * double rounding of large integers, the truncating `%` operator,
 * the signed 32-bit conversion behind `<<` and `&`, and the global
 * `Math` functions, which are kept uninterpreted.
 */
module JsNumber {

  const TwoPow31: int := 0x8000_0000
  const TwoPow32: int := 0x1_0000_0000
  /** Every integer of magnitude at most 2^53 is exactly representable as a double. */
  const TwoPow53: int := 0x20_0000_0000_0000

  /** A UTF-16 code unit, the value `String.prototype.charCodeAt` returns. */
  newtype CodeUnit = x: int | 0 <= x < 0x1_0000

  function Abs(x: int): (r: nat)
    ensures r == x || r == -x
  {
    if x < 0 then -x else x
  }

  function AbsReal(x: real): (r: real)
    ensures r >= 0.0 && (r == x || r == -x)
  {
    if x < 0.0 then -x else x
  }

  /** `Math.min` on two (non-NaN) numbers. */
  function Min(a: real, b: real): (r: real)
    ensures r <= a && r <= b && (r == a || r == b)
  {
    if a <= b then a else b
  }

  /** `Math.max` on two (non-NaN) numbers. */
  function Max(a: real, b: real): (r: real)
    ensures r >= a && r >= b && (r == a || r == b)
  {
    if a >= b then a else b
  }

  /**
   * JavaScript's `a % m` for integral doubles: the remainder takes the sign
   * of the dividend (truncating division), unlike Dafny's Euclidean `%`.
   */
  function JsRem(a: int, m: int): (r: int)
    requires m > 0
    ensures a >= 0 ==> 0 <= r < m
    ensures a < 0 ==> -m < r <= 0
  {
    if a >= 0 then a % m else -((-a) % m)
  }

  /** The truncating remainder differs from the dividend by a multiple of `m`. */
  lemma JsRemCongruent(a: int, m: int)
    requires m > 0
    ensures (a - JsRem(a, m)) % m == 0
  {
    if a >= 0 {
      MultipleRem(a / m, m);
      assert a - a % m == (a / m) * m;
    } else {
      var b := -a;
      MultipleRem(-(b / m), m);
      assert b - b % m == (b / m) * m;
      assert a + b % m == (-(b / m)) * m;
    }
  }

  /** A multiple of `p` leaves no remainder and divides back to its factor. */
  lemma MultipleRem(k: int, p: int)
    requires p >= 1
    ensures (k * p) % p == 0 && (k * p) / p == k
  {
    var q, rem := (k * p) / p, (k * p) % p;
    assert k * p == q * p + rem && 0 <= rem < p;
    assert (k - q) * p == rem;
    ScaledAtLeast(k - q, p);
  }

  /** A non-zero multiple of `p` is at least `p` in magnitude. */
  lemma ScaledAtLeast(d: int, p: int)
    requires p >= 1
    ensures d >= 1 ==> d * p >= p
    ensures d <= -1 ==> d * p <= -p
  {
  }

  /**
   * Round `a` to a multiple of `p`, to nearest, ties to the multiple with an
   * even quotient.
   */
  function RoundHalfEven(a: nat, p: nat): (r: nat)
    requires p >= 1
    ensures r % p == 0
    ensures 2 * (r - a) <= p && 2 * (a - r) <= p
    ensures (2 * (r - a) == p || 2 * (a - r) == p) ==> (r / p) % 2 == 0
    ensures p == 1 ==> r == a
  {
    var rem := a % p;
    var m := a / p;
    RemainderBelow(a, p);
    var below := a - rem;
    assert below == m * p;
    MultipleRem(m, p);
    MultipleRem(m + 1, p);
    assert below + p == (m + 1) * p;
    if 2 * rem < p then below
    else if 2 * rem > p then below + p
    else if m % 2 == 0 then below
    else below + p
  }

  /** The remainder of a natural number lies in [0, p) and does not exceed the number. */
  lemma RemainderBelow(a: nat, p: nat)
    requires p >= 1
    ensures 0 <= a % p < p && a % p <= a
  {
    if a >= p {
      assert a / p >= 1;
      assert a == (a / p) * p + a % p;
      assert (a / p) * p >= p;
    }
  }

  /** 1, 2, 4, 8, ... */
  predicate PowerOfTwo(q: nat)
    decreases q
  {
    q == 1 || (q >= 2 && q % 2 == 0 && PowerOfTwo(q / 2))
  }

  /**
   * The spacing of doubles around a magnitude `a` of at least 2^53: the power
   * of two `q` with 2^53 * q <= 2a < 2^54 * q, found by doubling `p` from 2.
   */
  function Spacing(a: nat, p: nat): (q: nat)
    requires 2 <= p && TwoPow53 * p <= 2 * a && PowerOfTwo(p)
    ensures PowerOfTwo(q) && q >= 2
    ensures TwoPow53 * q <= 2 * a < 2 * TwoPow53 * q
    decreases a - p
  {
    if a < TwoPow53 * p then p
    else
      assert (2 * p) / 2 == p;
      Spacing(a, 2 * p)
  }

  /** The distance between consecutive doubles in the binade of `a` >= 2^53. */
  function Ulp(a: nat): (q: nat)
    requires a >= TwoPow53
    ensures PowerOfTwo(q) && q >= 2
    ensures TwoPow53 * q <= 2 * a < 2 * TwoPow53 * q
  {
    assert PowerOfTwo(2 / 2);
    Spacing(a, 2)
  }

  /**
   * Round a magnitude `a` of at least 2^53 to the nearest double: find the
   * binade, where doubles are `p` apart, by doubling `p` from 2, then round
   * to a multiple of `p`.
   */
  function RoundMagnitude(a: nat, p: nat): nat
    requires 2 <= p && TwoPow53 * p <= 2 * a && PowerOfTwo(p)
    decreases a - p
  {
    if a < TwoPow53 * p then RoundHalfEven(a, p)
    else
      assert (2 * p) / 2 == p;
      RoundMagnitude(a, 2 * p)
  }

  /** The rounded magnitude is the multiple of the binade's spacing nearest to `a`, a tie going to the even multiple. */
  lemma {:induction false} RoundMagnitudeNearest(a: nat, p: nat)
    requires 2 <= p && TwoPow53 * p <= 2 * a && PowerOfTwo(p)
    ensures RoundMagnitude(a, p) % Spacing(a, p) == 0
    ensures 2 * Abs(RoundMagnitude(a, p) - a) <= Spacing(a, p)
    ensures 2 * Abs(RoundMagnitude(a, p) - a) == Spacing(a, p) ==> (RoundMagnitude(a, p) / Spacing(a, p)) % 2 == 0
    decreases a - p
  {
    if a >= TwoPow53 * p {
      assert (2 * p) / 2 == p;
      RoundMagnitudeNearest(a, 2 * p);
    }
  }

  /**
   * The double nearest to the integer `x` (round half to even), which is what
   * an arithmetic operation on doubles yields when the exact result is `x`.
   * Overflow to Infinity (beyond about 1.8e308) is not represented.
   */
  function RoundToDouble(x: int): (r: int)
    ensures -TwoPow53 < x < TwoPow53 ==> r == x
    ensures x >= 0 ==> r >= 0
    ensures x <= 0 ==> r <= 0
    decreases if x < 0 then 1 else 0
  {
    if -TwoPow53 < x < TwoPow53 then x
    else if x > 0 then
      assert PowerOfTwo(2 / 2);
      RoundMagnitude(x, 2) as int
    else -RoundToDouble(-x)
  }

  /**
   * Beyond 2^53 the rounded value is the multiple of the binade's spacing
   * nearest to `x`, a tie going to the even multiple; negative values round
   * as their magnitudes do.
   */
  lemma RoundToDoubleNearest(x: int)
    ensures x >= TwoPow53 ==> RoundToDouble(x) % Ulp(x) == 0 && 2 * Abs(RoundToDouble(x) - x) <= Ulp(x)
    ensures x >= TwoPow53 && 2 * Abs(RoundToDouble(x) - x) == Ulp(x) ==> (RoundToDouble(x) / Ulp(x)) % 2 == 0
    ensures x <= -TwoPow53 ==> RoundToDouble(x) == -RoundToDouble(-x)
  {
    if x >= TwoPow53 {
      assert PowerOfTwo(2 / 2);
      RoundMagnitudeNearest(x, 2);
    }
  }

  /** Of two powers of two, the smaller is at most half the larger. */
  lemma {:induction false} PowerOfTwoGap(q: nat, p: nat)
    requires PowerOfTwo(q) && PowerOfTwo(p) && q < p
    ensures 2 * q <= p
    decreases q
  {
    if q >= 2 {
      PowerOfTwoGap(q / 2, p / 2);
    }
  }

  /** Doubling the spacing from `q` reaches the binade's spacing `p` and rounds there. */
  lemma {:induction false} RoundMagnitudeAt(x: nat, q: nat, p: nat)
    requires 2 <= q <= p && PowerOfTwo(q) && PowerOfTwo(p)
    requires TwoPow53 * q <= 2 * x && TwoPow53 * p <= 2 * x < 2 * TwoPow53 * p
    ensures RoundMagnitude(x, q) == RoundHalfEven(x, p)
    decreases p - q
  {
    if x < TwoPow53 * q {
      if q < p {
        PowerOfTwoGap(q, p);
      }
    } else {
      assert (2 * q) / 2 == q;
      PowerOfTwoGap(q, p);
      RoundMagnitudeAt(x, 2 * q, p);
    }
  }

  /** In the binade where doubles are `p` apart, rounding to a double is rounding to a multiple of `p`. */
  lemma RoundToDoubleAt(x: nat, p: nat)
    requires 2 <= p && PowerOfTwo(p) && TwoPow53 * p <= 2 * x < 2 * TwoPow53 * p
    ensures RoundToDouble(x) == RoundHalfEven(x, p)
  {
    assert PowerOfTwo(2 / 2);
    RoundMagnitudeAt(x, 2, p);
  }

  /** Rounding keeps at least half the magnitude of a non-positive integer, so a negative one stays negative. */
  lemma RoundKeepsHalf(x: int)
    ensures x <= 0 ==> 2 * RoundToDouble(x) <= x
  {
    if x <= -TwoPow53 {
      RoundToDoubleNearest(x);
      RoundToDoubleNearest(-x);
    }
  }

  /** Rounding a non-negative integer to a double moves it by at most a 2^-53 fraction of itself. */
  lemma RoundToDoubleRelative(x: nat)
    ensures TwoPow53 * (RoundToDouble(x) - x) <= x
    ensures TwoPow53 * (x - RoundToDouble(x)) <= x
  {
    if x >= TwoPow53 {
      RoundToDoubleNearest(x);
    }
  }

  /** The product of two naturals is a natural; stated so that callers need no nonlinear reasoning for it. */
  lemma NatProduct(a: nat, b: nat)
    ensures a * b >= 0
  {
  }

  lemma MulMono(a: int, b: int, c: int)
    requires a <= b && c >= 0
    ensures a * c <= b * c
  {
  }

  /** Euclidean division by a positive `d` recovers `k` from any number in [k * d, (k + 1) * d). */
  lemma DivBetween(a: int, d: int, k: int)
    requires d > 0 && k * d <= a < (k + 1) * d
    ensures a / d == k
  {
    var q := a / d;
    assert a == q * d + a % d && 0 <= a % d < d;
    if q > k {
      MulMono(k + 1, q, d);
    } else if q < k {
      MulMono(q + 1, k, d);
    }
  }

  /** A number below `k` multiples of a positive `d` divides to less than `k`. */
  lemma DivBelow(a: int, d: int, k: int)
    requires d > 0 && a < k * d
    ensures a / d < k
  {
    var q := a / d;
    assert a == q * d + a % d && 0 <= a % d < d;
    if q >= k {
      MulMono(k, q, d);
    }
  }

  /** ECMAScript ToInt32: reduce modulo 2^32 into the signed range. */
  function ToInt32(x: int): (r: int)
    ensures -TwoPow31 <= r < TwoPow31
    ensures -TwoPow31 <= x < TwoPow31 ==> r == x
  {
    var y := x % TwoPow32;
    if y >= TwoPow31 then y - TwoPow32 else y
  }

  /** `x << 5` on numbers: ToInt32 of the operand, shifted within 32 bits. */
  function ShiftLeft5(x: int): (r: int)
    ensures -TwoPow31 <= r < TwoPow31
  {
    ToInt32(ToInt32(x) * 32)
  }

  /** ToInt32 moves its argument by a whole number of 2^32 steps. */
  lemma ToInt32Offset(x: int) returns (k: int)
    ensures x == ToInt32(x) + k * TwoPow32
  {
    k := x / TwoPow32;
    if x % TwoPow32 >= TwoPow31 {
      k := k + 1;
    }
  }

  /** Two integers that differ by a multiple of 2^32 have the same ToInt32. */
  lemma ToInt32Congruent(x: int, y: int, k: int)
    requires x - y == k * TwoPow32
    ensures ToInt32(x) == ToInt32(y)
  {
  }

  /** `Math.PI`: the double nearest to pi, written out exactly. */
  const Pi: real := 3.141592653589793115997963468544185161590576171875

  /**
   * The functions of the global `Math` object the engine calls, kept
   * uninterpreted: each field stands for the function of the same name.
   */
  datatype MathLib = MathLib(
    sin: real -> real,
    cos: real -> real,
    tan: real -> real,
    exp: real -> real,
    log: real -> real,
    sqrt: real -> real)

  /** What the model assumes of `Math.sin` and `Math.cos` where it needs a bound: their range [-1, 1]. */
  ghost predicate SinCosBounded(m: MathLib)
  {
    forall x :: -1.0 <= m.sin(x) <= 1.0 && -1.0 <= m.cos(x) <= 1.0
  }
}
