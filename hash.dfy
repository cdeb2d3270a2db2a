/**
 * The rolling string hash that turns a query's `refId` into a sub-seed:
 * `hash = (hash << 5) - hash + charCode; hash = hash & hash`, then `|hash|`.
 */
module Hash {
  import opened JsNumber

  /**
   * One loop iteration, `(hash << 5) - hash + c` followed by `hash & hash`
   * (which only converts to signed 32 bits): the signed 32-bit wrap of `31 * hash + c`.
   */
  function HashStep(hash: int, c: CodeUnit): (h: int)
    ensures -TwoPow31 <= h < TwoPow31
    ensures h == ToInt32(31 * hash + c as int)
  {
    ShiftSubtractIsTimes31(hash, c as int);
    ToInt32(ShiftLeft5(hash) - hash + c as int)
  }

  /** `(h << 5) - h + c` agrees with `31 * h + c` modulo 2^32, whatever `h` is. */
  lemma ShiftSubtractIsTimes31(h: int, c: int)
    ensures ToInt32(ShiftLeft5(h) - h + c) == ToInt32(31 * h + c)
  {
    var k1 := ToInt32Offset(h);
    var k2 := ToInt32Offset(ToInt32(h) * 32);
    ToInt32Congruent(ShiftLeft5(h) - h + c, 31 * h + c, -(k2 + 32 * k1));
  }

  /** The value of `hash` after the loop has consumed `s`. */
  function HashFold(s: seq<CodeUnit>): (h: int)
    ensures -TwoPow31 <= h < TwoPow31
    decreases |s|
  {
    if |s| == 0 then 0 else HashStep(HashFold(s[..|s| - 1]), s[|s| - 1])
  }

  /** The unwrapped polynomial `s[0]*31^(n-1) + ... + s[n-1]`. */
  function Polynomial(s: seq<CodeUnit>): int
    decreases |s|
  {
    if |s| == 0 then 0 else 31 * Polynomial(s[..|s| - 1]) + s[|s| - 1] as int
  }

  /** The hash is the base-31 polynomial of the code units, wrapped once to signed 32 bits. */
  lemma {:induction false} HashIsWrappedPolynomial(s: seq<CodeUnit>)
    ensures HashFold(s) == ToInt32(Polynomial(s))
    decreases |s|
  {
    if |s| > 0 {
      var init, c := s[..|s| - 1], s[|s| - 1] as int;
      HashIsWrappedPolynomial(init);
      var p := Polynomial(init);
      var k := ToInt32Offset(p);
      ToInt32Congruent(31 * ToInt32(p) + c, 31 * p + c, -31 * k);
    }
  }

  /** The empty string hashes to 0. */
  lemma EmptyHash()
    ensures HashFold([]) == 0
  {
  }

  /** `hashString(str)`: the loop over the code units, then the absolute value. */
  method HashString(str: seq<CodeUnit>) returns (r: int)
    ensures r == Abs(HashFold(str))
    ensures 0 <= r <= TwoPow31
  {
    var hash := 0;
    for i := 0 to |str|
      invariant hash == HashFold(str[..i])
    {
      var ch := str[i] as int;
      hash := ShiftLeft5(hash) - hash + ch;
      hash := ToInt32(hash);  // `hash & hash`: a value anded with itself is its 32-bit form
      assert str[..i + 1][..i] == str[..i];
    }
    assert str[..|str|] == str;
    r := Abs(hash);
  }
}
