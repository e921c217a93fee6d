/** The JavaScript number operations the dashboard relies on, on mathematical
    integers and reals: the ToInt32 conversion done by `<<` and `&`, `Math.round`,
    and `Math.floor` / `Math.ceil` of a quotient of whole milliseconds. */
module JsNumber {

  const TwoTo31: int := 0x8000_0000
  const TwoTo32: int := 0x1_0000_0000

  predicate IsInt32(x: int) {
    -TwoTo31 <= x < TwoTo31
  }

  /** ToInt32: the signed 32-bit integer congruent to `x` modulo 2^32. */
  function ToInt32(x: int): (r: int)
    ensures IsInt32(r)
    ensures (x - r) % TwoTo32 == 0
  {
    var m := x % TwoTo32;
    if m >= TwoTo31 then m - TwoTo32 else m
  }

  /** ToInt32 sees its argument only modulo 2^32. */
  lemma ToInt32Congruent(x: int, y: int)
    requires (x - y) % TwoTo32 == 0
    ensures ToInt32(x) == ToInt32(y)
  {
    var k := (x - y) / TwoTo32;
    assert x == y + k * TwoTo32;
    assert x % TwoTo32 == y % TwoTo32 by {
      ModShift(y, k);
    }
  }

  lemma ModShift(y: int, k: int)
    ensures (y + k * TwoTo32) % TwoTo32 == y % TwoTo32
  {
  }

  /** ToInt32 leaves a signed 32-bit value as it is. */
  lemma ToInt32OfInt32(x: int)
    requires IsInt32(x)
    ensures ToInt32(x) == x
  {
    ToInt32Congruent(x, ToInt32(x));
    var r := ToInt32(x);
    assert (x - r) % TwoTo32 == 0;
    assert -TwoTo32 < x - r < TwoTo32;
  }

  /** `Math.abs` on integers. */
  function Abs(x: int): (r: nat)
    ensures r == x || r == -x
  {
    if x < 0 then -x else x
  }

  /** `Math.round(x)`: the nearest integer, a half rounded up towards +infinity. */
  function Round(x: real): (r: int)
    ensures r as real - 1.0 / 2.0 <= x < r as real + 1.0 / 2.0
  {
    (x + 1.0 / 2.0).Floor
  }

  /** `Math.min` on reals. */
  function Min(a: real, b: real): (r: real)
    ensures r <= a && r <= b
    ensures r == a || r == b
  {
    if a <= b then a else b
  }

  /** `Math.max` on reals. */
  function Max(a: real, b: real): (r: real)
    ensures r >= a && r >= b
    ensures r == a || r == b
  {
    if a >= b then a else b
  }

  /** `Math.floor(a / b)` for a positive divisor. */
  function FloorDiv(a: int, b: int): (q: int)
    requires b > 0
    ensures q * b <= a < (q + 1) * b
  {
    a / b
  }

  /** `Math.ceil(a / b)` for a positive divisor. */
  function CeilDiv(a: int, b: int): (q: int)
    requires b > 0
    ensures (q - 1) * b < a <= q * b
  {
    -((-a) / b)
  }
}
