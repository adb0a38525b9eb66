/** Idealised arithmetic helpers shared by the components: the `Math.min`,
    `Math.max`, `Math.abs` and `Math.round` of the host, over `real`, and the
    `clamp(value, min, max)` helper that several components define. */
module Numeric {

  function Min(a: real, b: real): (r: real)
    ensures r <= a && r <= b
    ensures r == a || r == b
  {
    if a <= b then a else b
  }

  function Max(a: real, b: real): (r: real)
    ensures r >= a && r >= b
    ensures r == a || r == b
  {
    if a >= b then a else b
  }

  function Abs(x: real): (r: real)
    ensures r >= 0.0
    ensures r == x || r == -x
  {
    if x >= 0.0 then x else -x
  }

  /** `Math.min(hi, Math.max(lo, value))`: never above `hi`, never below `lo`
      when the range is not empty, the identity inside the range, and the
      nearer bound outside it. */
  function Clamp(value: real, lo: real, hi: real): (r: real)
    ensures r <= hi
    ensures lo <= hi ==> lo <= r
    ensures lo <= value <= hi ==> r == value
    ensures lo <= hi && value <= lo ==> r == lo
    ensures value >= hi ==> r == hi
  {
    Min(hi, Max(lo, value))
  }

  /** `Math.round`: the nearest integer, halves rounded towards +infinity. */
  function Round(x: real): (r: int)
    ensures r as real - 0.5 <= x < r as real + 0.5
  {
    (x + 0.5).Floor
  }
}
