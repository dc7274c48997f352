/** The few Kotlin standard-library behaviours the layout engine relies on,
    written out because Dafny's integers and operators differ from Kotlin's. */
module Kotlin {

  /** `Int.MAX_VALUE`, used by the background records as an "unbounded" sentinel. */
  const IntMaxValue: int := 0x7fff_ffff

  /** `Option` stands for a Kotlin nullable value, and for a call that throws
      `NoSuchElementException` or `IndexOutOfBoundsException` (`None`). */
  datatype Option<+T> = None | Some(value: T)

  /** Kotlin's integer `/`: truncates toward zero (Dafny's `/` is Euclidean). */
  function Div(a: int, b: int): (q: int)
    requires b > 0
    ensures a >= 0 ==> q * b <= a < q * b + b
    ensures a < 0 ==> q * b - b < a <= q * b
    ensures a >= 0 ==> q >= 0
    ensures a < 0 ==> q <= 0
  {
    if a >= 0 then a / b else -((-a) / b)
  }

  /** `coerceAtMost(maximumValue)`: the value itself unless it exceeds the maximum. */
  function CoerceAtMost(v: int, maximumValue: int): (r: int)
    ensures r <= maximumValue
    ensures r == v || r == maximumValue
    ensures v <= maximumValue ==> r == v
  {
    if v > maximumValue then maximumValue else v
  }

  /** `coerceAtLeast(minimumValue)`: the value itself unless it is below the minimum. */
  function CoerceAtLeast(v: int, minimumValue: int): (r: int)
    ensures r >= minimumValue
    ensures r == v || r == minimumValue
    ensures v >= minimumValue ==> r == v
  {
    if v < minimumValue then minimumValue else v
  }

  /** `maxOf { … }` over a non-empty collection (it throws on an empty one,
      so callers decide the empty case before calling). */
  function MaxOf(s: seq<int>): (m: int)
    requires |s| > 0
    ensures m in s
    ensures forall i :: 0 <= i < |s| ==> s[i] <= m
  {
    if |s| == 1 then s[0]
    else
      var rest := MaxOf(s[1..]);
      if s[0] >= rest then s[0] else rest
  }

  /** The selector value of `minBy { … }` over a non-empty collection. */
  function MinOf(s: seq<int>): (m: int)
    requires |s| > 0
    ensures m in s
    ensures forall i :: 0 <= i < |s| ==> m <= s[i]
  {
    if |s| == 1 then s[0]
    else
      var rest := MinOf(s[1..]);
      if s[0] <= rest then s[0] else rest
  }
}
