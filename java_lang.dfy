/**
  The parts of the Java runtime the brush controller relies on: 32-bit `int`
  arithmetic with wrap-around, `Math.min`/`Math.max`, and the two exceptions the
  modelled code can raise, surfaced as an `Outcome` instead of a throw.
 */
module JavaLang {

  const INT_MIN: int := -0x8000_0000
  const INT_MAX: int := 0x7fff_ffff

  /** A Java `int`. */
  type int32 = x: int | INT_MIN <= x <= INT_MAX

  /** Two's-complement wrap of an unbounded integer into the `int` range. */
  function Wrap(x: int): (r: int32)
    ensures INT_MIN <= x <= INT_MAX ==> r == x
    ensures (r - x) % 0x1_0000_0000 == 0
  {
    (x - INT_MIN) % 0x1_0000_0000 + INT_MIN
  }

  /** `x + 1` on a Java `int`. */
  function Inc(x: int32): (r: int32)
    ensures x < INT_MAX ==> r == x + 1
    ensures x == INT_MAX ==> r == INT_MIN
  {
    Wrap(x + 1)
  }

  /** `x - 1` on a Java `int`. */
  function Dec(x: int32): (r: int32)
    ensures x > INT_MIN ==> r == x - 1
    ensures x == INT_MIN ==> r == INT_MAX
  {
    Wrap(x - 1)
  }

  /** `Math.min`. */
  function Min(a: int, b: int): (m: int)
    ensures m <= a && m <= b
    ensures m == a || m == b
  {
    if a <= b then a else b
  }

  /** `Math.max`. */
  function Max(a: int, b: int): (m: int)
    ensures m >= a && m >= b
    ensures m == a || m == b
  {
    if a >= b then a else b
  }

  /** The exceptions the modelled code can throw. */
  datatype Exception =
    | IllegalArgument     // java.lang.IllegalArgumentException
    | IndexOutOfBounds    // java.lang.IndexOutOfBoundsException from List.get

  /** A call that either completes normally or throws. */
  datatype Outcome = Pass | Fail(error: Exception)
}
