/** Kotlin's 32-bit `Int` range and the `Float.toInt()` conversion, stated over
    Dafny's unbounded `int` and exact `real`. */
module KotlinNumbers {

  const IntMax: int := 0x7fff_ffff
  const IntMin: int := -0x8000_0000

  /** Truncation toward zero, as a JVM float-to-int conversion does for values in range. */
  function Trunc(x: real): (r: int)
    ensures 0.0 <= x ==> 0 <= r && r as real <= x < r as real + 1.0
    ensures x < 0.0 ==> r <= 0 && r as real - 1.0 < x <= r as real
  {
    if x >= 0.0 then x.Floor else -((-x).Floor)
  }

  /** `Float.toInt()`: truncates toward zero and saturates at the ends of the `Int` range
      (an infinite float becomes `Int.MAX_VALUE` or `Int.MIN_VALUE`). */
  function ToInt(x: real): (r: int)
    ensures IntMin <= r <= IntMax
    ensures 0.0 <= x <= IntMax as real ==> r as real <= x < r as real + 1.0
    ensures IntMin as real <= x < 0.0 ==> r as real - 1.0 < x <= r as real
    ensures x >= IntMax as real ==> r == IntMax
    ensures x <= IntMin as real ==> r == IntMin
    ensures (0.0 <= x ==> 0 <= r) && (x <= 0.0 ==> r <= 0)
  {
    if x >= IntMax as real then IntMax
    else if x <= IntMin as real then IntMin
    else Trunc(x)
  }

  /** On a non-negative float in range, `toInt()` is the floor. */
  lemma ToIntIsFloor(x: real)
    requires 0.0 <= x <= IntMax as real
    ensures ToInt(x) == x.Floor
  {
  }
}
