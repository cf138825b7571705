/** The parts of Java's numeric semantics that the entity code relies on. */
module JavaNumerics {

  const INT_MIN: int := -0x8000_0000
  const INT_MAX: int := 0x7FFF_FFFF

  /**
   * A narrowing cast `(int) f` from a floating-point value to a 32-bit int,
   * on a real-valued stand-in for the float: the value is rounded toward zero,
   * and values beyond the int range saturate at its bounds.
   */
  function FloatToInt(f: real): (r: int)
    ensures INT_MIN <= r <= INT_MAX
    ensures 0.0 <= f ==> 0 <= r && r as real <= f
    ensures 0.0 <= f < INT_MAX as real ==> f < r as real + 1.0
    ensures f <= 0.0 ==> r <= 0 && f <= r as real
    ensures INT_MIN as real < f <= 0.0 ==> r as real - 1.0 < f
    ensures INT_MAX as real <= f ==> r == INT_MAX
    ensures f <= INT_MIN as real ==> r == INT_MIN
  {
    if f >= INT_MAX as real then INT_MAX
    else if f <= INT_MIN as real then INT_MIN
    else if f >= 0.0 then f.Floor
    else -((-f).Floor)
  }

  /** On an integral value inside the int range the cast is exact. */
  lemma {:induction false} FloatToIntExact(n: int)
    requires INT_MIN <= n <= INT_MAX
    ensures FloatToInt(n as real) == n
  {
  }
}
