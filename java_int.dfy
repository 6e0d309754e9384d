/** Java's 32-bit `int`, with the silent two's-complement wrap-around of its arithmetic. */
module JavaInt {

  const INT_MIN: int := -0x8000_0000
  const INT_MAX: int := 0x7fff_ffff
  const TWO_32: int := 0x1_0000_0000

  type Int32 = x: int | INT_MIN <= x <= INT_MAX

  /** The `int` that Java yields for the exact value `x`: the one value in range congruent to it. */
  function Wrap(x: int): (r: Int32)
    ensures (x - r) % TWO_32 == 0
    ensures INT_MIN <= x <= INT_MAX ==> r == x
  {
    (x - INT_MIN) % TWO_32 + INT_MIN
  }
}
