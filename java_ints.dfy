/** Java's fixed-width integers, as far as the livestock code uses them. */
module JavaInts {

  /** Java `int`: 32-bit two's complement. */
  newtype Int32 = x: int | -0x8000_0000 <= x < 0x8000_0000

  /** Java `long`: 64-bit two's complement. */
  newtype Long = x: int | -0x8000_0000_0000_0000 <= x < 0x8000_0000_0000_0000

  const INT_RANGE: int := 0x1_0000_0000

  /** The `long` values that an `int` can hold unchanged. */
  predicate FitsInt32(x: Long) {
    -0x8000_0000 <= x as int < 0x8000_0000
  }

  /** Java's narrowing cast `(int) x` of a `long`: it keeps the low 32 bits
      and reads them as a two's complement `int`. The result agrees with `x`
      modulo 2^32, and equals `x` exactly when `x` fits in an `int`. */
  function NarrowToInt(x: Long): (r: Int32)
    ensures (x as int - r as int) % INT_RANGE == 0
    ensures r as int == x as int <==> FitsInt32(x)
  {
    var low := x as int % INT_RANGE;
    if low < 0x8000_0000 then low as Int32 else (low - INT_RANGE) as Int32
  }
}
