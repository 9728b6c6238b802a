/**
 * The fixed-width integer types the tutorial's code uses.
 * C++ `int` is 32 bits wide on every platform the code targets, and signed
 * overflow is undefined behaviour, so every operation on `int32` that could
 * overflow carries a precondition instead of a wrap-around.
 */
module CppInt {

  const INT_MIN: int := -0x8000_0000
  const INT_MAX: int := 0x7FFF_FFFF

  /** C++ `int`. */
  newtype int32 = x: int | -0x8000_0000 <= x < 0x8000_0000

  /** C++ `uint8_t`, the underlying type of `Color8` and `Month`. */
  newtype uint8 = x: int | 0 <= x < 0x100

  /** True when `x` is a value an `int` can hold, so computing it is defined. */
  predicate IsInt(x: int) {
    INT_MIN <= x <= INT_MAX
  }
}
