/** Rust's fixed-width signed integer `i32`, as a bounded subset of `int`. */
module Ints {

  const INT32_MIN: int := -0x8000_0000
  const INT32_MAX: int := 0x7fff_ffff

  type Int32 = x: int | INT32_MIN <= x <= INT32_MAX
}
