/**
 * Rust's fixed-width integers u64 and i64, and the checked arithmetic the
 * program is built with: an operation that leaves the type's range panics,
 * which aborts the whole transaction (`None` here).
 */
module Integers {
  import opened Wrappers

  const U64_MAX: int := 0xFFFF_FFFF_FFFF_FFFF
  const I64_MIN: int := -0x8000_0000_0000_0000
  const I64_MAX: int := 0x7FFF_FFFF_FFFF_FFFF
  const TWO_TO_THE_64: int := 0x1_0000_0000_0000_0000

  type u64 = x: int | 0 <= x <= U64_MAX
  type i64 = x: int | I64_MIN <= x <= I64_MAX

  predicate IsI64(x: int) { I64_MIN <= x <= I64_MAX }

  function CheckedSub(a: u64, b: u64): Option<u64> {
    if a - b < 0 then None else Some(a - b)
  }

  function CheckedMul(a: u64, b: u64): Option<u64> {
    if a * b > U64_MAX then None else Some(a * b)
  }

  function CheckedSubI64(a: i64, b: i64): Option<i64> {
    if IsI64(a - b) then Some(a - b) else None
  }

  /**
   * The cast `x as i64` of a u64: it keeps the low 64 bits, so values above
   * I64_MAX come out negative.
   */
  function AsI64(x: u64): (r: i64)
    ensures (x - r) % TWO_TO_THE_64 == 0
    ensures x <= I64_MAX <==> r == x
    ensures x > I64_MAX <==> r < 0
  {
    if x <= I64_MAX then x else x - TWO_TO_THE_64
  }
}
