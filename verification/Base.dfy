/** Vocabulary shared by every part of the model: optional values, results and the fixed integer widths. */
module Base {
  newtype byte = x: int | 0 <= x < 256

  datatype Option<+T> = None | Some(value: T)

  datatype Result<+T, +E> = Ok(value: T) | Err(error: E)

  const I64_MAX: int := 0x7FFF_FFFF_FFFF_FFFF
  const I64_MIN: int := -0x8000_0000_0000_0000
  const U64_MAX: int := 0xFFFF_FFFF_FFFF_FFFF
  const I32_MAX: int := 0x7FFF_FFFF

  function Min(a: int, b: int): int {
    if a <= b then a else b
  }

  function Max(a: int, b: int): int {
    if a <= b then b else a
  }

  /** `i64::saturating_add` for non-negative operands. */
  function AddSat64(a: int, b: int): int {
    Min(a + b, I64_MAX)
  }

  /** `u64::saturating_add`. */
  function AddSatU64(a: int, b: int): int {
    Min(a + b, U64_MAX)
  }

  /** `u64::saturating_sub`. */
  function SubSat(a: int, b: int): int {
    if b <= a then a - b else 0
  }
}
