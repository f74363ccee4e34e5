/** Shared vocabulary: optional values, results, and the bounds of the Rust integer types the crawler uses. */
module Basics {

  datatype Option<+T> = None | Some(value: T)

  datatype Result<+T, +E> = Ok(value: T) | Err(error: E)

  /** Largest value of a Rust `u8`. */
  const U8Max: nat := 255
  /** Largest value of a Rust `u16`. */
  const U16Max: nat := 65535
  /** Largest value of a Rust `u64`. */
  const U64Max: nat := 18446744073709551615
  /** Smallest value of a Rust `i64`. */
  const I64Min: int := -9223372036854775808
  /** Largest value of a Rust `i64`. */
  const I64Max: nat := 9223372036854775807
}
