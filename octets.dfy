/** Shared vocabulary: octets and the optional-value wrapper. */
module Octets {

  /** An 8-bit value as stored in a `uint8_t` or an unsigned `char`. */
  type byte = b: int | 0 <= b < 256

  /** A value that may be missing: a NULL result, a failed lookup. */
  datatype Option<+T> = None | Some(value: T)
}
