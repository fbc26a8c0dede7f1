/** Rust's Option and Result, the byte type of C strings and the fixed-width integers. */
module Prelude {

  datatype Option<+T> = None | Some(value: T) {
    predicate IsFailure() { None? }

    function PropagateFailure<U>(): Option<U>
      requires None?
    {
      None
    }

    function Extract(): T
      requires Some?
    {
      value
    }
  }

  datatype Result<+T, +E> = Ok(value: T) | Err(error: E)

  /** A C `char` as an unsigned byte. */
  newtype byte = x: int | 0 <= x < 256

  /** Rust's fixed-width unsigned integers, as the ranges they admit. */
  type u32 = x: nat | x < 0x1_0000_0000
  type u64 = x: nat | x < 0x1_0000_0000_0000_0000
  /** `usize` on the 64-bit targets the crate is built for. */
  type usize = x: nat | x < 0x1_0000_0000_0000_0000
}
