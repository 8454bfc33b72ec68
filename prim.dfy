/** Rust's fixed-width unsigned integers, its error-or-value result type,
    and the truncating `as` casts the codec relies on. */
module Prim {

  /** `u8`, `u16` and `u32` are bit-vectors: shifts, masks and `|` behave as in Rust. */
  type u8 = bv8
  type u16 = bv16
  type u32 = bv32

  /** Rust's `Result<T, &'static str>`; the error message is left opaque. */
  datatype Result<T> = Ok(value: T) | Err

  /** `x as u8` for a `u16`: keeps the low byte and drops the rest. */
  function U16AsU8(x: u16): (r: u8)
    ensures r as u16 == x % 0x100
  {
    (x & 0xFF) as u8
  }

  /** `x as u8` for a `u32`: keeps the low byte and drops the rest. */
  function U32AsU8(x: u32): (r: u8)
    ensures r as u32 == x % 0x100
  {
    (x & 0xFF) as u8
  }

  /** `b as u32`: `true` is 1 and `false` is 0. */
  function BoolAsU32(b: bool): (r: u32)
    ensures r <= 1 && (r == 1 <==> b)
  {
    if b then 1 else 0
  }
}
