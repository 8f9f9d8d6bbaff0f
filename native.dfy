/** Rust's fixed-width integer types used by the MIDI tool. */
module Native {
  /** Rust `u8`: one byte. */
  newtype u8 = x: int | 0 <= x < 0x100

  /** Rust `u32`: a driver timestamp. */
  newtype u32 = x: int | 0 <= x < 0x1_0000_0000

  /** Rust `i32`: a driver device id. */
  newtype i32 = x: int | -0x8000_0000 <= x < 0x8000_0000
}
