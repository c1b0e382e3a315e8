/** Small value types shared by the other modules: machine integers and the
    Option and Result wrappers. */
module Prelude {

  /** Rust `u8`: one byte of a pixel payload. */
  newtype u8 = x: int | 0 <= x < 0x100

  /** Rust `u32`: image height, width, row stride and the stored endianness flag. */
  newtype u32 = x: int | 0 <= x < 0x1_0000_0000

  datatype Option<+T> = None | Some(value: T)

  datatype Result<+R, +E> = Success(value: R) | Failure(error: E)
}
