/** Types every part of the model uses. */
module Basics {
  datatype Option<T> = None | Some(value: T)

  type u8 = x: int | 0 <= x < 256
  type u16 = x: int | 0 <= x < 0x1_0000
  type u64 = x: int | 0 <= x < 0x1_0000_0000_0000_0000
}
