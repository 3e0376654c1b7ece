/** The C integer widths the program uses, and optional values. */
module Common {
  type U8 = x: nat | x < 256
  type U32 = x: nat | x < 0x1_0000_0000
  type I16 = x: int | -0x8000 <= x < 0x8000
  type Int32 = x: int | -0x8000_0000 <= x <= 0x7fff_ffff

  datatype Option<+T> = None | Some(value: T)
}
