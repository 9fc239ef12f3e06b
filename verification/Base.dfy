/** Vocabulary shared by every component. */
module Base {

  datatype Option<+T> = None | Some(value: T)

  /** The 64-bit signed integers of the program. Arithmetic on this type is verified to stay in range. */
  newtype int64 = x: int | -0x8000_0000_0000_0000 <= x <= 0x7FFF_FFFF_FFFF_FFFF

  /** The 64-bit unsigned sizes of the program. */
  newtype uint64 = x: int | 0 <= x <= 0xFFFF_FFFF_FFFF_FFFF

  const INT64_MAX: int := 0x7FFF_FFFF_FFFF_FFFF
  const INT64_MIN: int := -0x8000_0000_0000_0000
}
