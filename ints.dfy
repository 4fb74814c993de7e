/** The fixed-width integer types of the C# signatures. */
module Ints {
  newtype int32 = x: int | -0x8000_0000 <= x < 0x8000_0000
  newtype uint32 = x: int | 0 <= x < 0x1_0000_0000
  newtype uint16 = x: int | 0 <= x < 0x1_0000
}
