/** Go's fixed-width integer types, as the subranges of int they hold. */
module GoInts {
  newtype uint8 = x: int | 0 <= x < 0x100
  newtype uint16 = x: int | 0 <= x < 0x1_0000
  newtype uint32 = x: int | 0 <= x < 0x1_0000_0000
  newtype uint64 = x: int | 0 <= x < 0x1_0000_0000_0000_0000
  newtype int64 = x: int | -0x8000_0000_0000_0000 <= x < 0x8000_0000_0000_0000

  type byte = uint8

  /** Two's-complement wrap-around of a 64-bit signed addition or conversion. */
  function WrapInt64(x: int): (r: int64)
    ensures (r as int - x) % 0x1_0000_0000_0000_0000 == 0
    ensures -0x8000_0000_0000_0000 <= x < 0x8000_0000_0000_0000 ==> r as int == x
  {
    ((x + 0x8000_0000_0000_0000) % 0x1_0000_0000_0000_0000 - 0x8000_0000_0000_0000) as int64
  }

  /** Go's conversion uint32(x) of a non-negative int: keeps the low 32 bits. */
  function TruncU32(x: nat): (r: uint32)
    ensures (r as int - x) % 0x1_0000_0000 == 0
    ensures x < 0x1_0000_0000 ==> r as int == x
  {
    (x % 0x1_0000_0000) as uint32
  }

  /** Go's conversion uint8(x) of a non-negative int: keeps the low 8 bits. */
  function TruncU8(x: nat): (r: uint8)
    ensures (r as int - x) % 0x100 == 0
    ensures x < 0x100 ==> r as int == x
  {
    (x % 0x100) as uint8
  }
}
