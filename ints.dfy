/** Fixed-width C integer types, byte splitting, and the small wrapper types
    shared by the rest of the model. */
module Ints {

  type uint8 = x: int | 0 <= x < 0x100
  type uint16 = x: int | 0 <= x < 0x1_0000
  type uint32 = x: int | 0 <= x < 0x1_0000_0000

  const UINT32_MAX: uint32 := 0xFFFF_FFFF

  datatype Option<+T> = None | Some(value: T)

  /** Low byte of a 16-bit value (`x & 0xff`). */
  function Lo(x: uint16): (r: uint8)
    ensures r < 0x100 && (x - r) % 0x100 == 0
  {
    x % 0x100
  }

  /** High byte of a 16-bit value (`x >> 8`). */
  function Hi(x: uint16): (r: uint8)
    ensures r * 0x100 <= x < (r + 1) * 0x100
  {
    x / 0x100
  }

  /** Splitting a 16-bit value into its two bytes loses nothing. */
  lemma LoHiJoin(x: uint16)
    ensures Lo(x) + 0x100 * Hi(x) == x
  {
  }

  /** Unsigned 32-bit addition, wrapping as C's uint32_t does. */
  function Add32(a: uint32, b: int): (r: uint32)
    ensures 0 <= a + b < 0x1_0000_0000 ==> r == a + b
  {
    (a + b) % 0x1_0000_0000
  }

  function Min(a: int, b: int): (r: int)
    ensures r <= a && r <= b && (r == a || r == b)
  {
    if a < b then a else b
  }
}
