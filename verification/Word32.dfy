/**
  Unsigned 32-bit words, as the simulator stores sequence numbers and windows.
  Arithmetic wraps modulo 2^32; a computation that is meant to saturate says so.
 */
module Word32 {

  const MODULUS: int := 0x1_0000_0000
  const MAX_WORD: int := 0xFFFF_FFFF

  type u32 = x: int | 0 <= x < 0x1_0000_0000

  type byte = x: int | 0 <= x < 256

  /** The word congruent to an integer modulo 2^32. */
  function Wrap(x: int): (r: u32)
    ensures 0 <= x < MODULUS ==> r == x
  {
    x % MODULUS
  }
}
