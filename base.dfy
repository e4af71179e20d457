/** Small shared vocabulary: an option type and the C integer widths the radio component uses. */
module Base {

  datatype Option<+T> = None | Some(value: T)

  /** 2^32: the modulus of C's uint32_t arithmetic. */
  const UINT32_MODULUS: int := 0x1_0000_0000

  type uint32 = x: int | 0 <= x < 0x1_0000_0000
  type byte = x: int | 0 <= x < 256

  /** Conversion of an int to uint32_t, as C performs it: reduction modulo 2^32. */
  function ToUint32(x: int): (r: uint32)
    ensures 0 <= x < UINT32_MODULUS ==> r == x
    ensures (x - r) % UINT32_MODULUS == 0
  {
    x % UINT32_MODULUS
  }

  /** Conversion of an int to uint8_t, as C performs it: reduction modulo 256. */
  function ToByte(x: int): (r: byte)
    ensures 0 <= x < 256 ==> r == x
    ensures (x - r) % 256 == 0
  {
    x % 256
  }

  /** uint32_t subtraction, which wraps around instead of going negative. */
  function Uint32Sub(a: uint32, b: uint32): (r: uint32)
    ensures b <= a ==> r == a - b
    ensures a < b ==> r == a - b + UINT32_MODULUS
  {
    ToUint32(a - b)
  }
}
