/** Fixed-width integers of the C sketch and the unsigned 32-bit arithmetic it relies on. */
module Words {

  const U16_MODULUS: int := 0x1_0000
  const U32_MODULUS: int := 0x1_0000_0000

  /** Largest reading of the 12-bit analog-to-digital converter. */
  const ADC_MAX: int := 4095

  type uint16 = x: int | 0 <= x < U16_MODULUS
  type uint32 = x: int | 0 <= x < U32_MODULUS

  /** A joystick sample as the converter delivers it: a `uint16_t` holding a 12-bit value. */
  type AdcSample = x: uint16 | x <= ADC_MAX

  /** `a - b` on two `uint32_t` operands: the mathematical difference, brought back
      into range by adding 2^32 when it would be negative. */
  function SubU32(a: uint32, b: uint32): (r: uint32)
    ensures a >= b ==> r == a - b
    ensures a < b ==> r == a - b + U32_MODULUS
    ensures (r + b) % U32_MODULUS == a
  {
    (a - b) % U32_MODULUS
  }
}
