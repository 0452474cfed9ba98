/**
 * The C integer types the firmware stores its values in, as ranges of
 * Dafny's unbounded integers, with the casts it performs written out.
 */
module Stdint {
  const INT16_MIN: int := -0x8000
  const INT16_MAX: int := 0x7FFF
  const INT32_MIN: int := -0x8000_0000
  const INT32_MAX: int := 0x7FFF_FFFF
  const UINT32_MAX: int := 0xFFFF_FFFF

  type int16 = x: int | INT16_MIN <= x <= INT16_MAX
  type uint16 = x: int | 0 <= x < 0x1_0000
  type int32 = x: int | INT32_MIN <= x <= INT32_MAX
  type uint32 = x: int | 0 <= x <= UINT32_MAX
  type int64 = x: int | -0x8000_0000_0000_0000 <= x < 0x8000_0000_0000_0000

  /** `(uint16_t)v`: reduction modulo 2^16. */
  function ToUint16(v: int): (r: uint16)
    ensures 0 <= v < 0x1_0000 ==> r == v
    ensures -0x1_0000 <= v < 0 ==> r == v + 0x1_0000
  {
    v % 0x1_0000
  }

  /** `(int16_t)u` for a `uint16_t` value: the two's-complement reading. */
  function ToInt16(u: uint16): (r: int16)
  {
    if u <= INT16_MAX then u else u - 0x1_0000
  }

  /** On the int16 range the cast to uint16 loses nothing: casting back gives the value. */
  lemma Uint16CastRoundTrip(v: int)
    requires INT16_MIN <= v <= INT16_MAX
    ensures ToInt16(ToUint16(v)) == v
  {
  }

  /** Hence the cast is injective on the int16 range. */
  lemma Uint16CastInjective(a: int, b: int)
    requires INT16_MIN <= a <= INT16_MAX && INT16_MIN <= b <= INT16_MAX
    ensures ToUint16(a) == ToUint16(b) <==> a == b
  {
    Uint16CastRoundTrip(a);
    Uint16CastRoundTrip(b);
  }
}
