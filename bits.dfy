/** Byte-level helpers shared by every driver: how a 16-bit register address or
    value is split into bytes for the bus, and how two received bytes are
    joined again (most significant byte first). */
module Bits {

  /** A value that travels as one byte on the I2C bus. */
  type byte = x: int | 0 <= x < 0x100

  /** An unsigned 16-bit register address or register value. */
  type u16 = x: int | 0 <= x < 0x1_0000

  /** `(x >> 8) & 0xFF`. Python's `>>` floors and its `&` keeps the low bits
      of the two's-complement form, which are Dafny's `/` and `%` by a
      positive divisor, for negative `x` as well. */
  function HighByte(x: int): byte
  {
    (x / 0x100) % 0x100
  }

  /** `x & 0xFF`. */
  function LowByte(x: int): byte
  {
    x % 0x100
  }

  /** `(high << 8) | low`: the 16-bit value a big-endian byte pair encodes. */
  function Word(high: byte, low: byte): (w: u16)
    ensures HighByte(w) == high && LowByte(w) == low
  {
    high * 0x100 + low
  }

  /** Splitting a 16-bit value into its big-endian bytes and joining them
      again gives the value back. */
  lemma WordOfBytes(x: u16)
    ensures Word(HighByte(x), LowByte(x)) == x
  {
  }

  /** `x & 0x01` is non-zero: bit 0 is set. */
  predicate Bit0(x: int)
  {
    x % 2 == 1
  }

  /** `(x >> 4) & 0x0F`: bits 4 to 7 of a status byte. */
  function HighNibble(x: byte): (n: int)
    ensures 0 <= n < 16
    ensures n == 0 <==> x < 16
  {
    (x / 16) % 16
  }
}

/** The usual optional value; Python's `None` and C's `-1` sentinel become `None`. */
module Optional {
  datatype Option<T> = None | Some(value: T)
}
