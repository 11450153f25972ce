/** The board's integer widths, and the millisecond clock that wraps at 2^32. */
module Platform {
  const TWO_TO_THE_32: int := 0x1_0000_0000

  type Byte = x: int | 0 <= x < 256
  type SByte = x: int | -128 <= x < 128
  type Word32 = x: int | 0 <= x < TWO_TO_THE_32

  datatype Option<+T> = None | Some(value: T)

  /** Unsigned 32-bit arithmetic. Applied to a true time it is what `millis()` returns at that time. */
  function Wrap32(x: int): Word32 {
    x % TWO_TO_THE_32
  }

  /** A cast to `uint8_t`, or to an enum stored in one unsigned byte. */
  function ToByte(x: int): Byte {
    x % 256
  }

  /** A cast to `int8_t`. */
  function ToSByte(x: int): SByte {
    if x % 256 < 128 then x % 256 else x % 256 - 256
  }

  /** Subtracting two readings of the wrapping clock gives the true elapsed time modulo 2^32. */
  lemma ElapsedModulo(r: nat, t: nat)
    requires r <= t
    ensures Wrap32(Wrap32(t) - Wrap32(r)) == (t - r) % TWO_TO_THE_32
  {}
}
