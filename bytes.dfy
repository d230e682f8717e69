/** Signed Kotlin bytes and unsigned wire bytes, and the two conversions the
    source relies on: Kotlin's `Int.toByte()` when a frame is built and
    Swift's `UInt8(bitPattern:)` when it is handed to CoreBluetooth. */
module Bytes {

  /** Kotlin's `Byte`: two's complement, -128..127. */
  type Int8 = x: int | -128 <= x < 128

  /** Swift's `UInt8`: a byte as it goes over the air. */
  type UInt8 = x: int | 0 <= x < 256

  /** Kotlin `Int.toByte()`: keeps the low eight bits and reads them as a
      signed byte, so the result is the one Int8 congruent to `v`. */
  function ToByte(v: int): (b: Int8)
    ensures (v - b) % 256 == 0
  {
    (v + 128) % 256 - 128
  }

  /** Swift `UInt8(bitPattern:)`: the same eight bits read as unsigned, that
      is the one UInt8 congruent to `b`. */
  function BitPattern(b: Int8): (u: UInt8)
    ensures (u - b) % 256 == 0
  {
    if b >= 0 then b else b + 256
  }

  /** The unsigned reading of a whole Kotlin byte array. */
  function Unsigned(s: seq<Int8>): (w: seq<UInt8>)
    ensures |w| == |s|
    ensures forall i :: 0 <= i < |s| ==> w[i] == BitPattern(s[i])
  {
    seq(|s|, i requires 0 <= i < |s| => BitPattern(s[i]))
  }

  /** Narrowing a value in 0..255 with `toByte()` and reading the bits back
      unsigned gives the value again. */
  lemma ByteRoundTrip(v: int)
    requires 0 <= v < 256
    ensures BitPattern(ToByte(v)) == v
  {
  }

  /** Two different signed bytes never share a bit pattern. */
  lemma BitPatternInjective(a: Int8, b: Int8)
    ensures BitPattern(a) == BitPattern(b) ==> a == b
  {
  }
}
