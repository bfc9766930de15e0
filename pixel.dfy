/**
 Pixels of the raster and the fixed-width integers the search works with.

 A pixel is a packed 32-bit RGBA word; channel `c` (0 to 3) is the byte lane
 `c` of that word, counted from the least significant byte.
 */
module Pixel {

  /** One packed RGBA pixel (`uint32` in the source). */
  type Word = bv32

  /** 2^32: the modulus of the source's `uint32` arithmetic. */
  const WordRange: nat := 0x1_0000_0000

  /** The source's `uint16`: arithmetic on it must stay in range, so Dafny checks that nothing overflows. */
  newtype U16 = x: int | 0 <= x < 0x1_0000

  /** Number of 8-bit channels in a packed pixel. */
  const Channels: nat := 4

  /** The largest value an 8-bit channel can hold. */
  const ChannelMax: nat := 255

  /** `(p >> 8c) & 0xff`: byte lane `c` of the packed pixel `p`. */
  function ChannelOf(p: Word, c: nat): (v: nat)
    requires c < Channels
    ensures v <= ChannelMax
  {
    ((p >> (8 * c)) & 0xff) as nat
  }

  /** Unsigned 32-bit addition result: `x` reduced modulo 2^32. */
  function Wrap32(x: nat): (r: nat)
    ensures r < WordRange
    ensures r <= x
    ensures x < WordRange ==> r == x
    ensures x >= WordRange ==> r + WordRange <= x
  {
    x % WordRange
  }
}
