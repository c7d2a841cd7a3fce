/** Conversions between 32-bit words and their four bytes, in the two byte orders the boot
    image uses: `u32::from_le_bytes`, `u32::to_be_bytes` and their counterparts. */
module ByteOrder {

  /** The bytes of `x`, most significant first. */
  function ToBeBytes(x: bv32): (b: seq<bv8>)
    ensures |b| == 4
  {
    [(x >> 24) as bv8, ((x >> 16) & 0xFF) as bv8, ((x >> 8) & 0xFF) as bv8, (x & 0xFF) as bv8]
  }

  /** The word whose bytes, most significant first, are `b0 b1 b2 b3`. */
  function FromBeBytes(b0: bv8, b1: bv8, b2: bv8, b3: bv8): bv32
  {
    ((b0 as bv32) << 24) | ((b1 as bv32) << 16) | ((b2 as bv32) << 8) | (b3 as bv32)
  }

  /** The word whose bytes, least significant first, are `b0 b1 b2 b3`. */
  function FromLeBytes(b0: bv8, b1: bv8, b2: bv8, b3: bv8): bv32
  {
    FromBeBytes(b3, b2, b1, b0)
  }

  /** Reading back the big-endian bytes of a word gives the word. */
  lemma BeRoundTrip(x: bv32)
    ensures FromBeBytes(ToBeBytes(x)[0], ToBeBytes(x)[1], ToBeBytes(x)[2], ToBeBytes(x)[3]) == x
  {
  }

  /** Writing a big-endian word gives back the bytes it was read from. */
  lemma BeBytesRoundTrip(b0: bv8, b1: bv8, b2: bv8, b3: bv8)
    ensures ToBeBytes(FromBeBytes(b0, b1, b2, b3)) == [b0, b1, b2, b3]
  {
  }

  /** A word read little-endian and written big-endian has its bytes reversed. */
  lemma LeToBeReverses(b0: bv8, b1: bv8, b2: bv8, b3: bv8)
    ensures ToBeBytes(FromLeBytes(b0, b1, b2, b3)) == [b3, b2, b1, b0]
  {
    BeBytesRoundTrip(b3, b2, b1, b0);
  }

  /** Byte `i` of the big-endian bytes of `x` is the top byte of `x` shifted left by `i`
      bytes. */
  lemma BeBytesAreTopBytes(x: bv32)
    ensures ToBeBytes(x) == [(x >> 24) as bv8, ((x << 8) >> 24) as bv8, (((x << 8) << 8) >> 24) as bv8, ((((x << 8) << 8) << 8) >> 24) as bv8]
  {
  }
}
