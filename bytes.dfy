/**
 * Fixed-width unsigned integers and the big-endian byte order used by the
 * length and CRC fields of a chunk (Rust's `u32::to_be_bytes` and
 * `u32::from_be_bytes`).
 */
module ByteOrder {

  /** Rust's `u8`. */
  type u8 = x: int | 0 <= x < 0x100

  /** Rust's `u32`. */
  type u32 = x: int | 0 <= x < 0x1_0000_0000

  /** The four bytes of `x`, most significant first. */
  function ToBeBytes(x: u32): (r: seq<u8>)
    ensures |r| == 4
    ensures FromBeBytes(r) == x
  {
    [x / 0x100_0000, x / 0x1_0000 % 0x100, x / 0x100 % 0x100, x % 0x100]
  }

  /** The `u32` whose big-endian bytes are `b`. */
  function FromBeBytes(b: seq<u8>): u32
    requires |b| == 4
  {
    ((b[0] as int * 0x100 + b[1]) * 0x100 + b[2]) * 0x100 + b[3]
  }

  /** Appending one byte to a number and removing it again are inverse. */
  lemma ShiftInByte(hi: nat, lo: u8)
    ensures (hi * 0x100 + lo) / 0x100 == hi
    ensures (hi * 0x100 + lo) % 0x100 == lo
  {
  }

  /** Every 4-byte sequence is the big-endian encoding of the number it reads as. */
  lemma FromBeBytesInverse(b: seq<u8>)
    requires |b| == 4
    ensures ToBeBytes(FromBeBytes(b)) == b
  {
    var h1 := b[0] as int;
    var h2 := h1 * 0x100 + b[1];
    var h3 := h2 * 0x100 + b[2];
    var x := h3 * 0x100 + b[3];
    ShiftInByte(h1, b[1]);
    ShiftInByte(h2, b[2]);
    ShiftInByte(h3, b[3]);
    assert x / 0x1_0000 == h2 by {
      assert x / 0x1_0000 == (x / 0x100) / 0x100;
    }
    assert x / 0x100_0000 == h1 by {
      assert x / 0x100_0000 == (x / 0x1_0000) / 0x100;
    }
  }

  /** Big-endian encoding is injective: distinct numbers have distinct bytes. */
  lemma ToBeBytesInjective(x: u32, y: u32)
    ensures ToBeBytes(x) == ToBeBytes(y) <==> x == y
  {
  }
}
