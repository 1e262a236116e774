/**
 * Guest bytes and the unsigned integer widths of the WASI preview1 ABI, with
 * the little-endian encodings that `DataView.setUint16(…, true)`,
 * `setUint32(…, true)` and `getUint32(…, true)` use on guest linear memory.
 */
module LittleEndian {

  type Byte = b: int | 0 <= b < 0x100
  type U16 = v: int | 0 <= v < 0x1_0000
  type U32 = v: int | 0 <= v < 0x1_0000_0000

  /** The integer the two bytes stand for, lowest byte first. */
  function DecodeU16(s: seq<Byte>): U16
    requires |s| == 2
  {
    s[0] as int + 0x100 * (s[1] as int)
  }

  /** The two bytes a 16-bit little-endian store writes. */
  function EncodeU16(v: U16): (r: seq<Byte>)
    ensures |r| == 2 && DecodeU16(r) == v
  {
    [v % 0x100, v / 0x100]
  }

  /** The integer the four bytes stand for: the low half first, then the high half. */
  function DecodeU32(s: seq<Byte>): U32
    requires |s| == 4
  {
    DecodeU16(s[..2]) + 0x1_0000 * DecodeU16(s[2..])
  }

  /** The four bytes a 32-bit little-endian store writes. */
  function EncodeU32(v: U32): (r: seq<Byte>)
    ensures |r| == 4 && DecodeU32(r) == v
  {
    var r := EncodeU16(v % 0x1_0000) + EncodeU16(v / 0x1_0000);
    assert r[..2] == EncodeU16(v % 0x1_0000) && r[2..] == EncodeU16(v / 0x1_0000);
    r
  }

  /** Every pair of bytes is the encoding of what it decodes to. */
  lemma EncodeDecodeU16(s: seq<Byte>)
    requires |s| == 2
    ensures EncodeU16(DecodeU16(s)) == s
  {
  }

  /** Every four bytes are the encoding of what they decode to, so reading a
      u32 and storing it back leaves memory as it was. */
  lemma EncodeDecodeU32(s: seq<Byte>)
    requires |s| == 4
    ensures EncodeU32(DecodeU32(s)) == s
  {
    var lo, hi := DecodeU16(s[..2]), DecodeU16(s[2..]);
    assert DecodeU32(s) % 0x1_0000 == lo && DecodeU32(s) / 0x1_0000 == hi;
    EncodeDecodeU16(s[..2]);
    EncodeDecodeU16(s[2..]);
    assert s == s[..2] + s[2..];
  }

  /** The encoding is injective: two stores of different values leave different bytes. */
  lemma EncodeU32Injective(v: U32, w: U32)
    requires EncodeU32(v) == EncodeU32(w)
    ensures v == w
  {
    assert DecodeU32(EncodeU32(v)) == DecodeU32(EncodeU32(w));
  }
}
