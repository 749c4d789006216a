/** Bytes as the binary writer emits them: struct's little-endian
    unsigned fields, UTF-8 text, and the 4-byte float encoder. */
module Bytes {
  import opened MeshModel

  newtype byte = x: int | 0 <= x < 256

  /** struct.pack('f', ...) of a coordinate: the four bytes of a
      single-precision float, which the model does not compute; the
      caller supplies the encoding. */
  type F32Encoder = Coord -> (byte, byte, byte, byte)

  /** The four bytes the encoder gives for c, in order. */
  function F32(enc: F32Encoder, c: Coord): (r: seq<byte>)
    ensures |r| == 4
  {
    var t := enc(c);
    [t.0, t.1, t.2, t.3]
  }

  /** struct.pack('H', n): two bytes, least significant first. */
  function U16(n: nat): (r: seq<byte>)
    requires n < 0x1_0000
    ensures |r| == 2 && ReadU16(r, 0) == n
  {
    [(n % 256) as byte, (n / 256) as byte]
  }

  /** struct.pack('L', n), taken as four bytes, least significant first. */
  function U32(n: nat): (r: seq<byte>)
    requires n < 0x1_0000_0000
    ensures |r| == 4 && ReadU32(r, 0) == n
  {
    var q0 := n / 256;
    var q1 := q0 / 256;
    var q2 := q1 / 256;
    [(n % 256) as byte, (q0 % 256) as byte, (q1 % 256) as byte, q2 as byte]
  }

  /** Reading the two bytes back gives n. */
  lemma U16Read(n: nat)
    requires n < 0x1_0000
    ensures ReadU16(U16(n), 0) == n
  {
  }

  /** Reading the four bytes back gives n. */
  lemma U32Read(n: nat)
    requires n < 0x1_0000_0000
    ensures ReadU32(U32(n), 0) == n
  {
  }

  /** The little-endian 16-bit value at offset off. */
  function ReadU16(b: seq<byte>, off: nat): nat
    requires off + 2 <= |b|
  {
    b[off] as nat + 256 * b[off + 1] as nat
  }

  /** The little-endian 32-bit value at offset off. */
  function ReadU32(b: seq<byte>, off: nat): nat
    requires off + 4 <= |b|
  {
    b[off] as nat + 256 * b[off + 1] as nat + 0x1_0000 * b[off + 2] as nat + 0x100_0000 * b[off + 3] as nat
  }

  predicate IsAscii(s: string) {
    forall i :: 0 <= i < |s| ==> s[i] as int < 128
  }

  /** The UTF-8 encoding of one character. */
  function Utf8Char(c: char): (r: seq<byte>)
    ensures 1 <= |r| <= 4
    ensures |r| == 1 <==> c as int < 128
    ensures c as int < 128 ==> r == [c as int as byte]
  {
    var n := c as int;
    if n < 0x80 then [n as byte]
    else if n < 0x800 then [(0xC0 + n / 64) as byte, (0x80 + n % 64) as byte]
    else if n < 0x1_0000 then
      [(0xE0 + n / 4096) as byte, (0x80 + n / 64 % 64) as byte, (0x80 + n % 64) as byte]
    else
      [(0xF0 + n / 0x4_0000) as byte, (0x80 + n / 4096 % 64) as byte,
       (0x80 + n / 64 % 64) as byte, (0x80 + n % 64) as byte]
  }

  /** bytes(s, 'utf-8') */
  function Utf8(s: string): (r: seq<byte>)
    ensures |r| >= |s|
    ensures |r| == |s| <==> IsAscii(s)
    ensures IsAscii(s) ==> forall i :: 0 <= i < |s| ==> r[i] == s[i] as int as byte
  {
    if s == [] then []
    else
      var r := Utf8(s[..|s| - 1]) + Utf8Char(s[|s| - 1]);
      assert IsAscii(s) <==> IsAscii(s[..|s| - 1]) && s[|s| - 1] as int < 128;
      r
  }

  /** n NUL bytes. */
  function Nuls(n: nat): (r: seq<byte>)
    ensures |r| == n && forall i :: 0 <= i < n ==> r[i] == 0
  {
    seq(n, i => 0)
  }

  /** Reading inside a slice reads the same bytes. */
  lemma ReadU16Slice(b: seq<byte>, lo: nat, hi: nat, k: nat)
    requires lo + k + 2 <= hi <= |b|
    ensures ReadU16(b, lo + k) == ReadU16(b[lo..hi], k)
  {
  }

  lemma ReadU32Slice(b: seq<byte>, lo: nat, hi: nat, k: nat)
    requires lo + k + 4 <= hi <= |b|
    ensures ReadU32(b, lo + k) == ReadU32(b[lo..hi], k)
  {
  }
}
