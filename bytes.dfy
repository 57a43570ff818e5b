/** Unsigned and two's-complement integers as little-endian byte strings.

    Every multi-byte field of a RIFF/WAVE file is little-endian. The C code
    writes and reads those fields with fwrite/fread of a uint16_t, uint32_t,
    int16_t or float, so on the little-endian hosts it targets the bytes on
    disk are the value's little-endian encoding. */
module LittleEndian {

  /** One octet of a file. */
  type Byte = b: int | 0 <= b < 256

  type uint16 = x: int | 0 <= x < 0x1_0000
  type uint32 = x: int | 0 <= x < 0x1_0000_0000
  type int16 = x: int | -0x8000 <= x < 0x8000
  type int32 = x: int | -0x8000_0000 <= x < 0x8000_0000

  function Pow256(n: nat): (r: nat)
    ensures r >= 1
  {
    if n == 0 then 1 else 256 * Pow256(n - 1)
  }

  /** The `width` least significant bytes of `n`, least significant first. */
  function Encode(n: nat, width: nat): (r: seq<Byte>)
    ensures |r| == width
  {
    if width == 0 then [] else [n % 256] + Encode(n / 256, width - 1)
  }

  /** The unsigned value of a little-endian byte string. */
  function Decode(s: seq<Byte>): (r: nat)
    ensures r < Pow256(|s|)
  {
    if s == [] then 0 else s[0] + 256 * Decode(s[1..])
  }

  lemma {:induction false} DecodeEncode(n: nat, width: nat)
    requires n < Pow256(width)
    ensures Decode(Encode(n, width)) == n
  {
    if width > 0 {
      DecodeEncode(n / 256, width - 1);
      assert Encode(n, width)[1..] == Encode(n / 256, width - 1);
    }
  }

  lemma {:induction false} EncodeDecode(s: seq<Byte>)
    ensures Encode(Decode(s), |s|) == s
  {
    if s != [] {
      EncodeDecode(s[1..]);
      assert Decode(s) % 256 == s[0] && Decode(s) / 256 == Decode(s[1..]);
    }
  }

  /** The two bytes an int16_t occupies: its two's-complement bit pattern. */
  function EncodeInt16(v: int16): (r: seq<Byte>)
    ensures |r| == 2
  {
    Encode(if v < 0 then v + 0x1_0000 else v, 2)
  }

  /** The int16_t whose two's-complement bit pattern is `s`. */
  function DecodeInt16(s: seq<Byte>): (r: int16)
    requires |s| == 2
    ensures Encode(if r < 0 then r + 0x1_0000 else r, 2) == s
  {
    var u := Decode(s);
    EncodeDecode(s);
    if u < 0x8000 then u else u - 0x1_0000
  }

  lemma DecodeEncodeInt16(v: int16)
    ensures DecodeInt16(EncodeInt16(v)) == v
  {
    DecodeEncode(if v < 0 then v + 0x1_0000 else v, 2);
  }
}
