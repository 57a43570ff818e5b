/** Sample encodings: the bytes of the `data` chunk and the floats the
    caller sees.

    A caller-side float is modelled by its IEEE-754 single-precision bit
    pattern, so a float32 file stores exactly those 32 bits and reads them
    back unchanged. The int16 conversions `(float) v / INT16_MAX` and
    `(int16_t) (x * INT16_MAX)` are floating-point arithmetic, which is not
    modelled: they are given as a pair of functions. */
module Samples {
  import opened LittleEndian
  import opened Wav

  /** A float, as its 32-bit pattern. */
  type FloatBits = uint32

  /** The int16 conversions: decode (divide by INT16_MAX) and encode
      (multiply by INT16_MAX and convert to int16_t). */
  datatype Int16Scaling = Int16Scaling(toFloat: int16 -> FloatBits, fromFloat: FloatBits -> int16)

  /** The bytes one sample occupies on disk. */
  function EncodeOne(x: FloatBits, fmt: SampleFormat, scale: Int16Scaling): (r: seq<Byte>)
    ensures |r| == fmt.BytesPerSample()
  {
    if fmt == Float32 then Encode(x, 4) else EncodeInt16(scale.fromFloat(x))
  }

  /** The float one sample's bytes decode to. */
  function DecodeOne(b: seq<Byte>, fmt: SampleFormat, scale: Int16Scaling): FloatBits
    requires |b| == fmt.BytesPerSample()
  {
    if fmt == Float32 then
      var v := Decode(b);
      assert v < Pow256(4) == 0x1_0000_0000;
      v
    else scale.toFloat(DecodeInt16(b))
  }

  /** The bytes fwrite stores for the interleaved block `z`. */
  function EncodeSamples(z: seq<FloatBits>, fmt: SampleFormat, scale: Int16Scaling): (r: seq<Byte>)
    ensures |r| == |z| * fmt.BytesPerSample()
  {
    if z == [] then [] else EncodeOne(z[0], fmt, scale) + EncodeSamples(z[1..], fmt, scale)
  }

  /** The samples of the whole elements among the bytes fread returned. */
  function DecodeSamples(raw: seq<Byte>, fmt: SampleFormat, scale: Int16Scaling): (r: seq<FloatBits>)
    ensures |r| == |raw| / fmt.BytesPerSample()
    decreases |raw|
  {
    var w := fmt.BytesPerSample();
    if |raw| < w then [] else [DecodeOne(raw[..w], fmt, scale)] + DecodeSamples(raw[w..], fmt, scale)
  }

  /** What reading back a written sample gives: the same bits for float32,
      the int16 round trip through the scaling for int16. */
  function Reconstructed(x: FloatBits, fmt: SampleFormat, scale: Int16Scaling): FloatBits
  {
    if fmt == Float32 then x else scale.toFloat(scale.fromFloat(x))
  }

  lemma {:induction false} DecodeEncodeOne(x: FloatBits, fmt: SampleFormat, scale: Int16Scaling)
    ensures DecodeOne(EncodeOne(x, fmt, scale), fmt, scale) == Reconstructed(x, fmt, scale)
  {
    if fmt == Float32 {
      DecodeEncode(x, 4);
    } else {
      DecodeEncodeInt16(scale.fromFloat(x));
    }
  }

  /** Decoding the bytes written for a block gives the block back, sample
      by sample, up to the int16 scaling. */
  lemma {:induction false} DecodeEncodeSamples(z: seq<FloatBits>, fmt: SampleFormat, scale: Int16Scaling)
    ensures var r := DecodeSamples(EncodeSamples(z, fmt, scale), fmt, scale);
            |r| == |z| && forall k :: 0 <= k < |z| ==> r[k] == Reconstructed(z[k], fmt, scale)
  {
    if z != [] {
      var w := fmt.BytesPerSample();
      var e := EncodeSamples(z, fmt, scale);
      assert e[..w] == EncodeOne(z[0], fmt, scale);
      assert e[w..] == EncodeSamples(z[1..], fmt, scale);
      DecodeEncodeOne(z[0], fmt, scale);
      DecodeEncodeSamples(z[1..], fmt, scale);
    }
  }

  /** For float32 the round trip is exact. */
  lemma DecodeEncodeFloat32(z: seq<FloatBits>, scale: Int16Scaling)
    ensures DecodeSamples(EncodeSamples(z, Float32, scale), Float32, scale) == z
  {
    DecodeEncodeSamples(z, Float32, scale);
  }

  /** Decoding a prefix of whole samples: the first k samples' bytes decode
      to the first k samples. */
  lemma {:induction false} DecodePrefix(raw: seq<Byte>, k: nat, fmt: SampleFormat, scale: Int16Scaling)
    requires k * fmt.BytesPerSample() <= |raw|
    ensures DecodeSamples(raw[..k * fmt.BytesPerSample()], fmt, scale) == DecodeSamples(raw, fmt, scale)[..k]
  {
    var w := fmt.BytesPerSample();
    if k > 0 {
      var p := raw[..k * w];
      assert p[..w] == raw[..w];
      assert p[w..] == raw[w..][..(k - 1) * w];
      DecodePrefix(raw[w..], k - 1, fmt, scale);
    }
  }
}
