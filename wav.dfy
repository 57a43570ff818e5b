/** The RIFF/WAVE header as tinywav writes and parses it.

    The header is the 44-byte canonical layout: the outer `RIFF` chunk with
    its size and the `WAVE` form type, a `fmt ` subchunk of 16 bytes and the
    `data` subchunk header. The reader works on the bytes it has not read
    yet (the unread suffix of the file), which is how the `fread`/`fseek`
    sequence of tinywav_open_read is stated here. */
module Wav {
  import opened LittleEndian

  /** A four-character chunk identifier. */
  type FourCC = s: seq<Byte> | |s| == 4 witness [0, 0, 0, 0]

  const RIFF: FourCC := [0x52, 0x49, 0x46, 0x46]
  const WAVE: FourCC := [0x57, 0x41, 0x56, 0x45]
  const FMT: FourCC := [0x66, 0x6D, 0x74, 0x20]
  const DATA: FourCC := [0x64, 0x61, 0x74, 0x61]

  /** Sample encoding on disk. tinywav gives TW_INT16 the value 2 and
      TW_FLOAT32 the value 4: the number of bytes per sample. */
  datatype SampleFormat = Int16 | Float32 {
    function BytesPerSample(): (n: nat)
      ensures n == 2 || n == 4
    {
      if Int16? then 2 else 4
    }
  }

  /** Layout of the caller's sample buffer. */
  datatype ChannelFormat = Interleaved | Inline | Split

  datatype Header = Header(
    chunkID: FourCC, chunkSize: uint32, format: FourCC,
    subchunk1ID: FourCC, subchunk1Size: uint32,
    audioFormat: uint16, numChannels: uint16, sampleRate: uint32,
    byteRate: uint32, blockAlign: uint16, bitsPerSample: uint16,
    subchunk2ID: FourCC, subchunk2Size: uint32)

  const ZeroHeader := Header([0, 0, 0, 0], 0, [0, 0, 0, 0], [0, 0, 0, 0], 0,
                             0, 0, 0, 0, 0, 0, [0, 0, 0, 0], 0)

  /** chunkIDMatches: the four bytes are compared one by one. */
  function ChunkIDMatches(chunk: FourCC, name: FourCC): (r: bool)
    ensures r <==> chunk == name
  {
    MatchesFrom(chunk, name, 0)
  }

  function MatchesFrom(chunk: FourCC, name: FourCC, i: nat): (r: bool)
    requires i <= 4
    ensures r <==> chunk[i..] == name[i..]
    decreases 4 - i
  {
    if i == 4 then true
    else if chunk[i] != name[i] then false
    else
      var r := MatchesFrom(chunk, name, i + 1);
      assert chunk[i..] == [chunk[i]] + chunk[i + 1..];
      assert name[i..] == [name[i]] + name[i + 1..];
      r
  }

  /** The 16-bit two's-complement value a uint16_t field has once it is
      stored in an int16_t (tw->numChannels = tw->h.NumChannels). */
  function AsInt16(u: uint16): (r: int16)
    ensures r == u || r == u - 0x1_0000
    ensures r >= 0 <==> u < 0x8000
  {
    if u < 0x8000 then u else u - 0x1_0000
  }

  // ---------------------------------------------------------------------
  // Writer side

  /** The header tinywav_open_write fills in. ByteRate and BlockAlign are
      computed in C `int` arithmetic and stored in a uint32_t and a uint16_t,
      so they are reduced modulo the field width. */
  function WriterHeader(numChannels: int16, sampleRate: int32, fmt: SampleFormat): (h: Header)
    requires numChannels >= 1 && sampleRate >= 1
    ensures h.numChannels == numChannels && h.sampleRate == sampleRate
    ensures h.audioFormat == (if fmt == Int16 then 1 else 3)
    ensures h.bitsPerSample == 8 * fmt.BytesPerSample()
    ensures numChannels * fmt.BytesPerSample() < 0x1_0000 ==>
              h.blockAlign == numChannels * fmt.BytesPerSample() &&
              h.byteRate == (h.sampleRate * h.blockAlign) % 0x1_0000_0000
    ensures h.chunkSize == 0 && h.subchunk2Size == 0 && h.subchunk1Size == 16
    ensures h.chunkID == RIFF && h.format == WAVE && h.subchunk1ID == FMT && h.subchunk2ID == DATA
  {
    var w := fmt.BytesPerSample();
    assert sampleRate * numChannels * w == sampleRate * (numChannels * w);
    Header(RIFF, 0, WAVE, FMT, 16, w - 1, numChannels, sampleRate,
           (sampleRate * numChannels * w) % 0x1_0000_0000,
           (numChannels * w) % 0x1_0000, 8 * w, DATA, 0)
  }

  /** The 44 header bytes in the order tinywav_open_write writes its 13
      fields: 4 four-character identifiers, 5 uint32_t and 4 uint16_t. */
  function HeaderBytes(h: Header): (r: seq<Byte>)
    ensures |r| == 44
  {
    RiffBytes(h) + (FmtBytes(h) + DataHeaderBytes(h))
  }

  /** Bytes 0-11: `RIFF`, ChunkSize, `WAVE`. */
  function RiffBytes(h: Header): (r: seq<Byte>)
    ensures |r| == 12
  {
    h.chunkID + Encode(h.chunkSize, 4) + h.format
  }

  /** Bytes 12-35: the `fmt ` subchunk. */
  function FmtBytes(h: Header): (r: seq<Byte>)
    ensures |r| == 24
  {
    h.subchunk1ID + Encode(h.subchunk1Size, 4) + Encode(h.audioFormat, 2)
    + Encode(h.numChannels, 2) + Encode(h.sampleRate, 4) + Encode(h.byteRate, 4)
    + Encode(h.blockAlign, 2) + Encode(h.bitsPerSample, 2)
  }

  /** Bytes 36-43: `data` and Subchunk2Size. */
  function DataHeaderBytes(h: Header): (r: seq<Byte>)
    ensures |r| == 8
  {
    h.subchunk2ID + Encode(h.subchunk2Size, 4)
  }

  /** Number of fwrite elements that make up the header: one per character
      of an identifier, one per integer field. */
  function HeaderElementCount(): nat
  {
    4 + 1 + 4 + 4 + 1 + 1 + 1 + 1 + 1 + 1 + 1 + 4 + 1
  }

  // ---------------------------------------------------------------------
  // Reader side: each fread or fseek maps the unread suffix to a shorter one.

  /** A value read by fread, the number of elements fread reported and the
      bytes left unread afterwards. */
  datatype Field<T> = Field(value: T, count: nat, rest: seq<Byte>)

  /** fread(id, sizeof(char), 4, f): the characters still available (at most
      four) replace the front of `id`. */
  function ReadID(s: seq<Byte>, id: FourCC): (r: Field<FourCC>)
    ensures r.count <= 4 && r.count <= |s| && r.rest == s[r.count..]
    ensures r.count == 4 <==> |s| >= 4
    ensures r.count == 4 ==> r.value == s[..4]
  {
    var k := if |s| < 4 then |s| else 4;
    Field(s[..k] + id[k..], k, s[k..])
  }

  /** fread(&v, sizeof(uint32_t), 1, f). A partial element consumes what is
      left; its value is indeterminate in C and the field is left unchanged. */
  function ReadU32(s: seq<Byte>, v: uint32): (r: Field<uint32>)
    ensures r.count == 1 <==> |s| >= 4
    ensures r.count == 1 ==> r.rest == s[4..] && r.value == Decode(s[..4])
    ensures r.count == 0 ==> r.rest == [] && r.value == v
  {
    if |s| >= 4 then Field(Decode(s[..4]), 1, s[4..]) else Field(v, 0, [])
  }

  /** fread(&v, sizeof(uint16_t), 1, f). */
  function ReadU16(s: seq<Byte>, v: uint16): (r: Field<uint16>)
    ensures r.count == 1 <==> |s| >= 2
    ensures r.count == 1 ==> r.rest == s[2..] && r.value == Decode(s[..2])
    ensures r.count == 0 ==> r.rest == [] && r.value == v
  {
    if |s| >= 2 then Field(Decode(s[..2]), 1, s[2..]) else Field(v, 0, [])
  }

  /** fseek(f, n, SEEK_CUR): a position past the end leaves nothing to read. */
  function Seek(s: seq<Byte>, n: nat): (r: seq<Byte>)
    ensures |r| == if n <= |s| then |s| - n else 0
  {
    if n <= |s| then s[n..] else []
  }

  /** Where a subchunk scan stops: the last identifier and size read, and
      the unread suffix. */
  datatype Scan = Scan(id: FourCC, size: uint32, rest: seq<Byte>)

  /** The loop `while (fread(id, 1, 4, f) == 4) { fread(&size, 4, 1, f);
      if (id matches target) break; else fseek(f, size, SEEK_CUR); }`
      starting with `id` and `size` as the header fields hold them. */
  function ScanChunks(s: seq<Byte>, id: FourCC, size: uint32, target: FourCC): (r: Scan)
    ensures |r.rest| <= |s|
    decreases |s|
  {
    var i := ReadID(s, id);
    if i.count != 4 then Scan(i.value, size, i.rest)
    else
      var z := ReadU32(i.rest, size);
      if ChunkIDMatches(i.value, target) then Scan(i.value, z.value, z.rest)
      else ScanChunks(Seek(z.rest, z.value), i.value, z.value, target)
  }

  /** A subchunk scan stops either at the target or at the end of the
      file: it never stops early on another chunk. */
  lemma {:induction false} ScanEnds(s: seq<Byte>, id: FourCC, size: uint32, target: FourCC)
    ensures var r := ScanChunks(s, id, size, target); r.id == target || r.rest == []
    decreases |s|
  {
    var i := ReadID(s, id);
    if i.count == 4 {
      var z := ReadU32(i.rest, size);
      if !ChunkIDMatches(i.value, target) {
        ScanEnds(Seek(z.rest, z.value), i.value, z.value, target);
      }
    }
  }

  /** Outcome of tinywav_open_read's parse: whether it passed its checks,
      the header struct as the freads left it, and the unread suffix (where
      sample reading starts). */
  datatype Parsed = Parsed(ok: bool, h: Header, rest: seq<Byte>)

  /** The header parse of tinywav_open_read on a file holding `file`, when
      the header struct held `h0` before the call. */
  function ParseWav(file: seq<Byte>, h0: Header): (r: Parsed)
    ensures r.ok ==> r.h.chunkID == RIFF && r.h.format == WAVE && r.h.subchunk1ID == FMT
  {
    var cid := ReadID(file, h0.chunkID);
    var csz := ReadU32(cid.rest, h0.chunkSize);
    var form := ReadID(csz.rest, h0.format);
    var h1 := h0.(chunkID := cid.value, chunkSize := csz.value, format := form.value);
    if cid.count + csz.count + form.count < 9
       || !ChunkIDMatches(h1.chunkID, RIFF) || !ChunkIDMatches(h1.format, WAVE)
    then Parsed(false, h1, form.rest)
    else ParseSubchunks(form.rest, h1)
  }

  /** From after the `WAVE` form type: find `fmt `, read its six fields,
      then find `data`. */
  function ParseSubchunks(s: seq<Byte>, h1: Header): (r: Parsed)
    ensures r.ok ==> r.h.subchunk1ID == FMT
    ensures r.ok ==> r.h.chunkID == h1.chunkID && r.h.format == h1.format
  {
    ScanEnds(s, h1.subchunk1ID, h1.subchunk1Size, FMT);
    ParseFmt(ScanChunks(s, h1.subchunk1ID, h1.subchunk1Size, FMT), h1)
  }

  /** The six fmt fields are read from wherever the `fmt ` scan stopped; all
      six must be read in full. */
  function ParseFmt(sc1: Scan, h1: Header): (r: Parsed)
    ensures r.ok <==> |sc1.rest| >= 16
    ensures r.h.subchunk1ID == sc1.id && r.h.chunkID == h1.chunkID && r.h.format == h1.format
  {
    var af := ReadU16(sc1.rest, h1.audioFormat);
    var nc := ReadU16(af.rest, h1.numChannels);
    var sr := ReadU32(nc.rest, h1.sampleRate);
    var br := ReadU32(sr.rest, h1.byteRate);
    var ba := ReadU16(br.rest, h1.blockAlign);
    var bp := ReadU16(ba.rest, h1.bitsPerSample);
    var h2 := h1.(subchunk1ID := sc1.id, subchunk1Size := sc1.size,
                  audioFormat := af.value, numChannels := nc.value, sampleRate := sr.value,
                  byteRate := br.value, blockAlign := ba.value, bitsPerSample := bp.value);
    if af.count + nc.count + sr.count + br.count + ba.count + bp.count != 6
    then Parsed(false, h2, bp.rest)
    else FindData(bp.rest, h2)
  }

  /** The scan for `data`; a missing `data` chunk is not an error. */
  function FindData(s: seq<Byte>, h2: Header): (r: Parsed)
    ensures r.ok
  {
    var sc2 := ScanChunks(s, h2.subchunk2ID, h2.subchunk2Size, DATA);
    Parsed(true, h2.(subchunk2ID := sc2.id, subchunk2Size := sc2.size), sc2.rest)
  }

  /** The sample encoding tinywav_open_read picks from the fmt fields. */
  function ReaderSampleFormat(bitsPerSample: uint16, audioFormat: uint16): (r: SampleFormat)
    ensures r == Int16 <==> bitsPerSample == 16 && audioFormat == 1
    ensures bitsPerSample == 32 && audioFormat == 3 ==> r == Float32
  {
    if bitsPerSample == 32 && audioFormat == 3 then Float32
    else if bitsPerSample == 16 && audioFormat == 1 then Int16
    else Float32
  }

  /** Whether tinywav_open_read prints its "not natively supported" warning. */
  function FallbackWarning(bitsPerSample: uint16, audioFormat: uint16): (r: bool)
    ensures r <==> !(bitsPerSample == 32 && audioFormat == 3) && !(bitsPerSample == 16 && audioFormat == 1)
    ensures r ==> ReaderSampleFormat(bitsPerSample, audioFormat) == Float32
  {
    !(bitsPerSample == 32 && audioFormat == 3) && !(bitsPerSample == 16 && audioFormat == 1)
  }

  /** numFramesInHeader: the declared data size divided by the frame size
      (integer division). */
  function FramesInHeader(subchunk2Size: uint32, numChannels: int, fmt: SampleFormat): (r: nat)
    requires numChannels >= 1
  {
    var frame := numChannels * fmt.BytesPerSample();
    DivNonNegative(subchunk2Size, frame);
    subchunk2Size / frame
  }

  lemma DivNonNegative(a: nat, b: int)
    requires b >= 1
    ensures a / b >= 0
  {
  }

  /** numFramesInHeader is the number of whole frames the declared data
      size holds. */
  lemma FramesInHeaderBounds(subchunk2Size: uint32, numChannels: int, fmt: SampleFormat)
    requires numChannels >= 1
    ensures var r := FramesInHeader(subchunk2Size, numChannels, fmt);
            var frame := numChannels * fmt.BytesPerSample();
            r * frame <= subchunk2Size < (r + 1) * frame
  {
  }

  // ---------------------------------------------------------------------
  // Lemmas

  lemma {:induction false} ReadIDOf(id: FourCC, rest: seq<Byte>, prior: FourCC)
    ensures ReadID(id + rest, prior) == Field(id, 4, rest)
  {
    assert (id + rest)[..4] == id;
    assert (id + rest)[4..] == rest;
  }

  lemma {:induction false} ReadU32Of(v: uint32, rest: seq<Byte>, prior: uint32)
    ensures ReadU32(Encode(v, 4) + rest, prior) == Field(v, 1, rest)
  {
    var s := Encode(v, 4) + rest;
    assert s[..4] == Encode(v, 4);
    assert s[4..] == rest;
    DecodeEncode(v, 4);
  }

  lemma {:induction false} ReadU16Of(v: uint16, rest: seq<Byte>, prior: uint16)
    ensures ReadU16(Encode(v, 2) + rest, prior) == Field(v, 1, rest)
  {
    var s := Encode(v, 2) + rest;
    assert s[..2] == Encode(v, 2);
    assert s[2..] == rest;
    DecodeEncode(v, 2);
  }

  /** A scan that meets its target chunk first stops right after that
      chunk's size field. */
  lemma {:induction false} ScanFindsFirst(target: FourCC, size: uint32, rest: seq<Byte>, id0: FourCC, size0: uint32)
    ensures ScanChunks(target + (Encode(size, 4) + rest), id0, size0, target) == Scan(target, size, rest)
  {
    ReadIDOf(target, Encode(size, 4) + rest, id0);
    ReadU32Of(size, rest, size0);
  }

  /** A chunk whose identifier is not the target is skipped by exactly its
      declared size: the scan then proceeds as if the chunk were absent. */
  lemma {:induction false} ScanSkipsOtherChunk(id: FourCC, body: seq<Byte>, rest: seq<Byte>,
                                               target: FourCC, id0: FourCC, size0: uint32)
    requires id != target && |body| < 0x1_0000_0000
    requires |rest| >= 8
    ensures ScanChunks(id + (Encode(|body|, 4) + (body + rest)), id0, size0, target)
         == ScanChunks(rest, id0, size0, target)
  {
    ReadIDOf(id, Encode(|body|, 4) + (body + rest), id0);
    ReadU32Of(|body|, body + rest, size0);
    assert Seek(body + rest, |body|) == rest;
    ScanOverwritesStart(rest, id, |body|, id0, size0, target);
  }

  /** With a whole chunk header ahead, the scan's starting identifier and
      size are overwritten before they are used. */
  lemma {:induction false} ScanOverwritesStart(s: seq<Byte>, id: FourCC, size: uint32, id': FourCC, size': uint32, target: FourCC)
    requires |s| >= 8
    ensures ScanChunks(s, id, size, target) == ScanChunks(s, id', size', target)
  {
  }

  /** Reading back the 44 bytes of a canonical header recovers every field. */
  lemma {:induction false} ParseCanonical(h: Header, samples: seq<Byte>, h0: Header)
    requires h.chunkID == RIFF && h.format == WAVE && h.subchunk1ID == FMT && h.subchunk2ID == DATA
    ensures ParseWav(HeaderBytes(h) + samples, h0) == Parsed(true, h, samples)
  {
    var riff, fmtChunk := RiffBytes(h), FmtBytes(h);
    var tail := DATA + (Encode(h.subchunk2Size, 4) + samples);
    assert HeaderBytes(h) + samples == riff + (fmtChunk + tail);
    RiffFields(h);
    RiffPrefix(riff, fmtChunk + tail, h0);
    var h1 := h0.(chunkID := RIFF, chunkSize := h.chunkSize, format := WAVE);
    FmtFields(h);
    FmtFirst(fmtChunk, tail, h1);
    ScanFindsFirst(DATA, h.subchunk2Size, samples, h1.subchunk2ID, h1.subchunk2Size);
  }

  /** A prefix made of p followed by e splits into p and e. */
  lemma {:induction false} SplitPrefix(s: seq<Byte>, p: seq<Byte>, e: seq<Byte>)
    requires |p| + |e| <= |s| && s[..|p| + |e|] == p + e
    ensures s[..|p|] == p && s[|p|..|p| + |e|] == e
  {
    assert s[..|p|] == s[..|p| + |e|][..|p|];
    assert s[|p|..|p| + |e|] == s[..|p| + |e|][|p|..];
  }

  lemma {:induction false} RiffFields(h: Header)
    requires h.chunkID == RIFF && h.format == WAVE
    ensures var r := RiffBytes(h); r[..4] == RIFF && r[8..] == WAVE && Decode(r[4..8]) == h.chunkSize
  {
    var r := RiffBytes(h);
    var e := Encode(h.chunkSize, 4);
    var p := h.chunkID + e;
    assert r == p + h.format && r[..12] == r;
    SplitPrefix(r, p, h.format);
    SplitPrefix(r, h.chunkID, e);
    DecodeEncode(h.chunkSize, 4);
  }

  lemma {:induction false} FmtFields(h: Header)
    requires h.subchunk1ID == FMT
    ensures var f := FmtBytes(h);
            f[..4] == FMT && Decode(f[4..8]) == h.subchunk1Size &&
            Decode(f[8..10]) == h.audioFormat && Decode(f[10..12]) == h.numChannels &&
            Decode(f[12..16]) == h.sampleRate && Decode(f[16..20]) == h.byteRate &&
            Decode(f[20..22]) == h.blockAlign && Decode(f[22..24]) == h.bitsPerSample
  {
    var f := FmtBytes(h);
    var e1, e2, e3 := Encode(h.subchunk1Size, 4), Encode(h.audioFormat, 2), Encode(h.numChannels, 2);
    var e4, e5, e6 := Encode(h.sampleRate, 4), Encode(h.byteRate, 4), Encode(h.blockAlign, 2);
    var e7 := Encode(h.bitsPerSample, 2);
    var p1 := h.subchunk1ID;
    var p2 := p1 + e1;
    var p3 := p2 + e2;
    var p4 := p3 + e3;
    var p5 := p4 + e4;
    var p6 := p5 + e5;
    var p7 := p6 + e6;
    assert f == p7 + e7 && f[..24] == f;
    SplitPrefix(f, p7, e7);
    SplitPrefix(f, p6, e6);
    SplitPrefix(f, p5, e5);
    SplitPrefix(f, p4, e4);
    SplitPrefix(f, p3, e3);
    SplitPrefix(f, p2, e2);
    SplitPrefix(f, p1, e1);
    DecodeEncode(h.subchunk1Size, 4);
    DecodeEncode(h.audioFormat, 2);
    DecodeEncode(h.numChannels, 2);
    DecodeEncode(h.sampleRate, 4);
    DecodeEncode(h.byteRate, 4);
    DecodeEncode(h.blockAlign, 2);
    DecodeEncode(h.bitsPerSample, 2);
  }

  /** The header tinywav_open_write writes is read back by
      tinywav_open_read with the same channel count, rate and encoding. */
  lemma {:induction false} WriterHeaderReadBack(numChannels: int16, sampleRate: int32, fmt: SampleFormat,
                             samples: seq<Byte>, h0: Header)
    requires numChannels >= 1 && sampleRate >= 1
    ensures var h := WriterHeader(numChannels, sampleRate, fmt);
            var p := ParseWav(HeaderBytes(h) + samples, h0);
            p.ok && p.h == h && p.rest == samples &&
            AsInt16(p.h.numChannels) == numChannels &&
            ReaderSampleFormat(p.h.bitsPerSample, p.h.audioFormat) == fmt
  {
    ParseCanonical(WriterHeader(numChannels, sampleRate, fmt), samples, h0);
  }

  /** An unrecognised chunk between the `WAVE` form type and `fmt ` changes
      nothing tinywav_open_read parses. */
  lemma {:induction false} ChunkBeforeFmtIgnored(riff: seq<Byte>, id: FourCC, body: seq<Byte>, rest: seq<Byte>, h0: Header)
    requires |riff| == 12 && riff[..4] == RIFF && riff[8..] == WAVE
    requires id != FMT && |body| < 0x1_0000_0000 && |rest| >= 8
    ensures ParseWav(riff + (id + (Encode(|body|, 4) + (body + rest))), h0) == ParseWav(riff + rest, h0)
  {
    var chunk := id + (Encode(|body|, 4) + (body + rest));
    SubchunksSkipOther(id, body, rest, h0.(chunkID := RIFF, chunkSize := Decode(riff[4..8]), format := WAVE));
    SameSubchunksSameParse(riff, chunk, rest, h0);
  }

  /** Behind the same valid RIFF/WAVE prefix, two suffixes that parse alike
      give the same parse. */
  lemma {:induction false} SameSubchunksSameParse(riff: seq<Byte>, s: seq<Byte>, s': seq<Byte>, h0: Header)
    requires |riff| == 12 && riff[..4] == RIFF && riff[8..] == WAVE
    requires var h1 := h0.(chunkID := RIFF, chunkSize := Decode(riff[4..8]), format := WAVE);
             ParseSubchunks(s, h1) == ParseSubchunks(s', h1)
    ensures ParseWav(riff + s, h0) == ParseWav(riff + s', h0)
  {
    RiffPrefix(riff, s, h0);
    RiffPrefix(riff, s', h0);
  }

  lemma {:induction false} SubchunksSkipOther(id: FourCC, body: seq<Byte>, rest: seq<Byte>, h1: Header)
    requires id != FMT && |body| < 0x1_0000_0000 && |rest| >= 8
    ensures ParseSubchunks(id + (Encode(|body|, 4) + (body + rest)), h1) == ParseSubchunks(rest, h1)
  {
    ScanSkipsOtherChunk(id, body, rest, FMT, h1.subchunk1ID, h1.subchunk1Size);
  }

  /** An unrecognised chunk between the `fmt ` fields and `data` changes
      nothing tinywav_open_read parses. */
  lemma {:induction false} ChunkBeforeDataIgnored(riff: seq<Byte>, fmtChunk: seq<Byte>, id: FourCC, body: seq<Byte>,
                               rest: seq<Byte>, h0: Header)
    requires |riff| == 12 && riff[..4] == RIFF && riff[8..] == WAVE
    requires |fmtChunk| == 24 && fmtChunk[..4] == FMT
    requires id != DATA && |body| < 0x1_0000_0000 && |rest| >= 8
    ensures ParseWav(riff + (fmtChunk + (id + (Encode(|body|, 4) + (body + rest)))), h0)
         == ParseWav(riff + (fmtChunk + rest), h0)
  {
    var chunk := id + (Encode(|body|, 4) + (body + rest));
    var h1 := h0.(chunkID := RIFF, chunkSize := Decode(riff[4..8]), format := WAVE);
    FmtFirst(fmtChunk, chunk, h1);
    FmtFirst(fmtChunk, rest, h1);
    var f := fmtChunk;
    DataSkipOther(id, body, rest,
                  h1.(subchunk1ID := FMT, subchunk1Size := Decode(f[4..8]),
                      audioFormat := Decode(f[8..10]), numChannels := Decode(f[10..12]),
                      sampleRate := Decode(f[12..16]), byteRate := Decode(f[16..20]),
                      blockAlign := Decode(f[20..22]), bitsPerSample := Decode(f[22..24])));
    SameSubchunksSameParse(riff, fmtChunk + chunk, fmtChunk + rest, h0);
  }

  lemma {:induction false} DataSkipOther(id: FourCC, body: seq<Byte>, rest: seq<Byte>, h2: Header)
    requires id != DATA && |body| < 0x1_0000_0000 && |rest| >= 8
    ensures FindData(id + (Encode(|body|, 4) + (body + rest)), h2) == FindData(rest, h2)
  {
    ScanSkipsOtherChunk(id, body, rest, DATA, h2.subchunk2ID, h2.subchunk2Size);
  }

  /** The other direction of RiffPrefix: tinywav_open_read accepts only a
      file that starts with a 12-byte RIFF/WAVE prefix and has a `fmt `
      subchunk. */
  lemma {:induction false} AcceptedHasSignature(file: seq<Byte>, h0: Header)
    ensures var p := ParseWav(file, h0);
            p.ok ==> |file| >= 12 && file[..4] == RIFF && file[8..12] == WAVE && p.h.subchunk1ID == FMT
  {
    var p := ParseWav(file, h0);
    if p.ok {
      var cid := ReadID(file, h0.chunkID);
      var csz := ReadU32(cid.rest, h0.chunkSize);
      var form := ReadID(csz.rest, h0.format);
      assert cid.count == 4 && csz.count == 1 && form.count == 4;
      assert cid.value == RIFF && form.value == WAVE;
      assert csz.rest == file[8..];
      assert file[8..][..4] == file[8..12];
    }
  }

  /** A valid 12-byte RIFF/WAVE prefix passes the signature check. */
  lemma {:induction false} RiffPrefix(riff: seq<Byte>, s: seq<Byte>, h0: Header)
    requires |riff| == 12 && riff[..4] == RIFF && riff[8..] == WAVE
    ensures ParseWav(riff + s, h0)
         == ParseSubchunks(s, h0.(chunkID := RIFF, chunkSize := Decode(riff[4..8]), format := WAVE))
  {
    var file := riff + s;
    assert file[..4] == RIFF;
    assert file[4..][..4] == riff[4..8];
    assert file[4..][4..][..4] == WAVE;
    assert file[4..][4..][4..] == s;
  }

  /** A `fmt ` chunk right at the scan position is read field by field, and
      what follows its 24 bytes is scanned for `data`. */
  lemma {:induction false} FmtFirst(fmtChunk: seq<Byte>, s: seq<Byte>, h1: Header)
    requires |fmtChunk| == 24 && fmtChunk[..4] == FMT
    ensures var f := fmtChunk;
            ParseSubchunks(fmtChunk + s, h1)
              == FindData(s, h1.(subchunk1ID := FMT, subchunk1Size := Decode(f[4..8]),
                                 audioFormat := Decode(f[8..10]), numChannels := Decode(f[10..12]),
                                 sampleRate := Decode(f[12..16]), byteRate := Decode(f[16..20]),
                                 blockAlign := Decode(f[20..22]), bitsPerSample := Decode(f[22..24])))
  {
    var f := fmtChunk + s;
    assert f[..4] == FMT;
    assert f[4..][..4] == fmtChunk[4..8];
    var g := f[8..];
    assert f[4..][4..] == g;
    assert g[..2] == fmtChunk[8..10];
    assert g[2..][..2] == fmtChunk[10..12];
    assert g[4..][..4] == fmtChunk[12..16];
    assert g[8..][..4] == fmtChunk[16..20];
    assert g[12..][..2] == fmtChunk[20..22];
    assert g[14..][..2] == fmtChunk[22..24];
    assert g[2..][2..] == g[4..];
    assert g[4..][4..] == g[8..];
    assert g[8..][4..] == g[12..];
    assert g[12..][2..] == g[14..];
    assert g[14..][2..] == s;
  }
}
