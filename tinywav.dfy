/** The TinyWav handle: opening a file for writing or reading, writing and
    reading blocks of frames, and closing (tinywav.c). */
module TinyWavHandle {
  import opened LittleEndian
  import opened Wav
  import opened Layout
  import opened Stdio
  import opened Samples
  import opened Buffers

  const Modulus32 := 0x1_0000_0000

  /** The Subchunk2Size tinywav_close_write stores: frames * channels *
      bytes per sample in uint32_t arithmetic. */
  function DataLength(frames: uint32, channels: int16, fmt: SampleFormat): (r: uint32)
    ensures var n := frames * channels * fmt.BytesPerSample(); 0 <= n < Modulus32 ==> r == n
  {
    (frames * channels * fmt.BytesPerSample()) % Modulus32
  }

  /** The ChunkSize tinywav_close_write stores: the data length plus the 36
      header bytes after the ChunkSize field, in uint32_t arithmetic. */
  function ChunkSizeFor(dataLen: uint32): (r: uint32)
    ensures dataLen + 36 < Modulus32 ==> r == dataLen + 36
  {
    (36 + dataLen) % Modulus32
  }

  /** The file after tinywav_close_write's two seek-and-write steps:
      ChunkSize at offset 4, Subchunk2Size at offset 40. */
  function Backpatch(b: seq<Byte>, chunkSize: uint32, dataLen: uint32): (r: seq<Byte>)
    ensures |r| >= |b| && (|b| >= 44 ==> |r| == |b|)
    ensures |b| >= 44 ==> r[4..8] == Encode(chunkSize, 4) && r[40..44] == Encode(dataLen, 4)
    ensures forall i :: 0 <= i < |b| && !(4 <= i < 8) && !(40 <= i < 44) ==> r[i] == b[i]
  {
    var b1 := Overwrite(b, 4, Encode(chunkSize, 4));
    OverwriteKeeps(b, 4, Encode(chunkSize, 4));
    OverwriteKeeps(b1, 40, Encode(dataLen, 4));
    Overwrite(b1, 40, Encode(dataLen, 4))
  }

  /** Whether tinywav_read_f finds the stream past the declared data:
      frames so far times BlockAlign, in uint32_t arithmetic, at least
      Subchunk2Size. */
  function PastData(frames: uint32, h: Header): (r: bool)
    ensures h.subchunk2Size == 0 ==> r
    ensures frames * h.blockAlign < Modulus32 ==> (r <==> frames * h.blockAlign >= h.subchunk2Size)
  {
    (frames * h.blockAlign) % Modulus32 >= h.subchunk2Size
  }

  datatype Option<T> = None | Some(value: T)

  /** The divisor of tinywav_open_read's frame count: the int16_t channel
      count times the bytes per sample, converted to unsigned for the
      division of the uint32_t Subchunk2Size. */
  function UnsignedFrameSize(numChannels: int16, fmt: SampleFormat): (d: nat)
    ensures d == 0 <==> numChannels == 0
    ensures numChannels >= 1 ==> d == numChannels * fmt.BytesPerSample()
  {
    (if fmt == Int16 then numChannels * 2 else numChannels * 4) % Modulus32
  }

  /** numFramesInHeader as tinywav_open_read computes it for any NumChannels.
      None stands for a division by zero. */
  function FramesInHeaderAsWritten(subchunk2Size: uint32, numChannels: int16, fmt: SampleFormat): (r: Option<nat>)
    ensures r == None <==> numChannels == 0
  {
    var divisor := UnsignedFrameSize(numChannels, fmt);
    if divisor == 0 then None
    else
      DivNonNegative(subchunk2Size, divisor);
      Some(subchunk2Size / divisor)
  }

  /** For a positive channel count the computation as written is the
      frame count the model uses. */
  lemma FramesInHeaderAsWrittenAgrees(subchunk2Size: uint32, numChannels: int16, fmt: SampleFormat)
    requires numChannels >= 1
    ensures FramesInHeaderAsWritten(subchunk2Size, numChannels, fmt) == Some(FramesInHeader(subchunk2Size, numChannels, fmt))
  {
  }

  /** A header that is valid in every respect tinywav_open_read checks,
      except that NumChannels is 0, is accepted and reaches the division
      with a zero divisor. */
  lemma ZeroChannelsDivideByZero(h: Header, samples: seq<Byte>, h0: Header)
    requires h.chunkID == RIFF && h.format == WAVE && h.subchunk1ID == FMT && h.subchunk2ID == DATA
    requires h.numChannels == 0
    ensures var p := ParseWav(HeaderBytes(h) + samples, h0);
            p.ok && FramesInHeaderAsWritten(p.h.subchunk2Size, AsInt16(p.h.numChannels),
                                            ReaderSampleFormat(p.h.bitsPerSample, p.h.audioFormat)) == None
  {
    ParseCanonical(h, samples, h0);
  }

  /** The handle fields other than the stream and the header. */
  datatype Settings = Settings(numChannels: int16, numFramesInHeader: int, totalFramesReadWritten: uint32,
                               chanFmt: ChannelFormat, sampFmt: SampleFormat)

  class TinyWav {
    var f: File?
    var h: Header
    var numChannels: int16
    var numFramesInHeader: int
    var totalFramesReadWritten: uint32
    var chanFmt: ChannelFormat
    var sampFmt: SampleFormat

    /** An open handle has at least one channel. */
    ghost predicate Valid()
      reads this
    {
      f != null ==> numChannels >= 1
    }

    function CurrentSettings(): Settings
      reads this
    {
      Settings(numChannels, numFramesInHeader, totalFramesReadWritten, chanFmt, sampFmt)
    }

    /** A zero-initialised handle. */
    constructor ()
      ensures f == null && h == ZeroHeader && Valid()
      ensures CurrentSettings() == Settings(0, 0, 0, Interleaved, Int16)
    {
      f := null;
      h := ZeroHeader;
      numChannels := 0;
      numFramesInHeader := 0;
      totalFramesReadWritten := 0;
      chanFmt := Interleaved;
      sampFmt := Int16;
    }

    /** tinywav_isOpen. */
    predicate IsOpen()
      reads this
      ensures IsOpen() <==> f != null
    {
      f != null
    }

    // ---------------------------------------------------------------------
    // The stream operations tinywav_open_read applies, one header field at
    // a time.

    method FreadID(id: FourCC) returns (v: FourCC, count: nat)
      requires f != null
      modifies f`pos
      ensures var r := ReadID(old(f.Unread()), id); v == r.value && count == r.count && f.Unread() == r.rest
    {
      var got := f.Read(4);
      v := got + id[|got|..];
      count := |got|;
    }

    method FreadU32(prior: uint32) returns (v: uint32, count: nat)
      requires f != null
      modifies f`pos
      ensures var r := ReadU32(old(f.Unread()), prior); v == r.value && count == r.count && f.Unread() == r.rest
    {
      var got := f.Read(4);
      if |got| == 4 {
        var d := Decode(got);
        assert d < Pow256(4) == Modulus32;
        v, count := d, 1;
      } else {
        v, count := prior, 0;
      }
    }

    method FreadU16(prior: uint16) returns (v: uint16, count: nat)
      requires f != null
      modifies f`pos
      ensures var r := ReadU16(old(f.Unread()), prior); v == r.value && count == r.count && f.Unread() == r.rest
    {
      var got := f.Read(2);
      if |got| == 2 {
        var d := Decode(got);
        assert d < Pow256(2) == 0x1_0000;
        v, count := d, 1;
      } else {
        v, count := prior, 0;
      }
    }

    /** One of tinywav_open_read's subchunk loops: read an identifier and a
        size until the identifier is `target` or the file ends, skipping
        the body of every other subchunk. */
    method FindChunk(id: FourCC, size: uint32, target: FourCC) returns (id': FourCC, size': uint32)
      requires f != null
      modifies f`pos
      ensures var s := ScanChunks(old(f.Unread()), id, size, target);
              id' == s.id && size' == s.size && f.Unread() == s.rest
    {
      ghost var goal := ScanChunks(f.Unread(), id, size, target);
      id', size' := id, size;
      while true
        invariant ScanChunks(f.Unread(), id', size', target) == goal
        decreases |f.Unread()|
      {
        ghost var u := f.Unread();
        var c;
        id', c := FreadID(id');
        if c != 4 {
          return;
        }
        size', c := FreadU32(size');
        if ChunkIDMatches(id', target) {
          return;
        }
        f.Seek(size');
      }
    }

    // ---------------------------------------------------------------------
    // Writing

    /** fwrite at the end of a stream opened for writing: the data is
        appended. */
    method Append(data: seq<Byte>) returns (n: nat)
      requires f != null && f.writable && f.pos == |f.bytes|
      modifies f
      ensures f.writable && f.bytes == old(f.bytes) + data && f.pos == |f.bytes| && n == |data|
    {
      n := f.Write(data);
    }

    /** The first three header fields: `RIFF`, ChunkSize, `WAVE`. */
    method WriteRiff() returns (count: nat)
      requires f != null && f.writable && f.pos == |f.bytes|
      modifies f
      ensures f.writable && f.bytes == old(f.bytes) + RiffBytes(h) && f.pos == |f.bytes|
      ensures count == 9
    {
      var n := Append(h.chunkID);
      count := n;
      n := Append(Encode(h.chunkSize, 4));
      count := count + n / 4;
      n := Append(h.format);
      count := count + n;
    }

    /** The fmt subchunk: identifier, size and the six format fields. */
    method WriteFmt() returns (count: nat)
      requires f != null && f.writable && f.pos == |f.bytes|
      modifies f
      ensures f.writable && f.bytes == old(f.bytes) + FmtBytes(h) && f.pos == |f.bytes|
      ensures count == 11
    {
      var n := Append(h.subchunk1ID);
      count := n;
      n := Append(Encode(h.subchunk1Size, 4));
      count := count + n / 4;
      n := Append(Encode(h.audioFormat, 2));
      count := count + n / 2;
      n := Append(Encode(h.numChannels, 2));
      count := count + n / 2;
      n := Append(Encode(h.sampleRate, 4));
      count := count + n / 4;
      n := Append(Encode(h.byteRate, 4));
      count := count + n / 4;
      n := Append(Encode(h.blockAlign, 2));
      count := count + n / 2;
      n := Append(Encode(h.bitsPerSample, 2));
      count := count + n / 2;
    }

    /** The data subchunk header: identifier and size. */
    method WriteDataHeader() returns (count: nat)
      requires f != null && f.writable && f.pos == |f.bytes|
      modifies f
      ensures f.writable && f.bytes == old(f.bytes) + DataHeaderBytes(h) && f.pos == |f.bytes|
      ensures count == 5
    {
      var n := Append(h.subchunk2ID);
      count := n;
      n := Append(Encode(h.subchunk2Size, 4));
      count := count + n / 4;
    }

    /** The 13 header fields written in order, counting fwrite elements. */
    method WriteHeader() returns (count: nat)
      requires f != null && f.writable && f.pos == |f.bytes|
      modifies f
      ensures f.writable && f.bytes == old(f.bytes) + HeaderBytes(h) && f.pos == |f.bytes|
      ensures count == HeaderElementCount()
    {
      ghost var b0 := f.bytes;
      var c1 := WriteRiff();
      var c2 := WriteFmt();
      var c3 := WriteDataHeader();
      count := c1 + c2 + c3;
      assert f.bytes == b0 + RiffBytes(h) + FmtBytes(h) + DataHeaderBytes(h);
    }

    /** tinywav_open_write. `file` is what fopen(path, "wb") returned: null
        when the file cannot be opened. */
    method OpenWrite(numChannels: int16, sampleRate: int32, sampFmt: SampleFormat,
                     chanFmt: ChannelFormat, file: File?) returns (r: int)
      requires Valid()
      modifies this, file
      ensures Valid()
      ensures numChannels < 1 || sampleRate < 1 ==>
                r == -1 && f == old(f) && h == old(h) && CurrentSettings() == old(CurrentSettings())
                && (file != null ==> file.bytes == old(file.bytes) && file.pos == old(file.pos)
                                     && file.writable == old(file.writable))
      ensures numChannels >= 1 && sampleRate >= 1 && file == null ==>
                r == -1 && f == null && h == old(h) && CurrentSettings() == old(CurrentSettings())
      ensures numChannels >= 1 && sampleRate >= 1 && file != null ==>
                r == 0 && f == file && h == WriterHeader(numChannels, sampleRate, sampFmt)
                && file.bytes == HeaderBytes(h) && file.pos == |file.bytes| && file.writable
                && CurrentSettings() == Settings(numChannels, -1, 0, chanFmt, sampFmt)
    {
      if numChannels < 1 || sampleRate < 1 {
        return -1;
      }
      f := file;
      if f == null {
        return -1;
      }
      f.OpenForWrite();
      this.numChannels := numChannels;
      numFramesInHeader := -1;
      totalFramesReadWritten := 0;
      this.sampFmt := sampFmt;
      this.chanFmt := chanFmt;
      h := WriterHeader(numChannels, sampleRate, sampFmt);
      var elementCount := WriteHeader();
      if elementCount != HeaderElementCount() {
        return -1;
      }
      return 0;
    }

    /** tinywav_write_f: `len` frames of the caller's buffer `x`, in the
        handle's channel format (for split, `ptrs` holds each channel's
        offset in `x`), interleaved, encoded and appended to the file. */
    method WriteF(x: array?<FloatBits>, ptrs: seq<nat>, len: int, scale: Int16Scaling) returns (r: int)
      requires Valid()
      requires x != null && len >= 0 && f != null ==> BufferFits(chanFmt, x.Length, ptrs, numChannels, len)
      modifies this, f
      ensures Valid() && f == old(f) && h == old(h)
      ensures CurrentSettings() == old(CurrentSettings()).(totalFramesReadWritten := totalFramesReadWritten)
      ensures x == null || len < 0 || old(f) == null ==>
                r == -1 && totalFramesReadWritten == old(totalFramesReadWritten)
                && (f != null ==> f.bytes == old(f.bytes) && f.pos == old(f.pos) && f.writable == old(f.writable))
      ensures x != null && len >= 0 && old(f) != null ==>
                var e := EncodeSamples(Interleave(chanFmt, x[..], ptrs, numChannels, len), sampFmt, scale);
                f.writable == old(f.writable)
                && (old(f.writable) ==>
                      r == len && f.bytes == Overwrite(old(f.bytes), old(f.pos), e) && f.pos == old(f.pos) + |e|
                      && totalFramesReadWritten == (old(totalFramesReadWritten) + len) % Modulus32)
                && (!old(f.writable) ==>
                      r == 0 && f.bytes == old(f.bytes) && f.pos == old(f.pos)
                      && totalFramesReadWritten == old(totalFramesReadWritten))
    {
      if x == null || len < 0 || !IsOpen() {
        return -1;
      }
      var z := InterleaveFrames(x, ptrs, len);
      var w := sampFmt.BytesPerSample();
      var e := EncodeSamples(z, sampFmt, scale);
      ghost var writable := f.writable;
      var n := f.Write(e);
      var samplesWritten := n / w;
      var framesWritten := samplesWritten / numChannels;
      if writable {
        assert n == numChannels * len * w;
        WholeFrames(numChannels, len, w);
        assert framesWritten == len;
      } else {
        assert framesWritten == 0;
      }
      totalFramesReadWritten := (totalFramesReadWritten + framesWritten) % Modulus32;
      return framesWritten;
    }

    /** Step 1 of tinywav_write_f: bring `len` frames of the caller's
        buffer into interleaved order. */
    method InterleaveFrames(x: array<FloatBits>, ptrs: seq<nat>, len: nat) returns (z: seq<FloatBits>)
      requires numChannels >= 1
      requires BufferFits(chanFmt, x.Length, ptrs, numChannels, len)
      ensures z == Interleave(chanFmt, x[..], ptrs, numChannels, len)
    {
      match chanFmt {
        case Interleaved =>
          z := InterleavedCopy(x, numChannels * len);
        case Inline =>
          z := InterleaveInline(x, numChannels, len);
        case Split =>
          z := InterleaveSplit(x, ptrs, len);
      }
    }

    /** tinywav_close_write: the final sizes are stored in the header
        struct and patched into the file, and the stream is closed. */
    method CloseWrite()
      requires Valid()
      modifies this, f
      ensures Valid() && f == null && CurrentSettings() == old(CurrentSettings())
      ensures old(f) == null ==> h == old(h)
      ensures old(f) != null ==>
                var dataLen := DataLength(old(totalFramesReadWritten), old(numChannels), old(sampFmt));
                var chunkSize := ChunkSizeFor(dataLen);
                h == old(h).(chunkSize := chunkSize, subchunk2Size := dataLen)
                && old(f).writable == old(f.writable)
                && old(f).bytes == if old(f.writable) then Backpatch(old(f.bytes), chunkSize, dataLen)
                                   else old(f.bytes)
    {
      if f == null {
        return;
      }
      var dataLen := DataLength(totalFramesReadWritten, numChannels, sampFmt);
      var chunkSizeLen := ChunkSizeFor(dataLen);
      h := h.(chunkSize := chunkSizeLen, subchunk2Size := dataLen);
      f.SeekSet(4);
      var n := f.Write(Encode(chunkSizeLen, 4));
      f.SeekSet(40);
      n := f.Write(Encode(dataLen, 4));
      f := null;
    }

    // ---------------------------------------------------------------------
    // Reading

    /** tinywav_close_read. */
    method CloseRead()
      modifies this`f
      ensures f == null
    {
      if f == null {
        return;
      }
      f := null;
    }

    /** The RIFF chunk header and the WAVE form type, checked. */
    method ReadRiff() returns (ok: bool)
      requires f != null
      modifies this`h, f`pos
      ensures var p := ParseWav(old(f.Unread()), old(h));
              if ok then p == ParseSubchunks(f.Unread(), h) else p == Parsed(false, h, f.Unread())
    {
      var id, size, c;
      id, c := FreadID(h.chunkID);
      h := h.(chunkID := id);
      var elementCount := c;
      size, c := FreadU32(h.chunkSize);
      h := h.(chunkSize := size);
      elementCount := elementCount + c;
      id, c := FreadID(h.format);
      h := h.(format := id);
      elementCount := elementCount + c;
      ok := !(elementCount < 9 || !ChunkIDMatches(h.chunkID, RIFF) || !ChunkIDMatches(h.format, WAVE));
    }

    /** The scan for the fmt subchunk and its six fields, all of which must
        be read in full. */
    method ReadFmt() returns (ok: bool)
      requires f != null
      modifies this`h, f`pos
      ensures var p := ParseSubchunks(old(f.Unread()), old(h));
              if ok then p == FindData(f.Unread(), h) else p == Parsed(false, h, f.Unread())
    {
      var id, size := FindChunk(h.subchunk1ID, h.subchunk1Size, FMT);
      h := h.(subchunk1ID := id, subchunk1Size := size);
      var v16, v32, c;
      v16, c := FreadU16(h.audioFormat);
      h := h.(audioFormat := v16);
      var elementCount := c;
      v16, c := FreadU16(h.numChannels);
      h := h.(numChannels := v16);
      elementCount := elementCount + c;
      v32, c := FreadU32(h.sampleRate);
      h := h.(sampleRate := v32);
      elementCount := elementCount + c;
      v32, c := FreadU32(h.byteRate);
      h := h.(byteRate := v32);
      elementCount := elementCount + c;
      v16, c := FreadU16(h.blockAlign);
      h := h.(blockAlign := v16);
      elementCount := elementCount + c;
      v16, c := FreadU16(h.bitsPerSample);
      h := h.(bitsPerSample := v16);
      elementCount := elementCount + c;
      ok := elementCount == 6;
    }

    /** The scan for the data subchunk; a missing one is not an error. */
    method ReadDataHeader()
      requires f != null
      modifies this`h, f`pos
      ensures FindData(old(f.Unread()), old(h)) == Parsed(true, h, f.Unread())
    {
      var id, size := FindChunk(h.subchunk2ID, h.subchunk2Size, DATA);
      h := h.(subchunk2ID := id, subchunk2Size := size);
    }

    /** The whole header parse of tinywav_open_read. */
    method ReadHeader() returns (ok: bool)
      requires f != null
      modifies this`h, f`pos
      ensures ParseWav(old(f.Unread()), old(h)) == Parsed(ok, h, f.Unread())
    {
      ok := ReadRiff();
      if !ok {
        return;
      }
      ok := ReadFmt();
      if !ok {
        return;
      }
      ReadDataHeader();
    }

    /** tinywav_open_read. `file` is what fopen(path, "rb") returned. A file
        whose NumChannels, as an int16_t, is below 1 is rejected. As written,
        tinywav.c divides by zero when it is 0, and when it is negative it
        divides by the negative frame size converted to a large unsigned
        value (FramesInHeaderAsWritten). */
    method OpenRead(chanFmt: ChannelFormat, file: File?) returns (r: int)
      requires Valid()
      modifies this, file
      ensures Valid()
      ensures file == null ==>
                r == -1 && f == null && h == old(h) && CurrentSettings() == old(CurrentSettings())
      ensures file != null ==>
                var p := ParseWav(old(file.bytes), old(h));
                file.bytes == old(file.bytes) && !file.writable && h == p.h
                && (!p.ok ==> r == -1 && f == null && CurrentSettings() == old(CurrentSettings()))
                && (p.ok ==>
                      numChannels == AsInt16(h.numChannels) && this.chanFmt == chanFmt
                      && sampFmt == ReaderSampleFormat(h.bitsPerSample, h.audioFormat))
                && (p.ok && numChannels < 1 ==>
                      r == -1 && f == null && numFramesInHeader == old(numFramesInHeader)
                      && totalFramesReadWritten == old(totalFramesReadWritten))
                && (p.ok && numChannels >= 1 ==>
                      r == 0 && f == file && file.Unread() == p.rest
                      && numFramesInHeader == FramesInHeader(h.subchunk2Size, numChannels, sampFmt)
                      && totalFramesReadWritten == 0)
    {
      f := file;
      if f == null {
        return -1;
      }
      ghost var p := ParseWav(file.bytes, h);
      f.OpenForRead();
      var ok := ReadHeader();
      assert p == Parsed(ok, h, file.Unread());
      if !ok {
        CloseRead();
        return -1;
      }
      r := AdoptHeader(chanFmt);
    }

    /** The handle fields tinywav_open_read sets from the parsed header. */
    method AdoptHeader(chanFmt: ChannelFormat) returns (r: int)
      requires f != null
      modifies this`numChannels, this`chanFmt, this`sampFmt, this`numFramesInHeader,
               this`totalFramesReadWritten, this`f
      ensures numChannels == AsInt16(h.numChannels) && this.chanFmt == chanFmt
      ensures sampFmt == ReaderSampleFormat(h.bitsPerSample, h.audioFormat)
      ensures numChannels < 1 ==>
                r == -1 && f == null && numFramesInHeader == old(numFramesInHeader)
                && totalFramesReadWritten == old(totalFramesReadWritten)
      ensures numChannels >= 1 ==>
                r == 0 && f == old(f) && totalFramesReadWritten == 0
                && numFramesInHeader == FramesInHeader(h.subchunk2Size, numChannels, sampFmt)
    {
      numChannels := AsInt16(h.numChannels);
      this.chanFmt := chanFmt;
      sampFmt := ReaderSampleFormat(h.bitsPerSample, h.audioFormat);
      if numChannels < 1 {
        CloseRead();
        return -1;
      }
      numFramesInHeader := FramesInHeader(h.subchunk2Size, numChannels, sampFmt);
      totalFramesReadWritten := 0;
      return 0;
    }

    /** tinywav_read_f: up to `len` frames are read, decoded and stored in
        the caller's buffer `data` in the handle's channel format. Nothing
        is read once the frames so far cover the declared data size. */
    method ReadF(data: array?<FloatBits>, ptrs: seq<nat>, len: int, scale: Int16Scaling) returns (r: int)
      requires Valid()
      requires data != null && len >= 0 && f != null ==> BufferFits(chanFmt, data.Length, ptrs, numChannels, len)
      modifies this, f, data
      ensures Valid() && f == old(f) && h == old(h)
      ensures CurrentSettings() == old(CurrentSettings()).(totalFramesReadWritten := totalFramesReadWritten)
      ensures f != null ==> f.bytes == old(f.bytes) && f.writable == old(f.writable)
      ensures data == null || len < 0 || old(f) == null || PastData(old(totalFramesReadWritten), h) ==>
                r == (if data == null || len < 0 || old(f) == null then -1 else 0)
                && totalFramesReadWritten == old(totalFramesReadWritten)
                && (data != null ==> data[..] == old(data[..]))
                && (f != null ==> f.pos == old(f.pos))
      ensures data != null && len >= 0 && old(f) != null && !PastData(old(totalFramesReadWritten), h) ==>
                var u := old(f.Unread());
                var raw := u[..Min(numChannels * len * sampFmt.BytesPerSample(), |u|)];
                var z := DecodeSamples(raw, sampFmt, scale);
                var frames := |z| / numChannels;
                r == frames && 0 <= frames <= len && f.Unread() == u[|raw|..]
                && totalFramesReadWritten == (old(totalFramesReadWritten) + frames) % Modulus32
                && numChannels * frames <= |z|
                && BufferFits(chanFmt, data.Length, ptrs, numChannels, frames)
                && data[..] == Deliver(chanFmt, old(data[..]), z, ptrs, numChannels, frames)
    {
      if data == null || len < 0 || !IsOpen() {
        return -1;
      }
      if PastData(totalFramesReadWritten, h) {
        return 0;
      }
      var z, framesRead := ReadBlock(len, scale);
      BufferFitsFewer(chanFmt, data.Length, ptrs, numChannels, len, framesRead);
      totalFramesReadWritten := (totalFramesReadWritten + framesRead) % Modulus32;
      DeliverFrames(data, z, ptrs, framesRead);
      return framesRead;
    }

    /** The fread and decode step of tinywav_read_f: at most len frames'
        worth of bytes are read, and the whole samples among them decoded. */
    method ReadBlock(len: nat, scale: Int16Scaling) returns (z: seq<FloatBits>, frames: nat)
      requires f != null && numChannels >= 1
      modifies f`pos
      ensures var u := old(f.Unread());
              var raw := u[..Min(numChannels * len * sampFmt.BytesPerSample(), |u|)];
              z == DecodeSamples(raw, sampFmt, scale) && frames == |z| / numChannels
              && frames <= len && numChannels * frames <= |z| && f.Unread() == u[|raw|..]
    {
      ghost var u := f.Unread();
      var w := sampFmt.BytesPerSample();
      var channels := numChannels;
      var n := channels * len * w;
      var raw := f.Read(n);
      assert raw == u[..Min(n, |u|)] && f.Unread() == u[|raw|..];
      z := DecodeSamples(raw, sampFmt, scale);
      frames := |z| / channels;
      FramesBound(|raw|, |z|, frames, channels, len, w);
    }

    /** The copy-out step of tinywav_read_f, by channel format. */
    method DeliverFrames(data: array<FloatBits>, z: seq<FloatBits>, ptrs: seq<nat>, frames: nat)
      requires numChannels >= 1 && numChannels * frames <= |z|
      requires BufferFits(chanFmt, data.Length, ptrs, numChannels, frames)
      modifies data
      ensures data[..] == Deliver(chanFmt, old(data[..]), z, ptrs, numChannels, frames)
    {
      match chanFmt {
        case Interleaved =>
          CopyBlock(data, z, numChannels * frames);
        case Inline =>
          DeinterleaveInline(data, z, numChannels, frames);
        case Split =>
          DeinterleaveSplit(data, z, ptrs, frames);
      }
    }
  }

  /** The frame count tinywav_read_f reports never exceeds the frames
      requested, and its samples are among those decoded. */
  lemma FramesBound(rawLen: nat, samples: nat, frames: nat, channels: nat, len: nat, w: nat)
    requires channels >= 1 && (w == 2 || w == 4)
    requires rawLen <= channels * len * w && samples == rawLen / w && frames == samples / channels
    ensures frames <= len && channels * frames <= samples
  {
    var m := channels * len;
    assert rawLen <= m * w;
    if w == 2 {
      assert samples <= m;
    } else {
      assert samples <= m;
    }
    if frames > len {
      MulMonotone(len + 1, frames, channels);
    }
  }

  /** Writing channels * len samples of w bytes reports len frames. */
  lemma WholeFrames(channels: nat, len: nat, w: nat)
    requires channels >= 1 && (w == 2 || w == 4)
    ensures (channels * len * w) / w / channels == len
  {
    MulDivCancel(channels * len, w);
    MulDivCancel(len, channels);
  }

  lemma BufferFitsFewer(fmt: ChannelFormat, n: nat, ptrs: seq<nat>, channels: nat, len: nat, frames: nat)
    requires BufferFits(fmt, n, ptrs, channels, len) && frames <= len
    ensures BufferFits(fmt, n, ptrs, channels, frames)
  {
    MulMonotone(frames, len, channels);
  }
}
