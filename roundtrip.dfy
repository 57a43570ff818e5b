/** Whole-file properties: what tinywav_open_write, tinywav_write_f and
    tinywav_close_write leave on disk is what tinywav_open_read and
    tinywav_read_f take back. */
module RoundTrip {
  import opened LittleEndian
  import opened Wav
  import opened Layout
  import opened Stdio
  import opened Samples
  import opened TinyWavHandle

  /** tinywav_close_write's two patches change only the ChunkSize and
      Subchunk2Size fields of the header and none of the samples. */
  lemma BackpatchHeader(h: Header, samples: seq<Byte>, chunkSize: uint32, dataLen: uint32)
    ensures Backpatch(HeaderBytes(h) + samples, chunkSize, dataLen)
            == HeaderBytes(h.(chunkSize := chunkSize, subchunk2Size := dataLen)) + samples
  {
    var h' := h.(chunkSize := chunkSize, subchunk2Size := dataLen);
    var cs, dl := Encode(chunkSize, 4), Encode(dataLen, 4);
    var b := HeaderBytes(h) + samples;
    var b1 := Overwrite(b, 4, cs);
    var b2 := Overwrite(b1, 40, dl);
    var t := HeaderBytes(h') + samples;
    assert RiffBytes(h') == h.chunkID + cs + h.format;
    assert DataHeaderBytes(h') == h.subchunk2ID + dl;
    forall i | 0 <= i < |t|
      ensures b2[i] == t[i]
    {
      OverwriteAt(b1, 40, dl, i);
      OverwriteAt(b, 4, cs, i);
    }
  }

  /** A file written with `frames` frames of `samples` and closed is
      accepted by tinywav_open_read with the writer's header and the final
      sizes, declares exactly `frames` frames, and its data chunk decodes to
      the samples written (up to the int16 scaling). */
  lemma FileRoundTrip(numChannels: int16, sampleRate: int32, fmt: SampleFormat, scale: Int16Scaling,
                      samples: seq<FloatBits>, frames: uint32, h0: Header)
    requires numChannels >= 1 && sampleRate >= 1
    requires |samples| == frames * numChannels
    requires frames * numChannels * fmt.BytesPerSample() + 36 < Modulus32
    ensures var h := WriterHeader(numChannels, sampleRate, fmt);
            var e := EncodeSamples(samples, fmt, scale);
            var dataLen := DataLength(frames, numChannels, fmt);
            var p := ParseWav(Backpatch(HeaderBytes(h) + e, ChunkSizeFor(dataLen), dataLen), h0);
            p.ok && p.rest == e
            && p.h == h.(chunkSize := 36 + |e|, subchunk2Size := |e|)
            && AsInt16(p.h.numChannels) == numChannels
            && ReaderSampleFormat(p.h.bitsPerSample, p.h.audioFormat) == fmt
            && FramesInHeader(p.h.subchunk2Size, numChannels, fmt) == frames
            && var back := DecodeSamples(p.rest, fmt, scale);
               |back| == |samples| && forall k :: 0 <= k < |samples| ==> back[k] == Reconstructed(samples[k], fmt, scale)
  {
    var h := WriterHeader(numChannels, sampleRate, fmt);
    var e := EncodeSamples(samples, fmt, scale);
    var dataLen := DataLength(frames, numChannels, fmt);
    SizesOf(frames, numChannels, fmt, |e|);
    BackpatchHeader(h, e, ChunkSizeFor(dataLen), dataLen);
    ParseCanonical(h.(chunkSize := 36 + |e|, subchunk2Size := |e|), e, h0);
    DecodeEncodeSamples(samples, fmt, scale);
  }

  /** The sizes tinywav_close_write stores for n = frames * channels *
      bytes-per-sample data bytes, when nothing wraps, and the frame count
      tinywav_open_read derives from them. */
  lemma SizesOf(frames: uint32, channels: int16, fmt: SampleFormat, n: nat)
    requires channels >= 1 && n == frames * channels * fmt.BytesPerSample() && n + 36 < Modulus32
    ensures DataLength(frames, channels, fmt) == n && ChunkSizeFor(n) == n + 36
    ensures FramesInHeader(n, channels, fmt) == frames
  {
    var w := fmt.BytesPerSample();
    assert n == frames * (channels * w);
    MulDivCancel(frames, channels * w);
  }

  /** Writing a block in one channel layout and reading it back in the
      same layout: the frames the reader's buffer then holds are the frames
      written, and reading into the writer's own buffer restores it. */
  lemma Float32LayoutRoundTrip(fmt: ChannelFormat, x: seq<FloatBits>, a: seq<FloatBits>, ptrs: seq<nat>,
                               channels: nat, frames: nat, scale: Int16Scaling)
    requires BufferFits(fmt, |x|, ptrs, channels, frames) && BufferFits(fmt, |a|, ptrs, channels, frames)
    requires Separate(fmt, ptrs, frames)
    ensures var z := Interleave(fmt, x, ptrs, channels, frames);
            var back := DecodeSamples(EncodeSamples(z, Float32, scale), Float32, scale);
            back == z
            && Interleave(fmt, Deliver(fmt, a, back, ptrs, channels, frames), ptrs, channels, frames) == z
            && Deliver(fmt, x, back, ptrs, channels, frames) == x
  {
    var z := Interleave(fmt, x, ptrs, channels, frames);
    DecodeEncodeFloat32(z, scale);
    InterleaveDeliver(fmt, a, z, ptrs, channels, frames);
    DeliverInterleave(fmt, x, ptrs, channels, frames);
  }

  // -----------------------------------------------------------------------
  // The handle's methods composed on one file

  /** One tinywav_write_f of all `frames` interleaved frames of `x` on a
      handle open for writing at the end of its file: the encoded samples
      are appended and the handle counts the frames. */
  method WriteAll(tw: TinyWav, x: array<FloatBits>, frames: uint32, scale: Int16Scaling)
    requires tw.Valid() && tw.f != null && tw.f.writable && tw.f.pos == |tw.f.bytes|
    requires tw.chanFmt == Interleaved && tw.totalFramesReadWritten == 0 && x.Length == tw.numChannels * frames
    modifies tw, tw.f
    ensures tw.Valid() && tw.f == old(tw.f) && tw.f.writable && tw.h == old(tw.h)
    ensures tw.numChannels == old(tw.numChannels) && tw.sampFmt == old(tw.sampFmt)
    ensures tw.totalFramesReadWritten == frames
    ensures tw.f.bytes == old(tw.f.bytes) + EncodeSamples(x[..], tw.sampFmt, scale)
  {
    ghost var before := tw.f.bytes;
    ghost var e := EncodeSamples(x[..], tw.sampFmt, scale);
    assert BufferFits(Interleaved, x.Length, [], tw.numChannels, frames);
    assert x[..][..tw.numChannels * frames] == x[..];
    var r := tw.WriteF(x, [], frames, scale);
    OverwriteAtEnd(before, e);
  }

  /** tinywav_open_write and one tinywav_write_f of `frames` interleaved
      frames on a fresh handle: the file holds the writer header and the
      encoded samples, and the handle counts the frames. */
  method OpenAndWrite(numChannels: int16, sampleRate: int32, fmt: SampleFormat, scale: Int16Scaling,
                      x: array<FloatBits>, frames: uint32, file: File) returns (tw: TinyWav)
    requires numChannels >= 1 && sampleRate >= 1 && x.Length == numChannels * frames
    modifies file
    ensures fresh(tw) && tw.Valid() && tw.f == file && file.writable
    ensures tw.numChannels == numChannels && tw.sampFmt == fmt && tw.totalFramesReadWritten == frames
    ensures file.bytes == HeaderBytes(WriterHeader(numChannels, sampleRate, fmt)) + EncodeSamples(x[..], fmt, scale)
  {
    tw := new TinyWav();
    var r := tw.OpenWrite(numChannels, sampleRate, fmt, Interleaved, file);
    WriteAll(tw, x, frames, scale);
  }

  /** tinywav_open_write, one tinywav_write_f of `frames` interleaved
      frames and tinywav_close_write on a fresh handle: the file then holds
      the writer header, patched with the final sizes, and the encoded
      samples. */
  method WriteFile(numChannels: int16, sampleRate: int32, fmt: SampleFormat, scale: Int16Scaling,
                   x: array<FloatBits>, frames: uint32, file: File)
    requires numChannels >= 1 && sampleRate >= 1 && x.Length == numChannels * frames
    modifies file
    ensures var dataLen := DataLength(frames, numChannels, fmt);
            file.bytes == Backpatch(HeaderBytes(WriterHeader(numChannels, sampleRate, fmt))
                                    + EncodeSamples(x[..], fmt, scale), ChunkSizeFor(dataLen), dataLen)
  {
    var tw := OpenAndWrite(numChannels, sampleRate, fmt, scale, x, frames, file);
    tw.CloseWrite();
  }

  /** tinywav_open_read on the file WriteFile leaves: the handle takes
      the writer's channel count and sample format, and the stream stands
      at the encoded samples. */
  method OpenFile(numChannels: int16, sampleRate: int32, fmt: SampleFormat, scale: Int16Scaling,
                  x: seq<FloatBits>, frames: uint32, file: File) returns (tr: TinyWav)
    requires numChannels >= 1 && sampleRate >= 1 && |x| == numChannels * frames
    requires frames * numChannels * fmt.BytesPerSample() + 36 < Modulus32
    requires var dataLen := DataLength(frames, numChannels, fmt);
             file.bytes == Backpatch(HeaderBytes(WriterHeader(numChannels, sampleRate, fmt))
                                     + EncodeSamples(x, fmt, scale), ChunkSizeFor(dataLen), dataLen)
    modifies file
    ensures fresh(tr) && tr.Valid() && tr.f == file && tr.chanFmt == Interleaved
    ensures tr.numChannels == numChannels && tr.sampFmt == fmt && tr.totalFramesReadWritten == 0
    ensures var e := EncodeSamples(x, fmt, scale); file.Unread() == e && tr.h.subchunk2Size == |e|
  {
    tr := new TinyWav();
    FileRoundTrip(numChannels, sampleRate, fmt, scale, x, frames, tr.h);
    var r := tr.OpenRead(Interleaved, file);
  }

  /** What one tinywav_read_f of `frames` interleaved frames makes of a
      stream holding exactly that many frames of samples: it reads all the
      bytes, counts all the frames and fills the whole buffer. */
  lemma ReadWhole(e: seq<Byte>, fmt: SampleFormat, scale: Int16Scaling, channels: int16, frames: nat,
                  a: seq<FloatBits>)
    requires channels >= 1 && |e| == channels * frames * fmt.BytesPerSample() && |a| == channels * frames
    ensures var raw := e[..Min(channels * frames * fmt.BytesPerSample(), |e|)];
            var z := DecodeSamples(raw, fmt, scale);
            raw == e && |z| == channels * frames && |z| / channels == frames
            && Deliver(Interleaved, a, z, [], channels, frames) == z
  {
    var w := fmt.BytesPerSample();
    assert e[..Min(channels * frames * w, |e|)] == e;
    var z := DecodeSamples(e, fmt, scale);
    MulDivCancel(channels * frames, w);
    assert |z| == channels * frames;
    MulDivCancel(frames, channels);
    assert z[..channels * frames] + a[channels * frames..] == z;
  }

  /** One tinywav_read_f of `frames` interleaved frames on a handle whose
      stream stands at exactly that many frames of samples, as the header
      declares: all of them are decoded into a new buffer. */
  method ReadAll(tr: TinyWav, frames: uint32, scale: Int16Scaling) returns (y: array<FloatBits>, got: int)
    requires tr.Valid() && tr.f != null && tr.chanFmt == Interleaved && tr.totalFramesReadWritten == 0
    requires |tr.f.Unread()| == tr.numChannels * frames * tr.sampFmt.BytesPerSample()
    requires tr.h.subchunk2Size == |tr.f.Unread()|
    modifies tr, tr.f
    ensures fresh(y) && got == frames
    ensures y[..] == DecodeSamples(old(tr.f.Unread()), old(tr.sampFmt), scale)
  {
    ghost var e := tr.f.Unread();
    var channels := tr.numChannels;
    y := new FloatBits[channels * frames](_ => 0);
    ReadWhole(e, tr.sampFmt, scale, channels, frames, y[..]);
    got := tr.ReadF(y, [], frames, scale);
    if frames == 0 {
      assert PastData(0, tr.h);
    } else {
      assert !PastData(0, tr.h);
    }
  }

  /** The file WriteFile leaves, opened with tinywav_open_read and read
      with one tinywav_read_f of `frames` interleaved frames: every frame
      comes back, each sample as the encoding reconstructs it, and float32
      samples bit for bit. */
  method ReadFile(numChannels: int16, sampleRate: int32, fmt: SampleFormat, scale: Int16Scaling,
                  x: seq<FloatBits>, frames: uint32, file: File) returns (y: array<FloatBits>, got: int)
    requires numChannels >= 1 && sampleRate >= 1 && |x| == numChannels * frames
    requires frames * numChannels * fmt.BytesPerSample() + 36 < Modulus32
    requires var dataLen := DataLength(frames, numChannels, fmt);
             file.bytes == Backpatch(HeaderBytes(WriterHeader(numChannels, sampleRate, fmt))
                                     + EncodeSamples(x, fmt, scale), ChunkSizeFor(dataLen), dataLen)
    modifies file
    ensures got == frames && y.Length == |x|
    ensures forall k :: 0 <= k < |x| ==> y[k] == Reconstructed(x[k], fmt, scale)
    ensures fmt == Float32 ==> y[..] == x
  {
    var tr := OpenFile(numChannels, sampleRate, fmt, scale, x, frames, file);
    ghost var e := EncodeSamples(x, fmt, scale);
    assert |e| == numChannels * frames * fmt.BytesPerSample();
    y, got := ReadAll(tr, frames, scale);
    DecodeEncodeSamples(x, fmt, scale);
    assert y.Length == |x|;
    if fmt == Float32 {
      assert forall k :: 0 <= k < |x| ==> y[..][k] == x[k];
    }
  }

  /** A file written through the handle and read back through a second
      handle gives back the caller's frames. */
  method WriteThenRead(numChannels: int16, sampleRate: int32, fmt: SampleFormat, scale: Int16Scaling,
                       x: array<FloatBits>, frames: uint32, file: File) returns (y: array<FloatBits>, got: int)
    requires numChannels >= 1 && sampleRate >= 1 && x.Length == numChannels * frames
    requires frames * numChannels * fmt.BytesPerSample() + 36 < Modulus32
    modifies file
    ensures got == frames && y.Length == x.Length
    ensures forall k :: 0 <= k < x.Length ==> y[k] == Reconstructed(x[k], fmt, scale)
    ensures fmt == Float32 ==> y[..] == x[..]
  {
    WriteFile(numChannels, sampleRate, fmt, scale, x, frames, file);
    y, got := ReadFile(numChannels, sampleRate, fmt, scale, x[..], frames, file);
  }
}
