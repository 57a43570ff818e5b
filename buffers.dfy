/** The sample-moving loops of tinywav_read_f and tinywav_write_f, each
    proved against the Layout function that says where every sample goes. */
module Buffers {
  import opened Wav
  import opened Layout

  /** For channel i < channels, the index i + t * channels is inside the
      first `frames` frames exactly when t < frames. */
  lemma StrideBound(i: nat, t: nat, channels: nat, frames: nat)
    requires i < channels
    ensures i + t * channels < frames * channels <==> t < frames
  {
    if t < frames {
      FrameIndexBound(t, i, frames, channels);
    } else {
      MulMonotone(frames, t, channels);
    }
  }

  // -----------------------------------------------------------------------
  // tinywav_read_f: interleaved block to the caller's buffer

  /** The interleaved case: the first n samples of the block are copied. */
  method CopyBlock<T>(data: array<T>, z: seq<T>, n: nat)
    requires n <= |z| && n <= data.Length
    modifies data
    ensures data[..] == z[..n] + old(data[..])[n..]
  {
    for pos := 0 to n
      invariant forall q :: 0 <= q < data.Length ==> data[q] == if q < pos then z[q] else old(data[q])
    {
      data[pos] := z[pos];
    }
  }

  /** The inner loop of the inline case for channel i: the samples i,
      i + C, i + 2C, ... of the block go to consecutive positions from pos0. */
  method StoreStrided<T>(data: array<T>, z: seq<T>, channels: nat, frames: nat, i: nat, pos0: nat)
    returns (pos: nat)
    requires i < channels && frames * channels <= |z| && pos0 + frames <= data.Length
    modifies data
    ensures pos == pos0 + frames
    ensures data[..] == StoreChannel(old(data[..]), z, channels, frames, i, pos0)
  {
    ghost var ch := ChannelOf(z, channels, frames, i);
    ghost var t := 0;
    pos := pos0;
    var j := i;
    while j < frames * channels
      invariant t <= frames && j == i + t * channels && pos == pos0 + t
      invariant forall q :: 0 <= q < data.Length ==>
                  data[q] == if pos0 <= q < pos then ch[q - pos0] else old(data[q])
    {
      StrideBound(i, t, channels, frames);
      data[pos] := z[j];
      j, pos, t := j + channels, pos + 1, t + 1;
    }
    StrideBound(i, t, channels, frames);
  }

  /** The inline case: channel i is stored contiguously from i * frames. */
  method DeinterleaveInline<T>(data: array<T>, z: seq<T>, channels: nat, frames: nat)
    requires channels * frames <= |z| && channels * frames <= data.Length
    modifies data
    ensures data[..] == Deliver(Inline, old(data[..]), z, [], channels, frames)
  {
    ghost var a := data[..];
    ghost var ptrs := InlinePtrs(channels, frames);
    InlineFits(channels, frames, data.Length);
    var pos := 0;
    for i := 0 to channels
      invariant i < channels ==> pos == ptrs[i]
      invariant data[..] == ScatterUpTo(a, z, ptrs, frames, i)
    {
      pos := StoreStrided(data, z, channels, frames, i, pos);
      assert i + 1 < channels ==> ptrs[i + 1] == ptrs[i] + frames;
    }
  }

  /** The inner loop of the split case for channel i: sample j * C + i of
      the block goes to position p + j. */
  method StoreChannelAt<T>(data: array<T>, z: seq<T>, channels: nat, frames: nat, i: nat, p: nat)
    requires i < channels && frames * channels <= |z| && p + frames <= data.Length
    modifies data
    ensures data[..] == StoreChannel(old(data[..]), z, channels, frames, i, p)
  {
    ghost var ch := ChannelOf(z, channels, frames, i);
    for j := 0 to frames
      invariant forall q :: 0 <= q < data.Length ==>
                  data[q] == if p <= q < p + j then ch[q - p] else old(data[q])
    {
      FrameIndexBound(j, i, frames, channels);
      data[p + j] := z[j * channels + i];
    }
  }

  /** The split case: channel i is stored from its pointer ptrs[i]. */
  method DeinterleaveSplit<T>(data: array<T>, z: seq<T>, ptrs: seq<nat>, frames: nat)
    requires frames * |ptrs| <= |z| && InBounds(ptrs, frames, data.Length)
    modifies data
    ensures data[..] == Deliver(Split, old(data[..]), z, ptrs, |ptrs|, frames)
  {
    ghost var a := data[..];
    for i := 0 to |ptrs|
      invariant data[..] == ScatterUpTo(a, z, ptrs, frames, i)
    {
      StoreChannelAt(data, z, |ptrs|, frames, i, ptrs[i]);
    }
  }

  // -----------------------------------------------------------------------
  // tinywav_write_f: the caller's buffer to an interleaved block

  /** The interleaved case: the first n samples are copied. */
  method InterleavedCopy<T>(x: array<T>, n: nat) returns (z: seq<T>)
    requires n <= x.Length
    ensures z == x[..n]
  {
    z := [];
    for i := 0 to n
      invariant z == x[..i]
    {
      z := z + [x[i]];
    }
  }

  /** The inner loop of the inline case: frame i is x[i], x[len + i],
      x[2 * len + i], ... */
  method InlineFrame<T>(x: array<T>, channels: nat, len: nat, i: nat) returns (fr: seq<T>)
    requires channels * len <= x.Length && i < len
    ensures InBounds(InlinePtrs(channels, len), len, x.Length)
    ensures fr == Frame(x[..], InlinePtrs(channels, len), i)
  {
    InlineFits(channels, len, x.Length);
    ghost var ptrs := InlinePtrs(channels, len);
    fr := [];
    for j := 0 to channels
      invariant |fr| == j
      invariant forall c :: 0 <= c < j ==> fr[c] == x[ptrs[c] + i]
    {
      assert ptrs[j] == j * len;
      fr := fr + [x[j * len + i]];
    }
  }

  /** The inline case: frames 0 .. len-1, each gathered across the
      channel regions. */
  method InterleaveInline<T>(x: array<T>, channels: nat, len: nat) returns (z: seq<T>)
    requires channels * len <= x.Length
    ensures z == Interleave(Inline, x[..], [], channels, len)
  {
    ghost var ptrs := InlinePtrs(channels, len);
    InlineFits(channels, len, x.Length);
    z := [];
    for i := 0 to len
      invariant z == GatherUpTo(x[..], ptrs, len, i)
    {
      var fr := InlineFrame(x, channels, len, i);
      z := z + fr;
    }
  }

  /** The inner loop of the split case: frame i is x[0][i], x[1][i], ... */
  method SplitFrame<T>(x: array<T>, ptrs: seq<nat>, len: nat, i: nat) returns (fr: seq<T>)
    requires InBounds(ptrs, len, x.Length) && i < len
    ensures fr == Frame(x[..], ptrs, i)
  {
    fr := [];
    for j := 0 to |ptrs|
      invariant |fr| == j
      invariant forall c :: 0 <= c < j ==> fr[c] == x[ptrs[c] + i]
    {
      fr := fr + [x[ptrs[j] + i]];
    }
  }

  /** The split case: frames 0 .. len-1, each gathered across the channel
      pointers. */
  method InterleaveSplit<T>(x: array<T>, ptrs: seq<nat>, len: nat) returns (z: seq<T>)
    requires InBounds(ptrs, len, x.Length)
    ensures z == Interleave(Split, x[..], ptrs, |ptrs|, len)
  {
    z := [];
    for i := 0 to len
      invariant z == GatherUpTo(x[..], ptrs, len, i)
    {
      var fr := SplitFrame(x, ptrs, len, i);
      z := z + fr;
    }
  }
}
