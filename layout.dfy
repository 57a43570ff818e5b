/** Channel layouts of the caller's sample buffers.

    On disk, samples are interleaved: frame t, channel c is element
    t * C + c. The caller's buffer has one of three layouts:
    interleaved (the same order), inline (one buffer, channel c's samples
    contiguous from c * frames) or split (an array of per-channel pointers).
    In the C code the split pointers always point into one array, so a split
    buffer is modelled as one sequence plus the offset of each channel's
    pointer; inline is the split layout whose offsets are 0, frames,
    2 * frames, ... The element type is generic: the layouts only move
    samples around. */
module Layout {
  import opened Wav

  lemma FrameIndexBound(t: nat, c: nat, frames: nat, channels: nat)
    requires t < frames && c < channels
    ensures t * channels + c < frames * channels
  {
    assert t * channels + c < t * channels + channels == (t + 1) * channels;
    assert (t + 1) * channels <= frames * channels;
  }

  lemma MulMonotone(a: nat, b: nat, c: nat)
    requires a <= b
    ensures a * c <= b * c
  {
  }

  lemma MulDivCancel(a: nat, b: nat)
    requires b >= 1
    ensures (a * b) / b == a
  {
    MulMonotone(0, a, b);
    var q := (a * b) / b;
    if q < a {
      MulMonotone(q + 1, a, b);
    } else if q > a {
      MulMonotone(a + 1, q, b);
    }
  }

  /** Channel offsets of the inline layout. */
  function InlinePtrs(channels: nat, frames: nat): (p: seq<nat>)
    ensures |p| == channels
    ensures forall c :: 0 <= c < channels ==> p[c] == c * frames
  {
    seq(channels, c requires 0 <= c < channels => c * frames)
  }

  /** Every channel region [ptrs[c], ptrs[c] + frames) lies inside a buffer
      of length `len`. */
  ghost predicate InBounds(ptrs: seq<nat>, frames: nat, len: nat)
  {
    forall c :: 0 <= c < |ptrs| ==> ptrs[c] + frames <= len
  }

  /** No two channel regions overlap. */
  ghost predicate Disjoint(ptrs: seq<nat>, frames: nat)
  {
    forall c, d :: 0 <= c < d < |ptrs| ==> ptrs[c] + frames <= ptrs[d] || ptrs[d] + frames <= ptrs[c]
  }

  lemma {:induction false} InlinePtrsFit(channels: nat, frames: nat)
    ensures InBounds(InlinePtrs(channels, frames), frames, channels * frames)
    ensures Disjoint(InlinePtrs(channels, frames), frames)
  {
    var p := InlinePtrs(channels, frames);
    forall c | 0 <= c < channels
      ensures p[c] + frames <= channels * frames
    {
      MulMonotone(c + 1, channels, frames);
    }
    forall c, d | 0 <= c < d < channels
      ensures p[c] + frames <= p[d]
    {
      MulMonotone(c + 1, d, frames);
    }
  }

  // -----------------------------------------------------------------------
  // Reading: interleaved samples to the caller's layout

  /** The samples of channel c among the first `frames` frames of the
      interleaved block z. */
  function ChannelOf<T>(z: seq<T>, channels: nat, frames: nat, c: nat): (r: seq<T>)
    requires c < channels && frames * channels <= |z|
    ensures |r| == frames
  {
    seq(frames, t requires 0 <= t < frames =>
      FrameIndexBound(t, c, frames, channels); z[t * channels + c])
  }

  /** Buffer `a` after channel c is stored from offset p: the inner loop of
      the inline and split cases of tinywav_read_f. */
  function StoreChannel<T>(a: seq<T>, z: seq<T>, channels: nat, frames: nat, c: nat, p: nat): (r: seq<T>)
    requires c < channels && frames * channels <= |z| && p + frames <= |a|
    ensures |r| == |a|
  {
    a[..p] + ChannelOf(z, channels, frames, c) + a[p + frames..]
  }

  /** Buffer `a` after channels 0 .. k-1 are stored at their offsets. */
  function ScatterUpTo<T>(a: seq<T>, z: seq<T>, ptrs: seq<nat>, frames: nat, k: nat): (r: seq<T>)
    requires k <= |ptrs| && frames * |ptrs| <= |z| && InBounds(ptrs, frames, |a|)
    ensures |r| == |a|
  {
    if k == 0 then a
    else StoreChannel(ScatterUpTo(a, z, ptrs, frames, k - 1), z, |ptrs|, frames, k - 1, ptrs[k - 1])
  }

  /** The caller's buffer after the interleaved block z of `frames` frames
      is de-interleaved into the channel regions at `ptrs`. */
  function Scatter<T>(a: seq<T>, z: seq<T>, ptrs: seq<nat>, frames: nat): (r: seq<T>)
    requires frames * |ptrs| <= |z| && InBounds(ptrs, frames, |a|)
    ensures |r| == |a|
  {
    ScatterUpTo(a, z, ptrs, frames, |ptrs|)
  }

  /** With disjoint regions, frame t of channel c lands at ptrs[c] + t. */
  lemma {:induction false} ScatterUpToAt<T>(a: seq<T>, z: seq<T>, ptrs: seq<nat>, frames: nat, k: nat, c: nat, t: nat)
    requires k <= |ptrs| && frames * |ptrs| <= |z| && InBounds(ptrs, frames, |a|)
    requires Disjoint(ptrs, frames)
    requires c < k && t < frames
    ensures t * |ptrs| + c < |z|
    ensures ScatterUpTo(a, z, ptrs, frames, k)[ptrs[c] + t] == z[t * |ptrs| + c]
  {
    FrameIndexBound(t, c, frames, |ptrs|);
    if c < k - 1 {
      ScatterUpToAt(a, z, ptrs, frames, k - 1, c, t);
    }
  }

  /** A position outside every channel region keeps its old value. */
  lemma {:induction false} ScatterUpToElsewhere<T>(a: seq<T>, z: seq<T>, ptrs: seq<nat>, frames: nat, k: nat, q: nat)
    requires k <= |ptrs| && frames * |ptrs| <= |z| && InBounds(ptrs, frames, |a|)
    requires q < |a|
    requires forall c :: 0 <= c < k ==> q < ptrs[c] || ptrs[c] + frames <= q
    ensures ScatterUpTo(a, z, ptrs, frames, k)[q] == a[q]
  {
    if k > 0 {
      ScatterUpToElsewhere(a, z, ptrs, frames, k - 1, q);
    }
  }

  lemma ScatterAt<T>(a: seq<T>, z: seq<T>, ptrs: seq<nat>, frames: nat, c: nat, t: nat)
    requires frames * |ptrs| <= |z| && InBounds(ptrs, frames, |a|) && Disjoint(ptrs, frames)
    requires c < |ptrs| && t < frames
    ensures t * |ptrs| + c < |z|
    ensures Scatter(a, z, ptrs, frames)[ptrs[c] + t] == z[t * |ptrs| + c]
  {
    ScatterUpToAt(a, z, ptrs, frames, |ptrs|, c, t);
  }

  // -----------------------------------------------------------------------
  // Writing: the caller's layout to interleaved samples

  /** Frame t read from the channel regions at `ptrs`: the inner loop of
      the inline and split cases of tinywav_write_f. */
  function Frame<T>(a: seq<T>, ptrs: seq<nat>, t: nat): (r: seq<T>)
    requires forall c :: 0 <= c < |ptrs| ==> ptrs[c] + t < |a|
    ensures |r| == |ptrs|
  {
    seq(|ptrs|, c requires 0 <= c < |ptrs| => a[ptrs[c] + t])
  }

  /** Frames 0 .. k-1 gathered into interleaved order. */
  function GatherUpTo<T>(a: seq<T>, ptrs: seq<nat>, frames: nat, k: nat): (r: seq<T>)
    requires k <= frames && InBounds(ptrs, frames, |a|)
    ensures |r| == k * |ptrs|
  {
    if k == 0 then []
    else
      var r := GatherUpTo(a, ptrs, frames, k - 1) + Frame(a, ptrs, k - 1);
      assert |r| == (k - 1) * |ptrs| + |ptrs| == k * |ptrs|;
      r
  }

  /** The interleaved block that `frames` frames of the channel regions at
      `ptrs` make. */
  function Gather<T>(a: seq<T>, ptrs: seq<nat>, frames: nat): (r: seq<T>)
    requires InBounds(ptrs, frames, |a|)
    ensures |r| == frames * |ptrs|
  {
    GatherUpTo(a, ptrs, frames, frames)
  }

  /** Sample t * C + c of the gathered block is frame t of channel c. */
  lemma {:induction false} GatherUpToAt<T>(a: seq<T>, ptrs: seq<nat>, frames: nat, k: nat, c: nat, t: nat)
    requires k <= frames && InBounds(ptrs, frames, |a|)
    requires c < |ptrs| && t < k
    ensures t * |ptrs| + c < k * |ptrs|
    ensures GatherUpTo(a, ptrs, frames, k)[t * |ptrs| + c] == a[ptrs[c] + t]
  {
    FrameIndexBound(t, c, k, |ptrs|);
    if t < k - 1 {
      GatherUpToAt(a, ptrs, frames, k - 1, c, t);
      FrameIndexBound(t, c, k - 1, |ptrs|);
    }
  }

  // -----------------------------------------------------------------------
  // Round trips

  /** De-interleaving a block into disjoint channel regions and gathering
      it back gives the block: read after write in the same layout is the
      identity. */
  lemma {:induction false} GatherScatter<T>(a: seq<T>, z: seq<T>, ptrs: seq<nat>, frames: nat)
    requires |z| == frames * |ptrs| && InBounds(ptrs, frames, |a|) && Disjoint(ptrs, frames)
    ensures Gather(Scatter(a, z, ptrs, frames), ptrs, frames) == z
  {
    var s := Scatter(a, z, ptrs, frames);
    var C := |ptrs|;
    var k := 0;
    while k < frames
      invariant k <= frames
      invariant k * C <= |z|
      invariant GatherUpTo(s, ptrs, frames, k) == z[..k * C]
    {
      var lo, hi := k * C, (k + 1) * C;
      assert hi == lo + C;
      MulMonotone(k + 1, frames, C);
      var f := Frame(s, ptrs, k);
      forall c | 0 <= c < C
        ensures f[c] == z[lo + c]
      {
        ScatterAt(a, z, ptrs, frames, c, k);
      }
      assert f == z[lo..hi];
      assert GatherUpTo(s, ptrs, frames, k + 1) == z[..lo] + f;
      assert z[..hi] == z[..lo] + z[lo..hi];
      k := k + 1;
    }
  }

  /** Gathering frames out of the channel regions and storing them back
      leaves the buffer as it was. */
  lemma {:induction false} ScatterGather<T>(a: seq<T>, ptrs: seq<nat>, frames: nat)
    requires InBounds(ptrs, frames, |a|) && Disjoint(ptrs, frames)
    ensures Scatter(a, Gather(a, ptrs, frames), ptrs, frames) == a
  {
    var z := Gather(a, ptrs, frames);
    var s := Scatter(a, z, ptrs, frames);
    forall q | 0 <= q < |a|
      ensures s[q] == a[q]
    {
      if c :| 0 <= c < |ptrs| && ptrs[c] <= q < ptrs[c] + frames {
        var t := q - ptrs[c];
        ScatterAt(a, z, ptrs, frames, c, t);
        GatherUpToAt(a, ptrs, frames, frames, c, t);
      } else {
        ScatterUpToElsewhere(a, z, ptrs, frames, |ptrs|, q);
      }
    }
  }

  // -----------------------------------------------------------------------
  // The three channel formats

  /** A caller buffer of length n holds `frames` frames of `channels`
      channels in format `fmt` (for split, one offset per channel). */
  ghost predicate BufferFits(fmt: ChannelFormat, n: nat, ptrs: seq<nat>, channels: nat, frames: nat)
  {
    match fmt
    case Interleaved => channels * frames <= n
    case Inline => channels * frames <= n
    case Split => |ptrs| == channels && InBounds(ptrs, frames, n)
  }

  /** Split channel regions do not overlap (inline ones never do). */
  ghost predicate Separate(fmt: ChannelFormat, ptrs: seq<nat>, frames: nat)
  {
    fmt == Split ==> Disjoint(ptrs, frames)
  }

  lemma InlineFits(channels: nat, frames: nat, n: nat)
    requires channels * frames <= n
    ensures InBounds(InlinePtrs(channels, frames), frames, n)
    ensures Disjoint(InlinePtrs(channels, frames), frames)
  {
    InlinePtrsFit(channels, frames);
  }

  /** The caller's buffer `a` after tinywav_read_f stores the first
      `frames` frames of the interleaved block z in format `fmt`. */
  function Deliver<T>(fmt: ChannelFormat, a: seq<T>, z: seq<T>, ptrs: seq<nat>, channels: nat, frames: nat): (r: seq<T>)
    requires channels * frames <= |z| && BufferFits(fmt, |a|, ptrs, channels, frames)
    ensures |r| == |a|
  {
    match fmt
    case Interleaved => z[..channels * frames] + a[channels * frames..]
    case Inline =>
      InlineFits(channels, frames, |a|);
      Scatter(a, z, InlinePtrs(channels, frames), frames)
    case Split => Scatter(a, z, ptrs, frames)
  }

  /** The interleaved block tinywav_write_f makes of `frames` frames of the
      caller's buffer `a` in format `fmt`. */
  function Interleave<T>(fmt: ChannelFormat, a: seq<T>, ptrs: seq<nat>, channels: nat, frames: nat): (r: seq<T>)
    requires BufferFits(fmt, |a|, ptrs, channels, frames)
    ensures |r| == channels * frames
  {
    match fmt
    case Interleaved => a[..channels * frames]
    case Inline =>
      InlineFits(channels, frames, |a|);
      Gather(a, InlinePtrs(channels, frames), frames)
    case Split => Gather(a, ptrs, frames)
  }

  /** Delivering a block and interleaving the same frames again gives the
      block back, in every channel format. */
  lemma {:induction false} InterleaveDeliver<T>(fmt: ChannelFormat, a: seq<T>, z: seq<T>, ptrs: seq<nat>,
                                                 channels: nat, frames: nat)
    requires |z| == channels * frames && BufferFits(fmt, |a|, ptrs, channels, frames)
    requires Separate(fmt, ptrs, frames)
    ensures Interleave(fmt, Deliver(fmt, a, z, ptrs, channels, frames), ptrs, channels, frames) == z
  {
    match fmt
    case Interleaved =>
    case Inline =>
      InlineFits(channels, frames, |a|);
      GatherScatter(a, z, InlinePtrs(channels, frames), frames);
    case Split =>
      GatherScatter(a, z, ptrs, frames);
  }

  /** Interleaving frames of a buffer and delivering them back into the
      same buffer leaves it unchanged. */
  lemma {:induction false} DeliverInterleave<T>(fmt: ChannelFormat, a: seq<T>, ptrs: seq<nat>,
                                                 channels: nat, frames: nat)
    requires BufferFits(fmt, |a|, ptrs, channels, frames) && Separate(fmt, ptrs, frames)
    ensures Deliver(fmt, a, Interleave(fmt, a, ptrs, channels, frames), ptrs, channels, frames) == a
  {
    match fmt
    case Interleaved =>
    case Inline =>
      InlineFits(channels, frames, |a|);
      ScatterGather(a, InlinePtrs(channels, frames), frames);
    case Split =>
      ScatterGather(a, ptrs, frames);
  }
}
