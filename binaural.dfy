/** binaural_compute (tinywav.c): the filter angle and the block-by-block
    convolution of a stereo signal with a left and a right impulse
    response. */
module Binaural {
  import opened LittleEndian
  import opened Wav
  import opened Fir

  // -----------------------------------------------------------------------
  // The filter angle

  /** C's `a % 360` on int: the quotient is truncated toward zero, so the
      remainder has the sign of the dividend. */
  function CRem360(a: int): (r: int)
    ensures a >= 0 ==> 0 <= r < 360
    ensures a < 0 ==> -360 < r <= 0
    ensures (a - r) % 360 == 0
  {
    if a >= 0 then a % 360 else -((-a) % 360)
  }

  /** round(a / b) for an exact quotient: the nearest integer, halves away
      from zero. */
  function RoundDiv(a: int, b: int): (r: int)
    requires b > 0
    ensures a >= 0 ==> r >= 0
    ensures a < 0 ==> r <= 0
  {
    if a >= 0 then (2 * a + b) / (2 * b) else -((2 * -a + b) / (2 * b))
  }

  /** The multiple of 30 degrees nearest to `degrees`, reduced with C's `%`
      by 360. */
  function SnapAngle(degrees: int): (r: int)
    ensures r % 30 == 0 && -360 < r < 360
    ensures degrees < 0 ==> r <= 0
    ensures degrees >= 0 ==> r >= 0
  {
    var m := RoundDiv(degrees, 30) * 30;
    assert m % 30 == 0;
    CRem360(m)
  }

  function Abs(a: int): nat
  {
    if a >= 0 then a else -a
  }

  /** RoundDiv(a, 30) is a nearest integer to a / 30, and of two nearest
      ones the one further from zero. */
  lemma RoundDivNearest(a: int)
    ensures var s := RoundDiv(a, 30);
            2 * Abs(a - 30 * s) <= 30
            && (2 * Abs(a - 30 * s) == 30 ==> Abs(30 * s) > Abs(a))
  {
  }

  /** The snapped angle is congruent modulo 360 to a multiple of 30
      nearest to `degrees`, of two nearest ones the one further from zero. */
  lemma SnapAngleSpec(degrees: int)
    ensures var r := SnapAngle(degrees);
            var s := RoundDiv(degrees, 30);
            (30 * s - r) % 360 == 0
            && 2 * Abs(degrees - 30 * s) <= 30
            && (2 * Abs(degrees - 30 * s) == 30 ==> Abs(30 * s) > Abs(degrees))
  {
    RoundDivNearest(degrees);
    var m := RoundDiv(degrees, 30) * 30;
    assert (m - SnapAngle(degrees)) % 360 == 0;
  }

  /** A negative angle selects a negative filter angle. */
  lemma SnapNegativeAngle()
    ensures SnapAngle(-100) == -90
  {
  }

  // -----------------------------------------------------------------------
  // The block protocol

  /** CONVOLVE_BLOCK_SIZE: frames read and convolved per block. */
  const BlockSize: nat := 512

  /** The cache holds the History samples of x that precede frame pos,
      silence before the start of x. */
  ghost predicate Holds(cache: array<real>, x: seq<real>, pos: nat)
    reads cache
  {
    cache.Length == History && forall k :: 0 <= k < History ==> cache[k] == At(x, pos - History + k)
  }

  /** The frames produced so far are the filter's output for the first
      |out| frames of x. */
  ghost predicate Filtered(out: seq<real>, filter: seq<real>, x: seq<real>)
    requires |filter| == FilterSize
  {
    forall n :: 0 <= n < |out| ==> out[n] == Response(filter, x, n)
  }

  /** The first two steps of a block: the cached history is copied to the
      front of the channel's buffer and tinywav_read_f stores the next `len`
      frames of the channel behind it, so the buffer holds the signal from
      frame pos - History on. */
  method LoadBlock(x: seq<real>, pos: nat, len: nat, cache: array<real>, samples: array<real>)
    requires len <= BlockSize && pos + len <= |x| && samples.Length == BlockSize + History
    requires cache != samples && Holds(cache, x, pos)
    modifies samples
    ensures forall k :: 0 <= k < History + len ==> samples[k] == At(x, pos - History + k)
  {
    CopyArray(samples, cache, 0, 0, History);
    assert forall k :: 0 <= k < History ==> samples[k] == cache[k];
    for j := 0 to len
      invariant forall k :: 0 <= k < History + j ==> samples[k] == At(x, pos - History + k)
    {
      samples[History + j] := x[pos + j];
    }
  }

  /** One block of one channel, as binaural_compute handles every block
      after the first: the cached history is prepended, the next `len`
      frames are read behind it, the cache is refreshed from the tail of
      the extended buffer, and the new frames are convolved. The frames
      handed to tinywav_write_f extend `out`, the output so far, by the
      filter's output for frames pos .. pos + len - 1 of the whole signal,
      and the cache then holds the history for frame pos + len. */
  method ProcessBlock(filter: seq<real>, x: seq<real>, pos: nat, len: nat,
                      cache: array<real>, samples: array<real>, sampleOut: array<real>, out: seq<real>)
    returns (out': seq<real>)
    requires |filter| == FilterSize && len <= BlockSize && pos + len <= |x|
    requires samples.Length == BlockSize + History && sampleOut.Length == BlockSize + History
    requires cache != samples && cache != sampleOut && samples != sampleOut
    requires Holds(cache, x, pos)
    requires Filtered(out, filter, x) && |out| == pos
    modifies cache, samples, sampleOut
    ensures Filtered(out', filter, x) && |out'| == pos + len
    ensures Holds(cache, x, pos + len)
  {
    LoadBlock(x, pos, len, cache, samples);
    CopyArray(cache, samples, 0, len, History);
    assert forall k :: 0 <= k < History ==> cache[k] == samples[len + k];
    Conv32(filter, samples, sampleOut, History, len);
    var block := sampleOut[History..History + len];
    forall p | 0 <= p < len
      ensures block[p] == Response(filter, x, pos + p)
    {
      DotShift(filter, samples[..], x, History + p, pos - History, FilterSize);
    }
    out' := out + block;
  }

  /** Block i of ceil(total / CONVOLVE_BLOCK_SIZE) starts inside the
      signal; every block but the last is full, and the last one reaches the
      end. */
  lemma BlockCount(total: nat, i: nat)
    requires i < (total + BlockSize - 1) / BlockSize
    ensures i * BlockSize < total
    ensures i + 1 < (total + BlockSize - 1) / BlockSize ==> (i + 1) * BlockSize < total
    ensures i + 1 == (total + BlockSize - 1) / BlockSize ==> total <= (i + 1) * BlockSize
  {
  }

  /** binaural_compute's loop over blocks, for the left and right channels
      of the input and the left and right filters:
      ceil(frames / CONVOLVE_BLOCK_SIZE) blocks, each of at most
      CONVOLVE_BLOCK_SIZE frames, the cache starting as silence. The
      concatenated output blocks are the whole-signal convolution of each
      channel with its filter, from silence. */
  method BinauralCompute(filterL: seq<real>, filterR: seq<real>, left: seq<real>, right: seq<real>)
    returns (outL: seq<real>, outR: seq<real>)
    requires |filterL| == FilterSize && |filterR| == FilterSize
    requires |left| == |right|
    ensures |outL| == |left| && |outR| == |right|
    ensures Filtered(outL, filterL, left) && Filtered(outR, filterR, right)
  {
    var cacheL := new real[History](_ => 0.0);
    var cacheR := new real[History](_ => 0.0);
    var samples := new real[BlockSize + History](_ => 0.0);
    var sampleOut := new real[BlockSize + History](_ => 0.0);
    var total := |left|;
    var iteration := (total + BlockSize - 1) / BlockSize;
    var dataLeft := total;
    var pos := 0;
    outL, outR := [], [];
    for i := 0 to iteration
      invariant pos + dataLeft == total
      invariant i < iteration ==> pos == i * BlockSize
      invariant i == iteration ==> pos == total
      invariant |outL| == pos && |outR| == pos
      invariant Filtered(outL, filterL, left) && Filtered(outR, filterR, right)
      invariant Holds(cacheL, left, pos) && Holds(cacheR, right, pos)
    {
      BlockCount(total, i);
      var len := if dataLeft < BlockSize then dataLeft else BlockSize;
      outL := ProcessBlock(filterL, left, pos, len, cacheL, samples, sampleOut, outL);
      outR := ProcessBlock(filterR, right, pos, len, cacheR, samples, sampleOut, outR);
      pos, dataLeft := pos + len, dataLeft - len;
    }
  }

  // -----------------------------------------------------------------------
  // The loop as written

  /** Output p of the first block as binaural_compute computes it: conv_32
      from start 0 over the channel's buffer, whose taps before the buffer
      read the History values `before` that precede it in memory. */
  function FirstBlockAsWritten(filter: seq<real>, before: seq<real>, block: seq<real>, p: nat): real
    requires |filter| == FilterSize && |before| == History && p < |block|
  {
    Response(filter, before + block, History + p)
  }

  /** Were the memory before the buffer silence, the first block would be
      right. */
  lemma FirstBlockAfterSilence(filter: seq<real>, before: seq<real>, block: seq<real>, p: nat)
    requires |filter| == FilterSize && |before| == History && p < |block|
    requires forall k :: 0 <= k < History ==> before[k] == 0.0
    ensures FirstBlockAsWritten(filter, before, block, p) == Response(filter, block, p)
  {
    DotShift(filter, before + block, block, History + p, -(History as int), FilterSize);
  }

  /** It is not: with a one-sample delay filter and a non-zero value just
      before the buffer, the first output of a silent block is that value. */
  lemma FirstBlockReadsBeforeBuffer(before: seq<real>)
    requires |before| == History && before[History - 1] == 1.0
    ensures FirstBlockAsWritten(UnitTap(1), before, [0.0], 0) == 1.0
    ensures Response(UnitTap(1), [0.0], 0) == 0.0
  {
    DotUnitTap(1, before + [0.0], History, FilterSize);
    DotUnitTap(1, [0.0], 0, FilterSize);
  }

  /** data_size as binaural_compute computes it: Subchunk2Size over the
      size of a float, the number of samples of all channels together. */
  function DataSizeAsWritten(subchunk2Size: uint32): (r: nat)
    ensures r * 4 <= subchunk2Size < (r + 1) * 4
  {
    subchunk2Size / 4
  }

  /** For a stereo float32 file of `frames` frames, data_size is twice the
      frame count tinywav_open_read declares, so the block loop runs over
      twice as many frames as the file holds. */
  lemma DataSizeCountsSamples(frames: nat)
    requires 8 * frames < 0x1_0000_0000
    ensures DataSizeAsWritten(8 * frames) == 2 * frames
    ensures FramesInHeader(8 * frames, 2, Float32) == frames
  {
  }
}
