/** The direct-form FIR filter of the binaural renderer: copy_array_f and
    conv_32 (tinywav.c), over real-valued samples. */
module Fir {
  /** FILTER_SIZE: taps per head-related impulse response. */
  const FilterSize: nat := 256

  /** FILTER_SIZE - 1: the input history one output sample depends on. */
  const History: nat := FilterSize - 1

  /** Sample k of a signal that is silent before its start and after its
      end. */
  function At(x: seq<real>, k: int): real
  {
    if 0 <= k < |x| then x[k] else 0.0
  }

  /** The first m terms of the FIR sum for output i, in the order conv_32
      accumulates them: filter[j] * x[i - j] for j = 0 .. m - 1. */
  function Dot(filter: seq<real>, x: seq<real>, i: int, m: nat): (r: real)
    requires m <= |filter|
    ensures (forall k :: i - m < k <= i ==> At(x, k) == 0.0) ==> r == 0.0
  {
    if m == 0 then 0.0 else Dot(filter, x, i, m - 1) + filter[m - 1] * At(x, i - (m - 1))
  }

  /** Output i of the filter applied to x: the sum over all FILTER_SIZE
      taps, with silence before x[0]. */
  function Response(filter: seq<real>, x: seq<real>, i: int): (r: real)
    requires |filter| == FilterSize
    ensures i < 0 || i >= |x| + History ==> r == 0.0
  {
    Dot(filter, x, i, FilterSize)
  }

  /** The FIR sum only looks at the last m samples up to i: two signals
      that agree there (up to a shift d) give the same sum. */
  lemma {:induction false} DotShift(filter: seq<real>, x: seq<real>, y: seq<real>, i: int, d: int, m: nat)
    requires m <= |filter|
    requires forall k :: i - m < k <= i ==> At(x, k) == At(y, k + d)
    ensures Dot(filter, x, i, m) == Dot(filter, y, i + d, m)
  {
    if m > 0 {
      DotShift(filter, x, y, i, d, m - 1);
      assert At(x, i - (m - 1)) == At(y, i - (m - 1) + d);
    }
  }

  /** The filter with a single unit tap at t: its output is the input
      delayed by t samples. */
  function UnitTap(t: nat): (r: seq<real>)
    requires t < FilterSize
    ensures |r| == FilterSize && r[t] == 1.0
    ensures forall j :: 0 <= j < FilterSize && j != t ==> r[j] == 0.0
  {
    seq(FilterSize, j => if j == t then 1.0 else 0.0)
  }

  lemma {:induction false} DotUnitTap(t: nat, x: seq<real>, i: int, m: nat)
    requires t < FilterSize && m <= FilterSize
    ensures Dot(UnitTap(t), x, i, m) == if t < m then At(x, i - t) else 0.0
  {
    if m > 0 {
      DotUnitTap(t, x, i, m - 1);
    }
  }

  /** copy_array_f: dest[destOffset + i] := src[srcOffset + i] for
      i < length; nothing else of dest changes, and nothing is copied when
      length is not positive. */
  method CopyArray(dest: array<real>, src: array<real>, destOffset: int, srcOffset: int, length: int)
    requires dest != src
    requires length > 0 ==> 0 <= destOffset && destOffset + length <= dest.Length
    requires length > 0 ==> 0 <= srcOffset && srcOffset + length <= src.Length
    modifies dest
    ensures length > 0 ==>
              dest[..] == old(dest[..destOffset]) + src[srcOffset..srcOffset + length]
                          + old(dest[destOffset + length..])
    ensures length <= 0 ==> dest[..] == old(dest[..])
  {
    for i := 0 to if length > 0 then length else 0
      invariant forall q :: 0 <= q < dest.Length ==>
                  dest[q] == if destOffset <= q < destOffset + i then src[srcOffset + q - destOffset] else old(dest[q])
    {
      dest[destOffset + i] := src[srcOffset + i];
    }
    if length > 0 {
      assert dest[..] == old(dest[..destOffset]) + src[srcOffset..srcOffset + length]
                         + old(dest[destOffset + length..]);
    }
  }

  /** The inner loop of conv_32: output[i] is cleared, then each tap's
      product is added to it in turn. */
  method ConvAt(filter: seq<real>, audio: array<real>, output: array<real>, i: nat)
    requires |filter| == FilterSize && output != audio
    requires History <= i < audio.Length && i < output.Length
    modifies output
    ensures output[i] == Response(filter, audio[..], i)
    ensures forall q :: 0 <= q < output.Length && q != i ==> output[q] == old(output[q])
  {
    output[i] := 0.0;
    for j := 0 to FilterSize
      invariant output[i] == Dot(filter, audio[..], i, j)
      invariant forall q :: 0 <= q < output.Length && q != i ==> output[q] == old(output[q])
    {
      output[i] := output[i] + filter[j] * audio[i - j];
    }
  }

  /** conv_32: outputs start .. start + len - 1 are computed from the
      FILTER_SIZE samples of `audio` ending at each of them; no other output
      changes. The history before `start` must lie inside `audio`. The
      filter, which conv_32 only reads, is passed as a value. */
  method Conv32(filter: seq<real>, audio: array<real>, output: array<real>, start: nat, len: nat)
    requires |filter| == FilterSize
    requires output != audio
    requires History <= start && start + len <= audio.Length && start + len <= output.Length
    modifies output
    ensures forall i :: start <= i < start + len ==> output[i] == Response(filter, audio[..], i)
    ensures forall i :: 0 <= i < output.Length && !(start <= i < start + len) ==> output[i] == old(output[i])
  {
    for i := start to start + len
      invariant forall q :: start <= q < i ==> output[q] == Response(filter, audio[..], q)
      invariant forall q :: 0 <= q < output.Length && !(start <= q < i) ==> output[q] == old(output[q])
    {
      ConvAt(filter, audio, output, i);
    }
  }
}
