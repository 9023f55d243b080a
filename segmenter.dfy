/** Segmenter and RMS extractor of the seven-probe engine
    (MainForm.AnalogInCallback): from the anchor it walks right in
    400-sample batches, collects the right-hand tail in 50-sample chunks,
    walks left in 400-sample batches from 200 samples before the anchor,
    collects the left-hand tail, merges the two tails into the "split"
    reading, and lays the readings out as
    forward ++ [split] ++ reverse(backward). */
module Segmenter {
  import opened Rms
  import FrameLocator

  const HBatchLength: int := 400
  const CutoffLeft: int := 150
  const CutoffRight: int := 50
  /** Samples summed per batch; also the divisor of every batch mean. */
  const UsableLength: int := HBatchLength - CutoffLeft - CutoffRight
  /** Chunk size of the two tails. */
  const SplitChunk: int := 50

  /** RMS of the primary and of the reference channel over one segment. */
  datatype ChannelRms = ChannelRms(primary: real, reference: real)

  /** The list reversal of the source's List.Reverse. */
  function Reverse<T>(s: seq<T>): (r: seq<T>)
    ensures |r| == |s|
    ensures forall k :: 0 <= k < |s| ==> r[k] == s[|s| - 1 - k]
  {
    if s == [] then [] else Reverse(s[1..]) + [s[0]]
  }

  // ---------------------------------------------------------------- readings

  /** No segment has a zero reference RMS (needed where a ratio is taken). */
  predicate NonZeroReferences(rs: seq<ChannelRms>)
  {
    forall k :: 0 <= k < |rs| ==> rs[k].reference != 0.0
  }

  /** The per-probe scalar: raw primary RMS in voltage mode, else the
      primary/reference ratio (impedance). */
  function Reading(r: ChannelRms, useRms: bool): real
    requires useRms || r.reference != 0.0
  {
    if useRms then r.primary else r.primary / r.reference
  }

  function Readings(rs: seq<ChannelRms>, useRms: bool): (out: seq<real>)
    requires useRms || NonZeroReferences(rs)
    ensures |out| == |rs|
    ensures forall k :: 0 <= k < |rs| ==> out[k] == Reading(rs[k], useRms)
  {
    seq(|rs|, k requires 0 <= k < |rs| => Reading(rs[k], useRms))
  }

  // ----------------------------------------------------------------- batches

  /** One batch: both channels' sums of squares over [lo, hi), each divided by
      UsableLength, then square-rooted. */
  function BatchRms(p: seq<real>, c: seq<real>, lo: int, hi: int): ChannelRms
    requires |p| == |c| && 0 <= lo <= hi <= |p|
  {
    ChannelRms(Sqrt(SumSquares(p, lo, hi) / UsableLength as real),
               Sqrt(SumSquares(c, lo, hi) / UsableLength as real))
  }

  /** Number of forward batches from anchor a: the loop runs while a + 400 <= n. */
  function ForwardCount(n: int, a: int): (k: nat)
    ensures a + HBatchLength * k + HBatchLength > n
    ensures k > 0 ==> a + HBatchLength * k <= n
  {
    if a + HBatchLength <= n then (n - a) / HBatchLength else 0
  }

  /** A half-open range [lo, hi) of sample indices that one stage sums. */
  datatype Window = Window(lo: int, hi: int)

  /** The window is empty, or lies inside a block of n samples. */
  predicate Inside(w: Window, n: int)
  {
    w.lo == w.hi || (0 <= w.lo <= w.hi <= n)
  }

  /** Forward batch k covers the segment [a + 400k, a + 400k + 400) and sums its
      usable interior [a + 400k + 150, a + 400k + 350). */
  function ForwardWindow(a: int, k: int): Window
  {
    Window(a + HBatchLength * k + CutoffLeft, a + HBatchLength * k + HBatchLength - CutoffRight)
  }

  function ForwardBatches(p: seq<real>, c: seq<real>, a: int): (bs: seq<ChannelRms>)
    requires |p| == |c| && a >= -1
    ensures |bs| == ForwardCount(|p|, a)
  {
    var n := ForwardCount(|p|, a);
    seq(n, k requires 0 <= k < n => BatchRms(p, c, ForwardWindow(a, k).lo, ForwardWindow(a, k).hi))
  }

  /** Number of backward batches from b: the loop runs while b > 400. */
  function BackwardCount(b: int): (k: nat)
    ensures b - HBatchLength * k <= HBatchLength
    ensures k > 0 ==> b - HBatchLength * (k - 1) > HBatchLength
  {
    if b > HBatchLength then (b - 1) / HBatchLength else 0
  }

  /** Backward batch k ends at e = b - 400k and sums (e - 250, e - 50], i.e.
      [e - 249, e - 49). */
  function BackwardWindow(b: int, k: int): Window
  {
    Window(b - HBatchLength * k - HBatchLength + CutoffLeft + 1, b - HBatchLength * k - CutoffRight + 1)
  }

  function BackwardBatches(p: seq<real>, c: seq<real>, b: int): (bs: seq<ChannelRms>)
    requires |p| == |c| && b <= |p|
    ensures |bs| == BackwardCount(b)
  {
    var n := BackwardCount(b);
    seq(n, k requires 0 <= k < n => BatchRms(p, c, BackwardWindow(b, k).lo, BackwardWindow(b, k).hi))
  }

  /** Every batch sums exactly UsableLength samples, so the divisor is the
      window length and each batch is the RMS of its window; forward windows
      are [start + 150, end - 50) of their segment. */
  lemma ForwardBatchIsWindowRms(p: seq<real>, c: seq<real>, a: int, k: int)
    requires |p| == |c| && a >= -1 && 0 <= k < ForwardCount(|p|, a)
    ensures var lo := a + HBatchLength * k + CutoffLeft;
      0 <= lo && lo + UsableLength <= |p| &&
      ForwardBatches(p, c, a)[k] ==
        ChannelRms(Sqrt(MeanSquare(p, lo, lo + UsableLength)), Sqrt(MeanSquare(c, lo, lo + UsableLength)))
  {
  }

  /** Backward windows have UsableLength samples too: (end - 250, end - 50]. */
  lemma BackwardBatchIsWindowRms(p: seq<real>, c: seq<real>, b: int, k: int)
    requires |p| == |c| && b <= |p| && 0 <= k < BackwardCount(b)
    ensures var hi := b - HBatchLength * k - CutoffRight + 1;
      0 <= hi - UsableLength && hi <= |p| &&
      BackwardBatches(p, c, b)[k] ==
        ChannelRms(Sqrt(MeanSquare(p, hi - UsableLength, hi)), Sqrt(MeanSquare(c, hi - UsableLength, hi)))
  {
  }

  /** A forward batch whose usable window has constant amplitude |v| reports
      Sqrt(v^2) for the primary channel, which squares to at least v^2. */
  lemma ForwardBatchOfConstantAmplitude(p: seq<real>, c: seq<real>, a: int, k: int, v: real)
    requires |p| == |c| && a >= -1 && 0 <= k < ForwardCount(|p|, a)
    requires forall i :: a + HBatchLength * k + CutoffLeft <= i < a + HBatchLength * k + HBatchLength - CutoffRight ==>
      p[i] * p[i] == v * v
    ensures ForwardBatches(p, c, a)[k].primary == Sqrt(v * v)
    ensures v * v <= ForwardBatches(p, c, a)[k].primary * ForwardBatches(p, c, a)[k].primary
  {
    var lo := a + HBatchLength * k + CutoffLeft;
    ForwardBatchIsWindowRms(p, c, a, k);
    MeanSquareConstantAmplitude(p, lo, lo + UsableLength, v);
    SqrtSquaresAbove(MeanSquare(p, lo, lo + UsableLength), ForwardBatches(p, c, a)[k].primary);
  }

  // ------------------------------------------------------------------- tails

  /** Chunks in the right tail from t: taken while t < n - 50. */
  function RightTailCount(n: int, t: int): (m: nat)
    ensures t + SplitChunk * m >= n - SplitChunk
    ensures m > 0 ==> t + SplitChunk * (m - 1) < n - SplitChunk
  {
    if t < n - SplitChunk then (n - t - 1) / SplitChunk else 0
  }

  /** Chunks in the left tail ending at t: taken while t >= 50. */
  function LeftTailCount(t: int): (m: nat)
    ensures t - SplitChunk * m < SplitChunk
    ensures m > 0 ==> t - SplitChunk * (m - 1) >= SplitChunk
  {
    if t >= SplitChunk then t / SplitChunk else 0
  }

  /** A tail's RMS over [lo, hi): the mean of squares when some chunk was
      taken, else the square root of the untouched zero accumulator. */
  function TailRms(p: seq<real>, c: seq<real>, lo: int, hi: int): ChannelRms
    requires |p| == |c| && lo <= hi
    requires lo < hi ==> 0 <= lo && hi <= |p|
  {
    if lo == hi then ChannelRms(Sqrt(0.0), Sqrt(0.0))
    else ChannelRms(Sqrt(MeanSquare(p, lo, hi)), Sqrt(MeanSquare(c, lo, hi)))
  }

  /** x lies between u and v, in either order. */
  predicate Between(x: real, u: real, v: real)
  {
    (u <= x <= v) || (v <= x <= u)
  }

  /** Merge rule for the split segment: a zero right-tail primary RMS takes
      the left tail; otherwise a non-zero left-tail primary RMS averages the
      two, channel by channel; otherwise the right tail stays. */
  function MergeSplit(right: ChannelRms, left: ChannelRms): (m: ChannelRms)
    ensures right.primary == 0.0 ==> m == left
    ensures right.primary != 0.0 && left.primary == 0.0 ==> m == right
    ensures right.primary != 0.0 && left.primary != 0.0 ==>
      Between(m.primary, right.primary, left.primary) &&
      Between(m.reference, right.reference, left.reference) &&
      m.primary - right.primary == left.primary - m.primary &&
      m.reference - right.reference == left.reference - m.reference
  {
    if right.primary == 0.0 then left
    else if left.primary != 0.0 then
      ChannelRms((right.primary + left.primary) / 2.0, (right.reference + left.reference) / 2.0)
    else right
  }

  /** A tail with no chunk has RMS zero, so an empty right tail yields the
      left tail and an empty left tail keeps a non-zero right tail. */
  lemma MergeWithEmptyTail(p: seq<real>, c: seq<real>, t: int, other: ChannelRms)
    requires |p| == |c|
    ensures MergeSplit(TailRms(p, c, t, t), other) == other
    ensures other.primary != 0.0 ==> MergeSplit(other, TailRms(p, c, t, t)) == other
  {
  }

  /** The merge tests the right tail's RMS value, not its chunk count: a right
      tail of any length whose primary samples are all zero is replaced by
      the left tail. */
  lemma MergeTestsRmsNotCount(p: seq<real>, c: seq<real>, lo: int, hi: int, left: ChannelRms)
    requires |p| == |c| && 0 <= lo <= hi <= |p|
    requires forall i :: lo <= i < hi ==> p[i] == 0.0
    ensures MergeSplit(TailRms(p, c, lo, hi), left) == left
  {
    if lo < hi {
      MeanSquareConstantAmplitude(p, lo, hi, 0.0);
    }
  }

  // ------------------------------------------------------------------ layout

  /** Where the right tail starts: past the forward batches, plus CutoffLeft. */
  function RightTailStart(n: int, a: int): int
  {
    a + HBatchLength * ForwardCount(n, a) + CutoffLeft
  }

  /** Where the left tail ends: below the backward batches, minus CutoffRight. */
  function LeftTailEnd(b: int): int
  {
    b - HBatchLength * BackwardCount(b) - CutoffRight
  }

  /** The right tail of a block of n samples with anchor a: its 50-sample
      chunks from RightTailStart while they end before the last 50 samples. */
  function RightTailWindow(n: int, a: int): Window
  {
    var t := RightTailStart(n, a);
    Window(t, t + SplitChunk * RightTailCount(n, t))
  }

  /** The left tail below backward start b: its 50-sample chunks down from
      LeftTailEnd(b) while they stay at or above index 0. */
  function LeftTailWindow(b: int): Window
  {
    var e := LeftTailEnd(b);
    Window(e - SplitChunk * LeftTailCount(e), e)
  }

  function RightTailRms(p: seq<real>, c: seq<real>, a: int): ChannelRms
    requires |p| == |c| && -1 <= a
  {
    TailRms(p, c, RightTailWindow(|p|, a).lo, RightTailWindow(|p|, a).hi)
  }

  function LeftTailRms(p: seq<real>, c: seq<real>, b: int): ChannelRms
    requires |p| == |c| && b <= |p|
  {
    TailRms(p, c, LeftTailWindow(b).lo, LeftTailWindow(b).hi)
  }

  /** The merged split segment of a block with anchor a. */
  function SplitRms(p: seq<real>, c: seq<real>, a: int): ChannelRms
    requires |p| == |c| && -1 <= a < |p|
  {
    MergeSplit(RightTailRms(p, c, a), LeftTailRms(p, c, a - FrameLocator.SamplesControl))
  }

  /** All segments of a block with anchor a, in probe order. */
  function SegmentRms(p: seq<real>, c: seq<real>, a: int): seq<ChannelRms>
    requires |p| == |c| && -1 <= a < |p|
  {
    ForwardBatches(p, c, a) + [SplitRms(p, c, a)] +
      Reverse(BackwardBatches(p, c, a - FrameLocator.SamplesControl))
  }

  /** The layout: #forward + 1 + #backward segments; forward batches first in
      capture order, then the split segment, then the backward batches with
      the one nearest the anchor last. */
  lemma SegmentLayout(p: seq<real>, c: seq<real>, a: int, b: int)
    requires |p| == |c| && -1 <= a < |p| && b == a - FrameLocator.SamplesControl
    ensures var nf, nb := ForwardCount(|p|, a), BackwardCount(b);
      var s := SegmentRms(p, c, a);
      |s| == nf + 1 + nb &&
      (forall k :: 0 <= k < nf ==> s[k] == ForwardBatches(p, c, a)[k]) &&
      s[nf] == SplitRms(p, c, a) &&
      (forall k :: 0 <= k < nb ==> s[nf + nb - k] == BackwardBatches(p, c, b)[k])
  {
    var fwd, sp, bwd := ForwardBatches(p, c, a), SplitRms(p, c, a), BackwardBatches(p, c, b);
    assert SegmentRms(p, c, a) == fwd + [sp] + Reverse(bwd);
    Concatenation(fwd, sp, bwd);
  }

  /** The windows one block is cut into stay inside the block and never
      overlap. The point a + CutoffLeft separates the two sides: the forward
      windows and then the right tail lie at or above it, in increasing order;
      the backward windows, from the anchor outwards, and then the left tail
      lie below it, in decreasing order. */
  lemma SegmentWindows(n: int, a: int)
    requires -1 <= a < n
    ensures var nf := ForwardCount(n, a);
      (forall k :: 0 <= k < nf ==> Inside(ForwardWindow(a, k), n) && a + CutoffLeft <= ForwardWindow(a, k).lo) &&
      (forall j, k :: 0 <= j < k < nf ==> ForwardWindow(a, j).hi <= ForwardWindow(a, k).lo) &&
      Inside(RightTailWindow(n, a), n) && a + CutoffLeft <= RightTailWindow(n, a).lo &&
      (forall k :: 0 <= k < nf ==> ForwardWindow(a, k).hi <= RightTailWindow(n, a).lo)
    ensures var b := a - FrameLocator.SamplesControl;
      var nb := BackwardCount(b);
      (forall k :: 0 <= k < nb ==> Inside(BackwardWindow(b, k), n) && BackwardWindow(b, k).hi <= a + CutoffLeft) &&
      (forall j, k :: 0 <= j < k < nb ==> BackwardWindow(b, k).hi <= BackwardWindow(b, j).lo) &&
      Inside(LeftTailWindow(b), n) && LeftTailWindow(b).hi <= a + CutoffLeft &&
      (forall k :: 0 <= k < nb ==> LeftTailWindow(b).hi <= BackwardWindow(b, k).lo)
  {
  }

  /** Where each part lands in fwd ++ [x] ++ reverse(bwd). */
  lemma Concatenation<T>(fwd: seq<T>, x: T, bwd: seq<T>)
    ensures var s := fwd + [x] + Reverse(bwd);
      |s| == |fwd| + 1 + |bwd| &&
      (forall k :: 0 <= k < |fwd| ==> s[k] == fwd[k]) &&
      s[|fwd|] == x &&
      (forall k :: 0 <= k < |bwd| ==> s[|fwd| + |bwd| - k] == bwd[k])
  {
    var s := fwd + [x] + Reverse(bwd);
    forall k | 0 <= k < |bwd| ensures s[|fwd| + |bwd| - k] == bwd[k] {
      assert s[|fwd| + 1 + (|bwd| - 1 - k)] == Reverse(bwd)[|bwd| - 1 - k];
    }
  }

  /** The readings of the segments from anchor a, part by part. */
  lemma SegmentReadings(p: seq<real>, c: seq<real>, a: int, useRms: bool)
    requires |p| == |c| && -1 <= a < |p|
    requires useRms || NonZeroReferences(SegmentRms(p, c, a))
    ensures useRms || (NonZeroReferences(ForwardBatches(p, c, a)) &&
                       SplitRms(p, c, a).reference != 0.0 &&
                       NonZeroReferences(BackwardBatches(p, c, a - FrameLocator.SamplesControl)))
    ensures Readings(SegmentRms(p, c, a), useRms) ==
      Readings(ForwardBatches(p, c, a), useRms) + [Reading(SplitRms(p, c, a), useRms)] +
      Reverse(Readings(BackwardBatches(p, c, a - FrameLocator.SamplesControl), useRms))
  {
    var fwd, sp := ForwardBatches(p, c, a), SplitRms(p, c, a);
    var bwd := BackwardBatches(p, c, a - FrameLocator.SamplesControl);
    assert SegmentRms(p, c, a) == fwd + [sp] + Reverse(bwd);
    ReadingsOfLayout(fwd, sp, bwd, useRms);
  }

  /** Reducing to readings commutes with the layout. */
  lemma ReadingsOfLayout(fwd: seq<ChannelRms>, split: ChannelRms, bwd: seq<ChannelRms>, useRms: bool)
    requires useRms || NonZeroReferences(fwd + [split] + Reverse(bwd))
    ensures useRms || (NonZeroReferences(fwd) && split.reference != 0.0 && NonZeroReferences(bwd))
    ensures Readings(fwd + [split] + Reverse(bwd), useRms) ==
      Readings(fwd, useRms) + [Reading(split, useRms)] + Reverse(Readings(bwd, useRms))
  {
    var s := fwd + [split] + Reverse(bwd);
    if !useRms {
      assert s[|fwd|] == split;
      forall k | 0 <= k < |fwd| ensures fwd[k].reference != 0.0 {
        assert s[k] == fwd[k];
      }
      forall k | 0 <= k < |bwd| ensures bwd[k].reference != 0.0 {
        assert s[|fwd| + 1 + (|bwd| - 1 - k)] == bwd[k];
      }
    }
  }
}
