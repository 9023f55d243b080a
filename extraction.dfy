/** The per-callback extraction loops of MainForm.AnalogInCallback, stage
    by stage, each proved against the specification functions of Segmenter
    and FrameLocator; ExtractReadings chains them the way the callback does. */
module Extraction {
  import opened Rms
  import opened Segmenter
  import FrameLocator

  /** The inner summing loop walking upwards: for i from lo below hi the
      squares of both channels are added to running sums that already cover
      [base, lo). */
  method SquaresUp(samples: seq<real>, samplesCurr: seq<real>, base: int, lo: int, hi: int, sum0: real, sumCurr0: real)
    returns (sum: real, sumCurr: real)
    requires |samples| == |samplesCurr| && 0 <= base <= lo <= hi <= |samples|
    requires sum0 == SumSquares(samples, base, lo) && sumCurr0 == SumSquares(samplesCurr, base, lo)
    ensures sum == SumSquares(samples, base, hi) && sumCurr == SumSquares(samplesCurr, base, hi)
  {
    sum, sumCurr := sum0, sumCurr0;
    var i := lo;
    while i < hi
      invariant lo <= i <= hi
      invariant sum == SumSquares(samples, base, i) && sumCurr == SumSquares(samplesCurr, base, i)
    {
      sum := sum + samples[i] * samples[i];
      sumCurr := sumCurr + samplesCurr[i] * samplesCurr[i];
      i := i + 1;
    }
  }

  /** The inner summing loop walking downwards: for i from hi - 1 down to lo
      the squares of both channels are added to running sums that already
      cover [hi, top). */
  method SquaresDown(samples: seq<real>, samplesCurr: seq<real>, lo: int, hi: int, top: int, sum0: real, sumCurr0: real)
    returns (sum: real, sumCurr: real)
    requires |samples| == |samplesCurr| && 0 <= lo <= hi <= top <= |samples|
    requires sum0 == SumSquares(samples, hi, top) && sumCurr0 == SumSquares(samplesCurr, hi, top)
    ensures sum == SumSquares(samples, lo, top) && sumCurr == SumSquares(samplesCurr, lo, top)
  {
    sum, sumCurr := sum0, sumCurr0;
    var i := hi - 1;
    while i >= lo
      invariant lo - 1 <= i <= hi - 1
      invariant sum == SumSquares(samples, i + 1, top) && sumCurr == SumSquares(samplesCurr, i + 1, top)
    {
      SumSquaresPrepend(samples, i, top);
      SumSquaresPrepend(samplesCurr, i, top);
      sum := sum + samples[i] * samples[i];
      sumCurr := sumCurr + samplesCurr[i] * samplesCurr[i];
      i := i - 1;
    }
  }

  /** Forward batches: while index < N - 400 + 1, sum squares over
      [index + 150, index + 350) on both channels, divide by 200, take roots
      and append the reading; step index by 400. */
  method ForwardSegments(samples: seq<real>, samplesCurr: seq<real>, anchor: int, useRms: bool)
    returns (readings: seq<real>, index: int)
    requires |samples| == |samplesCurr| && anchor >= -1
    requires useRms || NonZeroReferences(ForwardBatches(samples, samplesCurr, anchor))
    ensures index == anchor + HBatchLength * ForwardCount(|samples|, anchor)
    ensures readings == Readings(ForwardBatches(samples, samplesCurr, anchor), useRms)
  {
    ghost var batches := ForwardBatches(samples, samplesCurr, anchor);
    ghost var k := 0;
    readings := [];
    index := anchor;
    while index < |samples| - HBatchLength + 1
      invariant 0 <= k <= |batches| && index == anchor + HBatchLength * k
      invariant |readings| == k
      invariant forall m :: 0 <= m < k ==> readings[m] == Reading(batches[m], useRms)
    {
      var batchRms, batchRmsCurr := SquaresUp(samples, samplesCurr, index + CutoffLeft,
        index + CutoffLeft, index + HBatchLength - CutoffRight, 0.0, 0.0);
      batchRms := batchRms / UsableLength as real;
      batchRms := Sqrt(batchRms);
      batchRmsCurr := batchRmsCurr / UsableLength as real;
      batchRmsCurr := Sqrt(batchRmsCurr);
      assert batches[k] == ChannelRms(batchRms, batchRmsCurr);
      if useRms {
        readings := readings + [batchRms];
      } else {
        readings := readings + [batchRms / batchRmsCurr];
      }
      index := index + HBatchLength;
      k := k + 1;
    }
  }

  /** The end of a tail: both sums are divided by the number of samples
      taken when that number is not zero, then rooted. */
  method TailRoots(sum: real, sumCurr: real, count: int) returns (tail: ChannelRms)
    requires sum >= 0.0 && sumCurr >= 0.0 && count >= 0
    ensures tail == ChannelRms(Sqrt(if count != 0 then sum / count as real else sum),
                               Sqrt(if count != 0 then sumCurr / count as real else sumCurr))
    ensures tail.primary >= 0.0 && (tail.primary == 0.0 <==> sum == 0.0)
    ensures tail.reference >= 0.0 && (tail.reference == 0.0 <==> sumCurr == 0.0)
  {
    var rms, rmsCurr := sum, sumCurr;
    if count != 0 {
      rms := rms / count as real;
      rmsCurr := rmsCurr / count as real;
    }
    rms := Sqrt(rms);
    rmsCurr := Sqrt(rmsCurr);
    tail := ChannelRms(rms, rmsCurr);
  }

  /** The chunk loop of the right-hand tail: from start, while index < N - 50,
      add the squares of the next 50 samples; count the samples taken. */
  method RightChunkSums(samples: seq<real>, samplesCurr: seq<real>, start: int)
    returns (rmsSplit: real, rmsCurrSplit: real, splitBatchLength: int, index: int)
    requires |samples| == |samplesCurr| && start >= 0
    ensures index == start + SplitChunk * RightTailCount(|samples|, start)
    ensures splitBatchLength == index - start
    ensures index == start ==> rmsSplit == 0.0 && rmsCurrSplit == 0.0
    ensures index > start ==> (index <= |samples| &&
      rmsSplit == SumSquares(samples, start, index) && rmsCurrSplit == SumSquares(samplesCurr, start, index))
  {
    rmsSplit, rmsCurrSplit := 0.0, 0.0;
    splitBatchLength := 0;
    ghost var m := 0;
    index := start;
    while index < |samples| - SplitChunk
      invariant 0 <= m <= RightTailCount(|samples|, start)
      invariant index == start + SplitChunk * m && splitBatchLength == index - start
      invariant index == start ==> rmsSplit == 0.0 && rmsCurrSplit == 0.0
      invariant index > start ==> (index <= |samples| &&
        rmsSplit == SumSquares(samples, start, index) && rmsCurrSplit == SumSquares(samplesCurr, start, index))
    {
      rmsSplit, rmsCurrSplit := SquaresUp(samples, samplesCurr, start, index, index + SplitChunk,
        rmsSplit, rmsCurrSplit);
      index := index + SplitChunk;
      splitBatchLength := splitBatchLength + SplitChunk;
      m := m + 1;
    }
  }

  /** Right-hand tail: the chunk sums from start, divided by the count of
      samples taken when it is not zero, then rooted. */
  method RightTail(samples: seq<real>, samplesCurr: seq<real>, start: int)
    returns (tail: ChannelRms, index: int)
    requires |samples| == |samplesCurr| && start >= 0
    ensures index == start + SplitChunk * RightTailCount(|samples|, start)
    ensures tail == TailRms(samples, samplesCurr, start, index)
  {
    var rmsSplit, rmsCurrSplit, splitBatchLength;
    rmsSplit, rmsCurrSplit, splitBatchLength, index := RightChunkSums(samples, samplesCurr, start);
    TailStep(samples, samplesCurr, start, index, splitBatchLength, rmsSplit, rmsCurrSplit);
    tail := TailRoots(rmsSplit, rmsCurrSplit, splitBatchLength);
  }

  /** Backward batches: while index > 400, sum squares for i from index - 50
      down to index - 249, divide by 200, take roots and append the reading;
      step index down by 400. */
  method BackwardSegments(samples: seq<real>, samplesCurr: seq<real>, start: int, useRms: bool)
    returns (readings: seq<real>, index: int)
    requires |samples| == |samplesCurr| && start <= |samples|
    requires useRms || NonZeroReferences(BackwardBatches(samples, samplesCurr, start))
    ensures index == start - HBatchLength * BackwardCount(start)
    ensures readings == Readings(BackwardBatches(samples, samplesCurr, start), useRms)
  {
    ghost var batches := BackwardBatches(samples, samplesCurr, start);
    ghost var k := 0;
    readings := [];
    index := start;
    while index > HBatchLength
      invariant 0 <= k <= |batches| && index == start - HBatchLength * k
      invariant |readings| == k
      invariant forall m :: 0 <= m < k ==> readings[m] == Reading(batches[m], useRms)
    {
      var batchRms, batchRmsCurr := SquaresDown(samples, samplesCurr,
        index - HBatchLength + CutoffLeft + 1, index - CutoffRight + 1, index - CutoffRight + 1, 0.0, 0.0);
      batchRms := batchRms / UsableLength as real;
      batchRms := Sqrt(batchRms);
      batchRmsCurr := batchRmsCurr / UsableLength as real;
      batchRmsCurr := Sqrt(batchRmsCurr);
      assert batches[k] == ChannelRms(batchRms, batchRmsCurr);
      if useRms {
        readings := readings + [batchRms];
      } else {
        readings := readings + [batchRms / batchRmsCurr];
      }
      index := index - HBatchLength;
      k := k + 1;
    }
  }

  /** The chunk loop of the left-hand tail: while index >= 50, add the
      squares of samples index - 1 down to index - 50; count the samples
      taken. */
  method LeftChunkSums(samples: seq<real>, samplesCurr: seq<real>, start: int)
    returns (rmsSplitLeft: real, rmsCurrSplitLeft: real, splitBatchLength: int, index: int)
    requires |samples| == |samplesCurr| && start <= |samples|
    ensures index == start - SplitChunk * LeftTailCount(start)
    ensures splitBatchLength == start - index
    ensures index == start ==> rmsSplitLeft == 0.0 && rmsCurrSplitLeft == 0.0
    ensures index < start ==> (0 <= index &&
      rmsSplitLeft == SumSquares(samples, index, start) && rmsCurrSplitLeft == SumSquares(samplesCurr, index, start))
  {
    splitBatchLength := 0;
    rmsSplitLeft, rmsCurrSplitLeft := 0.0, 0.0;
    ghost var m := 0;
    index := start;
    while index >= SplitChunk
      invariant 0 <= m <= LeftTailCount(start)
      invariant index == start - SplitChunk * m && splitBatchLength == start - index
      invariant index == start ==> rmsSplitLeft == 0.0 && rmsCurrSplitLeft == 0.0
      invariant index < start ==> (0 <= index &&
        rmsSplitLeft == SumSquares(samples, index, start) && rmsCurrSplitLeft == SumSquares(samplesCurr, index, start))
    {
      rmsSplitLeft, rmsCurrSplitLeft := SquaresDown(samples, samplesCurr, index - SplitChunk, index, start,
        rmsSplitLeft, rmsCurrSplitLeft);
      index := index - SplitChunk;
      splitBatchLength := splitBatchLength + SplitChunk;
      m := m + 1;
    }
  }

  /** Left-hand tail: the chunk sums below start, divided by the count of
      samples taken when it is not zero, then rooted. */
  method LeftTail(samples: seq<real>, samplesCurr: seq<real>, start: int)
    returns (tail: ChannelRms, index: int)
    requires |samples| == |samplesCurr| && start <= |samples|
    ensures index == start - SplitChunk * LeftTailCount(start)
    ensures tail == TailRms(samples, samplesCurr, index, start)
  {
    var rmsSplitLeft, rmsCurrSplitLeft, splitBatchLength;
    rmsSplitLeft, rmsCurrSplitLeft, splitBatchLength, index := LeftChunkSums(samples, samplesCurr, start);
    TailStep(samples, samplesCurr, index, start, splitBatchLength, rmsSplitLeft, rmsCurrSplitLeft);
    tail := TailRoots(rmsSplitLeft, rmsCurrSplitLeft, splitBatchLength);
  }

  /** Forward pass from the anchor: the forward batches, then, CutoffLeft
      past where they stop, the right tail. */
  method ForwardPass(samples: seq<real>, samplesCurr: seq<real>, anchor: int, useRms: bool)
    returns (forward: seq<real>, right: ChannelRms)
    requires |samples| == |samplesCurr| && anchor >= -1
    requires useRms || NonZeroReferences(ForwardBatches(samples, samplesCurr, anchor))
    ensures forward == Readings(ForwardBatches(samples, samplesCurr, anchor), useRms)
    ensures right == RightTailRms(samples, samplesCurr, anchor)
  {
    var index;
    forward, index := ForwardSegments(samples, samplesCurr, anchor, useRms);
    index := index + CutoffLeft;
    ghost var t := index;
    right, index := RightTail(samples, samplesCurr, index);
    RightTailLink(samples, samplesCurr, anchor, t, index, right);
  }

  /** Backward pass from start = anchor - SamplesControl: the backward
      batches, then, CutoffRight below where they stop, the left tail. */
  method BackwardPass(samples: seq<real>, samplesCurr: seq<real>, start: int, useRms: bool)
    returns (inverse: seq<real>, left: ChannelRms)
    requires |samples| == |samplesCurr| && start <= |samples|
    requires useRms || NonZeroReferences(BackwardBatches(samples, samplesCurr, start))
    ensures inverse == Readings(BackwardBatches(samples, samplesCurr, start), useRms)
    ensures left == LeftTailRms(samples, samplesCurr, start)
  {
    var index;
    inverse, index := BackwardSegments(samples, samplesCurr, start, useRms);
    index := index - CutoffRight;
    ghost var e := index;
    left, index := LeftTail(samples, samplesCurr, index);
    LeftTailLink(samples, samplesCurr, start, e, index, left);
  }

  /** The readings of one block, in probe order, as the callback builds
      List_RMS: gap search, edge correction, forward batches, right tail,
      backward batches from index_control - 200, left tail, merge, then
      forward ++ [split] ++ reverse(backward). */
  function BlockReadings(samples: seq<real>, samplesCurr: seq<real>, useRms: bool): seq<real>
    requires |samples| == |samplesCurr|
    requires useRms || NonZeroReferences(SegmentRms(samples, samplesCurr, FrameLocator.SyncAnchor(samples)))
  {
    FrameLocator.SyncAnchorSpec(samples);
    Readings(SegmentRms(samples, samplesCurr, FrameLocator.SyncAnchor(samples)), useRms)
  }

  /** List_RMS of one callback, built by the source's own passes; it is the
      block's readings. */
  method ExtractReadings(samples: seq<real>, samplesCurr: seq<real>, useRms: bool)
    returns (listRms: seq<real>)
    requires |samples| == |samplesCurr|
    requires useRms || NonZeroReferences(SegmentRms(samples, samplesCurr, FrameLocator.SyncAnchor(samples)))
    ensures listRms == BlockReadings(samples, samplesCurr, useRms)
  {
    var index := FrameLocator.LocateGap(samples);
    index := FrameLocator.CorrectEdge(samples, index);
    FrameLocator.SyncAnchorSpec(samples);
    assert index == FrameLocator.SyncAnchor(samples);
    listRms := AnchoredReadings(samples, samplesCurr, index, useRms);
  }

  /** The passes from a given index_control: forward batches and right
      tail, backward batches from index_control - 200 and left tail, the
      merged split segment, then forward ++ [split] ++ reverse(backward);
      the result is the readings of the block's segments at that anchor. */
  method AnchoredReadings(samples: seq<real>, samplesCurr: seq<real>, indexControl: int, useRms: bool)
    returns (listRms: seq<real>)
    requires |samples| == |samplesCurr| && -1 <= indexControl < |samples|
    requires useRms || NonZeroReferences(SegmentRms(samples, samplesCurr, indexControl))
    ensures listRms == Readings(SegmentRms(samples, samplesCurr, indexControl), useRms)
  {
    SegmentReadings(samples, samplesCurr, indexControl, useRms);
    var forward, right := ForwardPass(samples, samplesCurr, indexControl, useRms);
    var inverse, left := BackwardPass(samples, samplesCurr, indexControl - FrameLocator.SamplesControl, useRms);
    var split := MergeSplit(right, left);
    assert split == SplitRms(samples, samplesCurr, indexControl);
    var splitReading := if useRms then split.primary else split.primary / split.reference;
    listRms := forward + [splitReading] + Reverse(inverse);
  }

  /** A block's readings are the forward batches' readings, the split
      segment's reading, then the backward batches' readings reversed. */
  lemma BlockLayout(samples: seq<real>, samplesCurr: seq<real>, useRms: bool)
    requires |samples| == |samplesCurr|
    requires useRms || NonZeroReferences(SegmentRms(samples, samplesCurr, FrameLocator.SyncAnchor(samples)))
    ensures -1 <= FrameLocator.SyncAnchor(samples) < |samples|
    ensures var a := FrameLocator.SyncAnchor(samples);
      useRms || (NonZeroReferences(ForwardBatches(samples, samplesCurr, a)) &&
                 SplitRms(samples, samplesCurr, a).reference != 0.0 &&
                 NonZeroReferences(BackwardBatches(samples, samplesCurr, a - FrameLocator.SamplesControl)))
    ensures var a := FrameLocator.SyncAnchor(samples);
      BlockReadings(samples, samplesCurr, useRms) ==
        Readings(ForwardBatches(samples, samplesCurr, a), useRms) +
        [Reading(SplitRms(samples, samplesCurr, a), useRms)] +
        Reverse(Readings(BackwardBatches(samples, samplesCurr, a - FrameLocator.SamplesControl), useRms))
  {
    FrameLocator.SyncAnchorSpec(samples);
    SegmentReadings(samples, samplesCurr, FrameLocator.SyncAnchor(samples), useRms);
  }

  /** A tail is the roots of its two sums of squares, divided by the sample
      count only when that count is not zero. */
  lemma TailStep(p: seq<real>, c: seq<real>, lo: int, hi: int, n: int, sp: real, sc: real)
    requires |p| == |c| && lo <= hi && (lo < hi ==> 0 <= lo && hi <= |p|) && n == hi - lo
    requires lo < hi ==> sp == SumSquares(p, lo, hi) && sc == SumSquares(c, lo, hi)
    requires lo == hi ==> sp == 0.0 && sc == 0.0
    ensures sp >= 0.0 && sc >= 0.0
    ensures TailRms(p, c, lo, hi) ==
      ChannelRms(Sqrt(if n != 0 then sp / n as real else sp),
                 Sqrt(if n != 0 then sc / n as real else sc))
  {
  }

  /** The right tail the loop measured from t is the block's right tail. */
  lemma RightTailLink(p: seq<real>, c: seq<real>, a: int, t: int, hi: int, tail: ChannelRms)
    requires |p| == |c| && -1 <= a && t == RightTailStart(|p|, a) && t >= 0
    requires hi == t + SplitChunk * RightTailCount(|p|, t) && t <= hi
    requires t < hi ==> hi <= |p|
    requires tail == TailRms(p, c, t, hi)
    ensures tail == RightTailRms(p, c, a)
  {
  }

  /** The left tail the loop measured down to e is the block's left tail. */
  lemma LeftTailLink(p: seq<real>, c: seq<real>, b: int, e: int, lo: int, tail: ChannelRms)
    requires |p| == |c| && b <= |p| && e == LeftTailEnd(b) && e <= |p|
    requires lo == e - SplitChunk * LeftTailCount(e) && lo <= e
    requires lo < e ==> 0 <= lo
    requires tail == TailRms(p, c, lo, e)
    ensures tail == LeftTailRms(p, c, b)
  {
  }
}
