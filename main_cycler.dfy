/** The eight-probe engine (main): every N samples it takes the RMS of the
    last BatchWindow samples of the primary channel, appends it to the
    history of the probe the multiplexer is on, and advances to the next
    probe, cycling 1 .. ProbeCount. */
module MainModel {
  import opened Rms
  import opened Fifo

  /** Number of multiplexed probes (`hasel_count` runs 1 .. 8). */
  const ProbeCount: nat := 8
  /** Samples at the end of the block that enter the RMS. */
  const BatchWindow: nat := 50

  /** The probe after `count`: 1, 2, ..., ProbeCount, then 1 again. */
  function NextProbe(count: int): (next: int)
    requires 1 <= count <= ProbeCount
    ensures 1 <= next <= ProbeCount
    ensures next == (count % ProbeCount) + 1
  {
    if count + 1 > ProbeCount then 1 else count + 1
  }

  /** The probe after k events starting at `count`. */
  function Advance(count: int, k: nat): int
    requires 1 <= count <= ProbeCount
  {
    if k == 0 then count else NextProbe(Advance(count, k - 1))
  }

  lemma {:induction false} AdvanceIsModular(count: int, k: nat)
    requires 1 <= count <= ProbeCount
    ensures 1 <= Advance(count, k) <= ProbeCount
    ensures Advance(count, k) == (count - 1 + k) % ProbeCount + 1
  {
    if k > 0 {
      AdvanceIsModular(count, k - 1);
    }
  }

  /** The probe after k events, as an offset from probe 1 taken modulo ProbeCount. */
  function Wrap(n: int): (r: int)
    requires 0 <= n < 2 * ProbeCount
    ensures r == n % ProbeCount
  {
    if n < ProbeCount then n else n - ProbeCount
  }

  /** The ProbeCount events of a cycle visit ProbeCount different probes, and
      the next event is back on the probe the cycle started on. */
  lemma ProbeCycle(count: int)
    requires 1 <= count <= ProbeCount
    ensures Advance(count, ProbeCount) == count
    ensures forall j: nat, k: nat :: j < k < ProbeCount ==> Advance(count, j) != Advance(count, k)
  {
    AdvanceIsModular(count, ProbeCount);
    assert Wrap(count - 1 + ProbeCount) == count - 1;
    forall j: nat, k: nat | j < k < ProbeCount ensures Advance(count, j) != Advance(count, k) {
      AdvanceIsModular(count, j);
      AdvanceIsModular(count, k);
      assert Wrap(count - 1 + j) != Wrap(count - 1 + k);
    }
  }

  /** The stored RMS after one event: the previous value is not reset, so it
      is added to the window's sum of squares before the mean and the root. */
  function BatchUpdate(carry: real, s: seq<real>): real
    requires carry >= 0.0 && |s| >= BatchWindow
  {
    Sqrt((carry + SumSquares(s, |s| - BatchWindow, |s|)) / BatchWindow as real)
  }

  /** The divide and the root applied to the accumulated total are the update. */
  lemma BatchStep(carry: real, s: seq<real>, total: real)
    requires carry >= 0.0 && |s| >= BatchWindow
    requires total == carry + SumSquares(s, |s| - BatchWindow, |s|)
    ensures total >= 0.0 && Sqrt(total / BatchWindow as real) == BatchUpdate(carry, s)
  {
  }

  /** Starting from zero, the stored value is the window's RMS. */
  lemma BatchUpdateFromZero(s: seq<real>)
    requires |s| >= BatchWindow
    ensures BatchUpdate(0.0, s) == Sqrt(MeanSquare(s, |s| - BatchWindow, |s|))
  {
    assert 0.0 + SumSquares(s, |s| - BatchWindow, |s|) == SumSquares(s, |s| - BatchWindow, |s|);
  }

  /** The stored value is zero exactly when the carried value and the
      window's sum of squares are both zero. */
  lemma {:induction false} BatchUpdateZero(carry: real, s: seq<real>)
    requires carry >= 0.0 && |s| >= BatchWindow
    ensures BatchUpdate(carry, s) == 0.0 <==>
      carry == 0.0 && SumSquares(s, |s| - BatchWindow, |s|) == 0.0
  {
    var total := carry + SumSquares(s, |s| - BatchWindow, |s|);
    var mean := total / BatchWindow as real;
    assert mean == 0.0 <==> total == 0.0;
    assert BatchUpdate(carry, s) == Sqrt(mean);
  }

  /** A silent window has a zero sum of squares. */
  lemma SilentWindow(s: seq<real>)
    requires |s| >= BatchWindow
    requires forall i :: |s| - BatchWindow <= i < |s| ==> s[i] == 0.0
    ensures SumSquares(s, |s| - BatchWindow, |s|) == 0.0
  {
    var lo := |s| - BatchWindow;
    forall i | lo <= i < |s| ensures s[i] * s[i] == 0.0 * 0.0 {
      assert s[i] == 0.0;
    }
    SumSquaresConstantAmplitude(s, lo, |s|, 0.0);
  }

  class Main {
    /** The probe the multiplexer is on (`hasel_count`). */
    var haselCount: int
    /** The last stored RMS (`batchRMS`), carried into the next event. */
    var batchRms: real
    /** History per probe (`avgFFT1` .. `avgFFT8`), index haselCount - 1. */
    var avgFft: seq<seq<real>>

    predicate Valid()
      reads this
    {
      1 <= haselCount <= ProbeCount && batchRms >= 0.0 &&
      |avgFft| == ProbeCount && forall j :: 0 <= j < |avgFft| ==> |avgFft[j]| <= Capacity
    }

    constructor ()
      ensures Valid()
      ensures haselCount == 1 && batchRms == 0.0 && avgFft == seq(ProbeCount, j => [])
    {
      haselCount := 1;
      batchRms := 0.0;
      avgFft := seq(ProbeCount, j => []);
    }

    /** One sample-count event on a block read from the primary channel. */
    method EveryNSamplesRead(samplesReal: seq<real>)
      requires Valid() && |samplesReal| >= BatchWindow
      modifies this
      ensures Valid()
      ensures batchRms == BatchUpdate(old(batchRms), samplesReal)
      ensures avgFft == old(avgFft)[old(haselCount) - 1 := Push(old(avgFft)[old(haselCount) - 1], batchRms)]
      ensures haselCount == NextProbe(old(haselCount))
    {
      var numSamples := |samplesReal|;
      var i := numSamples - BatchWindow;
      while i < numSamples
        invariant numSamples - BatchWindow <= i <= numSamples
        invariant batchRms == old(batchRms) + SumSquares(samplesReal, numSamples - BatchWindow, i)
        invariant haselCount == old(haselCount) && avgFft == old(avgFft)
      {
        batchRms := batchRms + samplesReal[i] * samplesReal[i];
        i := i + 1;
      }
      ghost var total := batchRms;
      batchRms := batchRms / BatchWindow as real;
      batchRms := Sqrt(batchRms);
      BatchStep(old(batchRms), samplesReal, total);
      var probe := haselCount - 1;
      avgFft := avgFft[probe := Push(avgFft[probe], batchRms)];
      haselCount := haselCount + 1;
      if haselCount > ProbeCount {
        haselCount := 1;
      }
    }
  }

  /** A block whose window is silent still reads non-zero after a non-zero
      block, because the stored value is carried into the next sum. */
  lemma CarryLeaks(carry: real, s: seq<real>)
    requires carry > 0.0 && |s| >= BatchWindow
    requires forall i :: |s| - BatchWindow <= i < |s| ==> s[i] == 0.0
    ensures BatchUpdate(carry, s) > 0.0
  {
    BatchUpdateZero(carry, s);
  }
}
