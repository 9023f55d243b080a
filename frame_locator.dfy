/** Frame locator of the seven-probe engine (MainForm.AnalogInCallback):
    finds the multiplexer's quiet gap in the primary channel and, when the
    gap sits too close to the right edge of the block, looks for one near
    the left edge instead. */
module FrameLocator {
  import opened Rms

  /** |x| below this counts as quiet. */
  const Threshold: real := 0.05
  /** Length of the quiet run that marks the gap. */
  const ThresholdWindow: nat := 10
  /** Width of the control gap; also the edge zone for the correction. */
  const SamplesControl: nat := 200

  /** A quiet run starts at i: the run [i, i + ThresholdWindow) lies strictly
      before the last sample (the scan tests `i + window < N`) and every
      sample in it is below the threshold in absolute value. */
  predicate QuietRun(s: seq<real>, i: int)
  {
    0 <= i && i + ThresholdWindow < |s| &&
    forall j :: i <= j < i + ThresholdWindow ==> Abs(s[j]) < Threshold
  }

  /** The largest start i <= top of a quiet run, or -1 if there is none. */
  function LastQuietStart(s: seq<real>, top: int): (i: int)
    ensures i == -1 || 0 <= i <= top
    ensures i == -1 <==> forall j :: 0 <= j <= top ==> !QuietRun(s, j)
    ensures i != -1 ==> QuietRun(s, i) && forall j :: i < j <= top ==> !QuietRun(s, j)
    decreases if top < 0 then 0 else top + 1
  {
    if top < 0 then -1
    else if QuietRun(s, top) then top
    else LastQuietStart(s, top - 1)
  }

  /** The anchor is the last sample of the run; -1 stays "not found". */
  function AnchorOf(start: int): int
  {
    if start == -1 then -1 else start + ThresholdWindow - 1
  }

  /** The anchor of the rightmost quiet run in the block. */
  function GapAnchor(s: seq<real>): int
  {
    AnchorOf(LastQuietStart(s, |s| - 1))
  }

  /** Edge correction: an anchor beyond |s| - SamplesControl is replaced by the
      anchor of the rightmost quiet run starting below SamplesControl, if any. */
  function CorrectedAnchor(s: seq<real>, anchor: int): int
  {
    if anchor > |s| - SamplesControl then
      var i := LastQuietStart(s, SamplesControl - 1);
      if i == -1 then anchor else AnchorOf(i)
    else anchor
  }

  /** The anchor the segmenter starts from (`index_control`). */
  function SyncAnchor(s: seq<real>): int
  {
    CorrectedAnchor(s, GapAnchor(s))
  }

  /** Scans candidate starts i = top, top - 1, ..., 0, skipping those with
      i + ThresholdWindow >= |s|, and stops at the first quiet run. */
  method FindQuietRun(samples: seq<real>, top: int) returns (index: int)
    requires top >= -1
    ensures index == AnchorOf(LastQuietStart(samples, top))
  {
    index := -1;
    var i := top;
    while i >= 0
      invariant -1 <= i <= top
      invariant index == -1
      invariant LastQuietStart(samples, top) == LastQuietStart(samples, i)
    {
      if i + ThresholdWindow < |samples| {
        var belowThreshold := true;
        var j := i;
        while j < i + ThresholdWindow
          invariant i <= j <= i + ThresholdWindow
          invariant forall k :: i <= k < j ==> Abs(samples[k]) < Threshold
        {
          if Abs(samples[j]) >= Threshold {
            belowThreshold := false;
            break;
          }
          j := j + 1;
        }
        if belowThreshold {
          index := i + ThresholdWindow - 1;
          break;
        }
      }
      i := i - 1;
    }
  }

  /** The rightmost-gap scan over the whole block. */
  method LocateGap(samples: seq<real>) returns (index: int)
    ensures index == GapAnchor(samples)
  {
    index := FindQuietRun(samples, |samples| - 1);
  }

  /** The edge correction applied to the located anchor. */
  method CorrectEdge(samples: seq<real>, index: int) returns (corrected: int)
    ensures corrected == CorrectedAnchor(samples, index)
  {
    corrected := index;
    if index > |samples| - SamplesControl {
      var found := FindQuietRun(samples, SamplesControl - 1);
      if found != -1 {
        corrected := found;
      }
    }
  }

  /** The located anchor is -1 exactly when no quiet run exists; otherwise it
      ends the rightmost quiet run, so 9 <= anchor <= |s| - 2. */
  lemma GapAnchorSpec(s: seq<real>)
    ensures GapAnchor(s) == -1 <==> forall i :: 0 <= i < |s| ==> !QuietRun(s, i)
    ensures GapAnchor(s) != -1 ==>
      var a := GapAnchor(s);
      ThresholdWindow - 1 <= a <= |s| - 2 &&
      QuietRun(s, a - (ThresholdWindow - 1)) &&
      forall i :: a - (ThresholdWindow - 1) < i < |s| ==> !QuietRun(s, i)
  {
  }

  /** The corrected anchor is -1 or ends a quiet run, so it is at most |s| - 2.
      An anchor at or below |s| - SamplesControl is kept. An anchor beyond it
      is replaced exactly when some quiet run starts below SamplesControl, and
      then by the end of the rightmost such run; otherwise it is kept. */
  lemma SyncAnchorSpec(s: seq<real>)
    ensures SyncAnchor(s) == -1 || (ThresholdWindow - 1 <= SyncAnchor(s) <= |s| - 2 &&
                                    QuietRun(s, SyncAnchor(s) - (ThresholdWindow - 1)))
    ensures GapAnchor(s) <= |s| - SamplesControl ==> SyncAnchor(s) == GapAnchor(s)
    ensures SyncAnchor(s) != GapAnchor(s) ==>
      GapAnchor(s) > |s| - SamplesControl &&
      SyncAnchor(s) - (ThresholdWindow - 1) < SamplesControl &&
      forall i :: SyncAnchor(s) - (ThresholdWindow - 1) < i < SamplesControl ==> !QuietRun(s, i)
    ensures GapAnchor(s) > |s| - SamplesControl && (forall i :: 0 <= i < SamplesControl ==> !QuietRun(s, i)) ==>
      SyncAnchor(s) == GapAnchor(s)
    ensures GapAnchor(s) > |s| - SamplesControl && (exists j :: 0 <= j < SamplesControl && QuietRun(s, j)) ==>
      SyncAnchor(s) != -1 &&
      SyncAnchor(s) - (ThresholdWindow - 1) < SamplesControl &&
      QuietRun(s, SyncAnchor(s) - (ThresholdWindow - 1)) &&
      forall i :: SyncAnchor(s) - (ThresholdWindow - 1) < i < SamplesControl ==> !QuietRun(s, i)
  {
    GapAnchorSpec(s);
  }
}
