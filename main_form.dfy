/** The seven-probe engine (MainForm): its Start, Stop and mode handlers and
    the acquisition callback, over the state the form keeps between
    callbacks. Each callback turns a block of samples into readings
    (Extraction), shifts the first seven into the smoothing matrix, averages
    every probe's column, pushes the averages onto the per-probe histories
    and clamps the reference channel. */
module MainFormModel {
  import opened Fifo
  import opened Segmenter
  import opened Smoothing
  import FrameLocator
  import Extraction

  /** A row of n zeros. */
  function Zeros(n: nat): (z: seq<real>)
    ensures |z| == n && forall i :: 0 <= i < n ==> z[i] == 0.0
  {
    seq(n, i => 0.0)
  }

  /** Each history takes the value at its own index. */
  function PushEach(lists: seq<seq<real>>, values: seq<real>): (r: seq<seq<real>>)
    requires |lists| <= |values|
    ensures |r| == |lists|
    ensures forall j :: 0 <= j < |lists| ==> r[j] == Push(lists[j], values[j])
  {
    seq(|lists|, j requires 0 <= j < |lists| => Push(lists[j], values[j]))
  }

  /** What a callback needs from its block for the source not to throw: both
      channels have the same non-zero length, no reference RMS is zero in
      impedance mode, and at least DataSize readings come out of it. */
  predicate UsableBlock(samples: seq<real>, samplesCurr: seq<real>, useRms: bool)
  {
    |samples| == |samplesCurr| && |samples| > 0 &&
    (useRms || NonZeroReferences(SegmentRms(samples, samplesCurr, FrameLocator.SyncAnchor(samples)))) &&
    |Extraction.BlockReadings(samples, samplesCurr, useRms)| >= DataSize
  }

  class MainForm {
    /** An acquisition task is running (`runningTask != null`). */
    var running: bool
    /** Voltage mode (true) or impedance mode (false). */
    var useRms: bool
    /** Smoothing matrix: one row of DataSize readings per callback. */
    var mavgData: seq<seq<real>>
    /** Averaged reading per probe; only the first DataSize are written. */
    var filteredValues: seq<real>
    /** History of averaged readings per probe (`RMS_list0` .. `RMS_list6`). */
    var rmsLists: seq<seq<real>>

    predicate Valid()
      reads this
    {
      |rmsLists| == DataSize &&
      (forall j :: 0 <= j < |rmsLists| ==> |rmsLists[j]| <= Capacity) &&
      Rectangular(mavgData, DataSize) &&
      |filteredValues| == |mavgData| &&
      |mavgData| % BufferSize == 0 &&
      (running ==> |mavgData| >= BufferSize)
    }

    constructor ()
      ensures Valid()
      ensures !running && !useRms && mavgData == [] && filteredValues == []
      ensures rmsLists == seq(DataSize, j => [])
    {
      running := false;
      useRms := false;
      mavgData := [];
      filteredValues := [];
      rmsLists := seq(DataSize, j => []);
    }

    /** Start: when no task is running, BufferSize zero rows are appended to
        the smoothing matrix and DataSize zeros to the averages (nothing is
        cleared); the task then runs if the device accepted its
        configuration. */
    method StartButtonClick(configured: bool)
      requires Valid()
      modifies this
      ensures Valid()
      ensures old(running) ==> unchanged(this)
      ensures !old(running) ==>
        mavgData == old(mavgData) + seq(BufferSize, i => Zeros(DataSize)) &&
        filteredValues == old(filteredValues) + Zeros(DataSize) &&
        running == configured && useRms == old(useRms) && rmsLists == old(rmsLists)
    {
      if !running {
        var i := 0;
        while i < BufferSize
          invariant 0 <= i <= BufferSize
          invariant mavgData == old(mavgData) + seq(i, k => Zeros(DataSize))
          invariant filteredValues == old(filteredValues) && rmsLists == old(rmsLists)
          invariant running == old(running) && useRms == old(useRms)
        {
          var row := [];
          var j := 0;
          while j < DataSize
            invariant 0 <= j <= DataSize && row == Zeros(j)
          {
            row := row + [0.0];
            j := j + 1;
          }
          mavgData := mavgData + [row];
          i := i + 1;
        }
        assert old(filteredValues) + Zeros(0) == old(filteredValues);
        i := 0;
        while i < DataSize
          invariant 0 <= i <= DataSize
          invariant filteredValues == old(filteredValues) + Zeros(i)
          invariant mavgData == old(mavgData) + seq(BufferSize, k => Zeros(DataSize))
          invariant rmsLists == old(rmsLists) && running == old(running) && useRms == old(useRms)
        {
          filteredValues := filteredValues + [0.0];
          i := i + 1;
        }
        running := configured;
      }
    }

    /** Stop: the running task is disposed of; nothing else changes. */
    method StopButtonClick()
      requires Valid()
      modifies this
      ensures Valid()
      ensures !running
      ensures useRms == old(useRms) && mavgData == old(mavgData)
      ensures filteredValues == old(filteredValues) && rmsLists == old(rmsLists)
    {
      if running {
        running := false;
      }
    }

    /** The mode check box flips between voltage and impedance readings. */
    method ToggleUseRms()
      requires Valid()
      modifies this
      ensures Valid()
      ensures useRms == !old(useRms)
      ensures running == old(running) && mavgData == old(mavgData)
      ensures filteredValues == old(filteredValues) && rmsLists == old(rmsLists)
    {
      if useRms == false {
        useRms := true;
      } else {
        useRms := false;
      }
    }

    /** The transpose, shift, transpose of one callback: the oldest readings
        row leaves the smoothing matrix and `readings` is appended. */
    method ShiftReadings(readings: seq<real>)
      requires Valid() && running && |readings| == DataSize
      modifies this
      ensures Valid()
      ensures mavgData == old(mavgData)[1..] + [readings]
      ensures running == old(running) && useRms == old(useRms)
      ensures filteredValues == old(filteredValues) && rmsLists == old(rmsLists)
    {
      var t := Transpose(mavgData);
      ghost var t0 := t;
      var i := 0;
      while i < DataSize
        invariant 0 <= i <= DataSize && |t| == DataSize
        invariant forall j :: 0 <= j < i ==> t[j] == t0[j][1..] + [readings[j]]
        invariant forall j :: i <= j < DataSize ==> t[j] == t0[j]
      {
        t := t[i := t[i][1..] + [readings[i]]];
        i := i + 1;
      }
      assert t == ShiftedColumns(t0, readings);
      ShiftThroughTranspose(mavgData, readings);
      mavgData := Transpose(t);
    }

    /** Every probe's average is recomputed over the whole matrix. */
    method UpdateAverages()
      requires Valid() && running
      modifies this
      ensures Valid()
      ensures running == old(running) && useRms == old(useRms)
      ensures mavgData == old(mavgData) && rmsLists == old(rmsLists)
      ensures forall c :: 0 <= c < DataSize ==> filteredValues[c] == ColumnMean(mavgData, c)
      ensures filteredValues[DataSize..] == old(filteredValues)[DataSize..]
    {
      var i := 0;
      while i < DataSize
        invariant 0 <= i <= DataSize && Valid()
        invariant running && mavgData == old(mavgData) && rmsLists == old(rmsLists)
        invariant useRms == old(useRms)
        invariant forall c :: 0 <= c < i ==> filteredValues[c] == ColumnMean(mavgData, c)
        invariant filteredValues[i..] == old(filteredValues)[i..]
      {
        var average := MovingAverage(mavgData, i);
        filteredValues := filteredValues[i := average];
        i := i + 1;
      }
    }

    /** Every probe's history takes its new average. */
    method UpdateHistories()
      requires Valid() && running
      modifies this
      ensures Valid()
      ensures running == old(running) && useRms == old(useRms)
      ensures mavgData == old(mavgData) && filteredValues == old(filteredValues)
      ensures rmsLists == PushEach(old(rmsLists), filteredValues)
    {
      var j := 0;
      while j < DataSize
        invariant 0 <= j <= DataSize && Valid()
        invariant running && mavgData == old(mavgData) && filteredValues == old(filteredValues)
        invariant useRms == old(useRms)
        invariant forall k :: 0 <= k < j ==> rmsLists[k] == Push(old(rmsLists)[k], filteredValues[k])
        invariant forall k :: j <= k < DataSize ==> rmsLists[k] == old(rmsLists)[k]
      {
        rmsLists := rmsLists[j := Push(rmsLists[j], filteredValues[j])];
        j := j + 1;
      }
    }

    /** One acquisition callback on a block of both channels. */
    method AnalogInCallback(samples: array<real>, samplesCurr: array<real>)
      requires Valid()
      requires running ==> UsableBlock(samples[..], samplesCurr[..], useRms)
      modifies this, samplesCurr
      ensures Valid()
      ensures running == old(running) && useRms == old(useRms)
      ensures !old(running) ==>
        mavgData == old(mavgData) && filteredValues == old(filteredValues) &&
        rmsLists == old(rmsLists) && samplesCurr[..] == old(samplesCurr[..])
      ensures old(running) ==>
        var readings := Extraction.BlockReadings(old(samples[..]), old(samplesCurr[..]), useRms);
        mavgData == old(mavgData)[1..] + [readings[..DataSize]] &&
        (forall c :: 0 <= c < DataSize ==> filteredValues[c] == ColumnMean(mavgData, c)) &&
        filteredValues[DataSize..] == old(filteredValues)[DataSize..] &&
        rmsLists == PushEach(old(rmsLists), filteredValues) &&
        samplesCurr[..] == Clamped(old(samplesCurr[..]))
    {
      if running {
        var listRms := Extraction.ExtractReadings(samples[..], samplesCurr[..], useRms);
        var short := FirstReadings(listRms);
        ShiftReadings(short);
        UpdateAverages();
        UpdateHistories();
        ClampReference(samplesCurr);
      }
    }
  }
}
