/** The moving-average stage of MainForm: a matrix of recent readings (one
    row per callback, one column per probe), the source's Transpose and
    MovingAverage helpers, the per-callback row shift, and the clamp applied
    to the reference channel at the end of a callback. */
module Smoothing {

  /** Number of probes, and so the width of every readings row (`dataSize`). */
  const DataSize: nat := 7
  /** Rows added to the smoothing matrix by one press of Start (`bufferSize`). */
  const BufferSize: nat := 7
  /** Reference samples below this are replaced by 0 at the end of a callback. */
  const ClampLevel: real := -6.0

  /** Every row has exactly w entries. */
  predicate Rectangular(m: seq<seq<real>>, w: nat)
  {
    forall i :: 0 <= i < |m| ==> |m[i]| == w
  }

  /** Every row has at least w entries. */
  predicate Covers(m: seq<seq<real>>, w: nat)
  {
    forall i :: 0 <= i < |m| ==> |m[i]| >= w
  }

  /** The first w columns of m, as rows. */
  function Transposed(m: seq<seq<real>>, w: nat): (t: seq<seq<real>>)
    requires Covers(m, w)
    ensures |t| == w && Rectangular(t, |m|)
    ensures forall j, i :: 0 <= j < w && 0 <= i < |m| ==> t[j][i] == m[i][j]
  {
    seq(w, j requires 0 <= j < w => seq(|m|, i requires 0 <= i < |m| => m[i][j]))
  }

  /** Transpose: the column count is taken from row 0, and column i of every
      row becomes row i of the result. */
  method Transpose(matrix: seq<seq<real>>) returns (transposed: seq<seq<real>>)
    requires |matrix| > 0 && Covers(matrix, |matrix[0]|)
    ensures transposed == Transposed(matrix, |matrix[0]|)
  {
    var numRows := |matrix|;
    var numCols := |matrix[0]|;
    transposed := [];
    var i := 0;
    while i < numCols
      invariant 0 <= i <= numCols
      invariant |transposed| == i && Rectangular(transposed, numRows)
      invariant forall c, r :: 0 <= c < i && 0 <= r < numRows ==> transposed[c][r] == matrix[r][c]
    {
      var row := [];
      var j := 0;
      while j < numRows
        invariant 0 <= j <= numRows
        invariant |row| == j
        invariant forall r :: 0 <= r < j ==> row[r] == matrix[r][i]
      {
        row := row + [matrix[j][i]];
        j := j + 1;
      }
      transposed := transposed + [row];
      i := i + 1;
    }
    ghost var target := Transposed(matrix, numCols);
    forall c | 0 <= c < numCols ensures transposed[c] == target[c] {
      assert |transposed[c]| == |target[c]|;
    }
  }

  /** Transposing twice gives back a rectangular matrix. */
  lemma TransposedTwice(m: seq<seq<real>>, w: nat)
    requires Rectangular(m, w)
    ensures Transposed(Transposed(m, w), |m|) == m
  {
    var t := Transposed(Transposed(m, w), |m|);
    assert |t| == |m|;
    forall i | 0 <= i < |m| ensures t[i] == m[i] {
      assert |t[i]| == |m[i]|;
    }
  }

  /** One readings row enters the smoothing window: in the transposed view
      each probe's row drops its oldest entry and appends the new reading. */
  function ShiftedColumns(t: seq<seq<real>>, values: seq<real>): (s: seq<seq<real>>)
    requires |t| == |values| && forall j :: 0 <= j < |t| ==> |t[j]| > 0
  {
    seq(|t|, j requires 0 <= j < |t| => t[j][1..] + [values[j]])
  }

  /** Transpose, shift every probe's row, transpose back: the oldest readings
      row leaves the matrix and the new one is appended. */
  lemma ShiftThroughTranspose(m: seq<seq<real>>, values: seq<real>)
    requires |m| > 0 && Rectangular(m, |values|)
    ensures Covers(ShiftedColumns(Transposed(m, |values|), values), |m|)
    ensures Transposed(ShiftedColumns(Transposed(m, |values|), values), |m|) == m[1..] + [values]
  {
    var t := Transposed(m, |values|);
    var s := ShiftedColumns(t, values);
    assert Rectangular(s, |m|);
    var r := Transposed(s, |m|);
    var e := m[1..] + [values];
    assert |r| == |e|;
    forall i | 0 <= i < |m| ensures r[i] == e[i] {
      assert |r[i]| == |e[i]|;
      forall j | 0 <= j < |values| ensures r[i][j] == e[i][j] {
        assert r[i][j] == s[j][i];
        if i < |m| - 1 {
          assert s[j][i] == t[j][i + 1] == m[i + 1][j];
        }
      }
    }
  }

  /** The window after a run of readings rows: each row shifts the oldest out. */
  function ShiftAll(m: seq<seq<real>>, rows: seq<seq<real>>): (w: seq<seq<real>>)
    requires |m| > 0
    ensures |w| == |m|
    decreases |rows|
  {
    if rows == [] then m else ShiftAll(m[1..] + [rows[0]], rows[1..])
  }

  /** The window always holds the newest |m| rows of what it started with
      followed by the readings rows, so once |m| callbacks have run it holds
      exactly the last |m| readings rows. */
  lemma {:induction false} ShiftAllWindow(m: seq<seq<real>>, rows: seq<seq<real>>)
    requires |m| > 0
    ensures ShiftAll(m, rows) == (m + rows)[|rows|..]
    ensures |rows| >= |m| ==> ShiftAll(m, rows) == rows[|rows| - |m|..]
    decreases |rows|
  {
    if rows != [] {
      var m', rest := m[1..] + [rows[0]], rows[1..];
      ShiftAllWindow(m', rest);
      assert m' + rest == (m + rows)[1..];
      assert ((m + rows)[1..])[|rest|..] == (m + rows)[|rows|..];
    }
    assert |rows| >= |m| ==> (m + rows)[|rows|..] == rows[|rows| - |m|..];
  }

  /** Once as many readings rows as the window holds have arrived, each
      probe's average depends only on them: if probe c read x in each of
      them, its average is x, whatever the window held before. */
  lemma SettledAverage(m: seq<seq<real>>, rows: seq<seq<real>>, c: nat, x: real)
    requires |m| > 0 && |rows| >= |m|
    requires forall i :: 0 <= i < |rows| ==> c < |rows[i]| && rows[i][c] == x
    ensures forall i :: 0 <= i < |ShiftAll(m, rows)| ==> c < |ShiftAll(m, rows)[i]|
    ensures ColumnMean(ShiftAll(m, rows), c) == x
  {
    ShiftAllWindow(m, rows);
    var w := ShiftAll(m, rows);
    assert forall i :: 0 <= i < |w| ==> w[i] == rows[|rows| - |m| + i];
    ColumnMeanConstant(w, c, x);
  }

  /** Sum of column c over rows [0, n). */
  function ColumnSum(m: seq<seq<real>>, c: nat, n: nat): real
    requires n <= |m| && forall i :: 0 <= i < |m| ==> c < |m[i]|
  {
    if n == 0 then 0.0 else ColumnSum(m, c, n - 1) + m[n - 1][c]
  }

  /** Mean of column c over all rows. */
  function ColumnMean(m: seq<seq<real>>, c: nat): real
    requires |m| > 0 && forall i :: 0 <= i < |m| ==> c < |m[i]|
  {
    ColumnSum(m, c, |m|) / |m| as real
  }

  /** MovingAverage: the column sum over all rows divided by the row count. */
  method MovingAverage(data: seq<seq<real>>, colIndex: nat) returns (sum: real)
    requires |data| > 0 && forall i :: 0 <= i < |data| ==> colIndex < |data[i]|
    ensures sum == ColumnMean(data, colIndex)
  {
    sum := 0.0;
    var i := 0;
    while i < |data|
      invariant 0 <= i <= |data|
      invariant sum == ColumnSum(data, colIndex, i)
    {
      sum := sum + data[i][colIndex];
      i := i + 1;
    }
    sum := sum / |data| as real;
  }

  lemma {:induction false} ColumnSumConstant(m: seq<seq<real>>, c: nat, n: nat, x: real)
    requires n <= |m| && forall i :: 0 <= i < |m| ==> c < |m[i]|
    requires forall i :: 0 <= i < n ==> m[i][c] == x
    ensures ColumnSum(m, c, n) == n as real * x
  {
    if n > 0 {
      ColumnSumConstant(m, c, n - 1, x);
    }
  }

  /** A probe whose reading is x in every row of the window averages to x. */
  lemma ColumnMeanConstant(m: seq<seq<real>>, c: nat, x: real)
    requires |m| > 0 && forall i :: 0 <= i < |m| ==> c < |m[i]|
    requires forall i :: 0 <= i < |m| ==> m[i][c] == x
    ensures ColumnMean(m, c) == x
  {
    ColumnSumConstant(m, c, |m|, x);
  }

  lemma {:induction false} ColumnSumBounds(m: seq<seq<real>>, c: nat, n: nat, lo: real, hi: real)
    requires n <= |m| && forall i :: 0 <= i < |m| ==> c < |m[i]|
    requires forall i :: 0 <= i < n ==> lo <= m[i][c] <= hi
    ensures n as real * lo <= ColumnSum(m, c, n) <= n as real * hi
  {
    if n > 0 {
      ColumnSumBounds(m, c, n - 1, lo, hi);
      var k := (n - 1) as real;
      assert n as real * lo == k * lo + lo && n as real * hi == k * hi + hi;
    }
  }

  /** The average lies between the smallest and the largest reading in the window. */
  lemma ColumnMeanBounds(m: seq<seq<real>>, c: nat, lo: real, hi: real)
    requires |m| > 0 && forall i :: 0 <= i < |m| ==> c < |m[i]|
    requires forall i :: 0 <= i < |m| ==> lo <= m[i][c] <= hi
    ensures lo <= ColumnMean(m, c) <= hi
  {
    ColumnSumBounds(m, c, |m|, lo, hi);
    var n := |m| as real;
    assert n * lo / n == lo && n * hi / n == hi;
  }

  /** The first DataSize readings of a callback (`List_RMS_short7`). */
  method FirstReadings(listRms: seq<real>) returns (short: seq<real>)
    requires |listRms| >= DataSize
    ensures |short| == DataSize && short == listRms[..DataSize]
  {
    if |listRms| > DataSize {
      short := [];
      var i := 0;
      while i < DataSize
        invariant 0 <= i <= DataSize && short == listRms[..i]
      {
        short := short + [listRms[i]];
        i := i + 1;
      }
    } else {
      short := listRms;
    }
  }

  /** The reference channel after the clamp: every sample below ClampLevel is 0. */
  function Clamped(s: seq<real>): (r: seq<real>)
    ensures |r| == |s|
    ensures forall i :: 0 <= i < |s| ==> r[i] == (if s[i] < ClampLevel then 0.0 else s[i])
  {
    seq(|s|, i requires 0 <= i < |s| => if s[i] < ClampLevel then 0.0 else s[i])
  }

  /** After the clamp no sample is below ClampLevel, samples at or above it
      are untouched, and clamping again changes nothing. */
  lemma ClampedSpec(s: seq<real>)
    ensures forall i :: 0 <= i < |s| ==> Clamped(s)[i] >= ClampLevel
    ensures forall i :: 0 <= i < |s| && s[i] >= ClampLevel ==> Clamped(s)[i] == s[i]
    ensures Clamped(Clamped(s)) == Clamped(s)
  {
  }

  /** The clamp loop over the reference samples, in place. */
  method ClampReference(samplesCurr: array<real>)
    modifies samplesCurr
    ensures samplesCurr[..] == Clamped(old(samplesCurr[..]))
  {
    var i := 0;
    while i < samplesCurr.Length
      invariant 0 <= i <= samplesCurr.Length
      invariant samplesCurr[..i] == Clamped(old(samplesCurr[..]))[..i]
      invariant samplesCurr[i..] == old(samplesCurr[..])[i..]
    {
      if samplesCurr[i] < ClampLevel {
        samplesCurr[i] := 0.0;
      }
      i := i + 1;
    }
  }
}
