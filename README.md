# Multiplexed probe RMS acquisition — verified model

The modelled program reads two analog channels from a data-acquisition
device. The primary channel carries the voltage of several probes that a
multiplexer switches through in turn. The reference channel carries the
current. Each probe's RMS voltage (or voltage/current ratio, "impedance")
is turned into a smoothed, bounded history per probe. There are two engines:

- **MainForm (seven probes).** Each acquisition callback works on one block
  of samples:
  - it finds the multiplexer's quiet control gap (a run of 10 samples below
    0.05 V in absolute value);
  - it corrects the gap's position when the gap is too close to the right
    edge of the block;
  - it cuts the block into 400-sample probe segments, to the right of the
    gap and, starting 200 samples before it, to the left;
  - it takes each segment's RMS over its usable 200 samples;
  - it builds the "split" probe from the two 50-sample-chunk tails;
  - it lays the readings out as forward ++ [split] ++ reverse(backward) and
    keeps the first seven;
  - it shifts them into a smoothing matrix with a transpose / drop-oldest /
    append / transpose step, averages each probe's column, and pushes the
    averages onto seven capacity-200 histories;
  - last, it clamps reference samples below -6 to 0.

  Start appends seven zero rows to the smoothing matrix, and a check box
  switches between voltage and impedance readings.
- **main (eight probes).** On every "N samples read" event it takes the RMS
  of the last 50 primary samples, appends it to the history of the probe the
  multiplexer is on, and advances the probe counter 1 .. 8 with wrap-around.
  The stored RMS field is never reset, so it is carried into the next sum.

Modules:
- `Rms`: square root, sums of squares, mean squares.
- `Fifo`: the capacity-200 history lists and their plot coordinates.
- `FrameLocator`: the gap search and the edge correction.
- `Segmenter`: a specification of the batches, the tails, the merge and the
  layout, as functions.
- `Extraction`: the source's loops as methods, each proved against the
  `Segmenter` functions.
- `Smoothing`: transpose, shift, moving average, truncation and clamp.
- `MainFormModel`: the class `MainForm`.
- `MainModel`: the class `Main`.

The model follows these facts of the code:
- The anchor the segmenter starts from (`index_control`) is taken after the
  edge correction.
- The merge tests the right tail's RMS value, not whether any chunk was
  taken.
- A backward batch sums the samples `index-249 .. index-50`, both inclusive.
- Start never clears the smoothing matrix or the histories. After k starts
  the matrix has 7k rows and every average runs over 7k callbacks.

The windows a block is cut into never overlap and stay inside the block.
They do not cover it, though: the cut-offs of every batch, the 200-sample
control gap, the first samples of the block below the left tail and the
last samples after the right tail are never read.

## Model

| member | source | states |
|---|---|---|
| Rms.Sqrt | MainForm.cs:820-823 | the root of a non-negative value is non-negative and is zero exactly when the value is zero |
| Rms.BisectBrackets | MainForm.cs:820-823 | while the square root's bisection keeps x between lo² and hi², its answer r satisfies x <= r² |
| Rms.SqrtSquaresAbove | MainForm.cs:820-823 | the root of a non-negative value squares to at least that value |
| Rms.SumSquaresPrepend | MainForm.cs:878-883 | summing squares from the top of a range down gives the same sum as from the bottom up |
| Rms.MeanSquareConstantAmplitude | MainForm.cs:814-821 | over a range where every sample has amplitude \|a\|, the mean square is a² |
| Fifo.Push | MainForm.cs:1043-1051 | one history update keeps at most 200 entries, ends with the new value and equals the newest 200 of the old list plus the value |
| Fifo.PushAllKeepsNewest | MainForm.cs:1043-1051 | after any run of updates the history holds exactly the last 200 values, in arrival order |
| Fifo.OverflowEvictsFirst | MainForm.cs:1043-1051 | the 201st value leaves the length at 200 and evicts the first value |
| Fifo.PlotX | MainForm.cs:1053-1056 | the plotted x-coordinate ((i+1)/count)/2 lies in (0, 0.5] and is 0.5 exactly for the last entry |
| Fifo.PlotXIncreasing | main.cs:824-829 | plotted x-coordinates strictly increase along the history |
| FrameLocator.LastQuietStart | MainForm.cs:742-761 | the result is -1 exactly when no start up to top has a quiet run; otherwise it starts a quiet run and no larger start up to top does |
| FrameLocator.FindQuietRun | MainForm.cs:742-761 | the nested scan with its two breaks returns the last sample of the rightmost quiet run, or -1 |
| FrameLocator.LocateGap | MainForm.cs:739-761 | the scan over the whole block returns the gap anchor |
| FrameLocator.CorrectEdge | MainForm.cs:778-803 | an anchor beyond N-200 is replaced by the anchor of the rightmost quiet run starting below 200, if there is one; otherwise it is kept |
| FrameLocator.GapAnchorSpec | MainForm.cs:737-761 | the anchor is -1 iff no start i with i+10 < N has 10 quiet samples; otherwise 9 <= anchor <= N-2, samples anchor-9 .. anchor are quiet, and no later run is |
| FrameLocator.SyncAnchorSpec | MainForm.cs:778-806 | index_control is -1 or ends a quiet run; an anchor at or below N-200 is kept; an anchor beyond N-200 is replaced by the end of the rightmost quiet run starting below 200 when there is one, and kept when there is none |
| Segmenter.Reverse | MainForm.cs:942 | the reversed list has the same length, with element k equal to element len-1-k |
| Segmenter.Readings | MainForm.cs:824-832 | one reading per segment: the primary RMS in voltage mode, else primary/reference |
| Segmenter.ForwardCount | MainForm.cs:810-836 | forward batches run exactly while index + 400 <= N |
| Segmenter.BackwardCount | MainForm.cs:874-899 | backward batches run exactly while index > 400 |
| Segmenter.ForwardBatchIsWindowRms | MainForm.cs:814-823 | forward batch k sums exactly 200 in-bounds samples [a+400k+150, a+400k+350), so the divisor 200 makes it that window's RMS |
| Segmenter.BackwardBatchIsWindowRms | MainForm.cs:878-887 | backward batch k sums exactly 200 in-bounds samples, from index-249 to index-50, so it is that window's RMS |
| Segmenter.ForwardBatchOfConstantAmplitude | MainForm.cs:814-823 | a forward batch over samples of constant amplitude \|v\| reports Sqrt(v²), which squares to at least v² |
| Segmenter.RightTailCount | MainForm.cs:852-861 | right-tail chunks are taken exactly while index < N-50 |
| Segmenter.LeftTailCount | MainForm.cs:907-916 | left-tail chunks are taken exactly while index >= 50 |
| Segmenter.MergeSplit | MainForm.cs:930-939 | a zero right-tail RMS takes the left tail; a non-zero right tail with a zero left tail is kept; otherwise each channel is the midpoint of the two tails |
| Segmenter.MergeWithEmptyTail | MainForm.cs:930-939 | a tail with no chunk has RMS 0, so an empty right tail takes the left tail and an empty left tail keeps a non-zero right tail |
| Segmenter.MergeTestsRmsNotCount | MainForm.cs:930-934 | a right tail of any length whose primary samples are all zero is replaced by the left tail |
| Segmenter.SegmentLayout | MainForm.cs:942-953 | the segment list has #forward + 1 + #backward entries: forward batches in order, then the split, then the backward batches reversed |
| Segmenter.SegmentReadings | MainForm.cs:942-953 | for any anchor, the readings of the segment list split into the forward, split and reversed backward readings |
| Segmenter.SegmentWindows | MainForm.cs:810-923 | every window of a block lies inside it; forward windows and then the right tail lie at or above anchor+150 in increasing order; backward windows and then the left tail lie below it in decreasing order, so no two overlap |
| Segmenter.ReadingsOfLayout | MainForm.cs:942-953 | reducing segments to readings commutes with the forward ++ [split] ++ reverse(backward) layout |
| Extraction.SquaresUp | MainForm.cs:814-819 | the upward summing loop extends both channels' sums of squares from [base, lo) to [base, hi) |
| Extraction.SquaresDown | MainForm.cs:878-883 | the downward summing loop extends both channels' sums of squares from [hi, top) to [lo, top) |
| Extraction.ForwardSegments | MainForm.cs:810-836 | the forward loop's readings are those of the specified forward batches, and index ends at anchor + 400·count |
| Extraction.RightChunkSums | MainForm.cs:851-861 | the chunk loop takes 50 samples at a time exactly while index < N-50; the count is index - start, and the sums are those of [start, index), or 0 when nothing was taken |
| Extraction.TailRoots | MainForm.cs:862-868 | the sums are divided by the sample count only when it is non-zero, then rooted; each root is non-negative and zero exactly when its sum is zero |
| Extraction.RightTail | MainForm.cs:838-868 | the right-tail loop takes a multiple of 50 in-bounds samples and yields their RMS, or Sqrt(0) on both channels when none were taken |
| Extraction.BackwardSegments | MainForm.cs:871-899 | the backward loop's readings are those of the specified backward batches, and index ends at start - 400·count |
| Extraction.LeftChunkSums | MainForm.cs:903-916 | the chunk loop takes 50 samples at a time below its start exactly while index >= 50; the count is start - index, and the sums are those of [index, start), or 0 when nothing was taken |
| Extraction.LeftTail | MainForm.cs:900-923 | the left-tail loop takes a multiple of 50 in-bounds samples below its start and yields their RMS, or Sqrt(0) when none were taken |
| Extraction.ForwardPass | MainForm.cs:806-868 | the forward batches and the right tail starting 150 past them are the block's specified forward readings and right tail |
| Extraction.BackwardPass | MainForm.cs:871-923 | the backward batches and the left tail ending 50 below them are the block's specified backward readings and left tail |
| Extraction.BlockLayout | MainForm.cs:942-953 | a block's readings are the forward readings, then the split segment's reading, then the backward readings reversed; in impedance mode every part has non-zero references |
| Extraction.ExtractReadings | MainForm.cs:737-806 | List_RMS is the readings of SegmentRms at the corrected anchor |
| Extraction.AnchoredReadings | MainForm.cs:808-953 | for any index_control in [-1, N), the passes build exactly the readings of SegmentRms at that anchor, with every sample read in bounds |
| Smoothing.Transposed | MainForm.cs:1253-1273 | entry (j, i) of the transpose is entry (i, j) of the matrix, and its rows have the matrix's row count |
| Smoothing.Transpose | MainForm.cs:1253-1273 | the nested loops build the transpose, with the column count taken from row 0 |
| Smoothing.TransposedTwice | MainForm.cs:1006-1017 | transposing a rectangular matrix twice gives it back |
| Smoothing.ShiftThroughTranspose | MainForm.cs:1006-1017 | transpose, drop each row's first entry and append the reading, transpose back: row k becomes old row k+1 and the last row is the new readings |
| Smoothing.ShiftAllWindow | MainForm.cs:1006-1017 | after any run of readings rows the matrix holds the newest \|m\| rows of old ++ new, and so only readings once \|m\| have arrived |
| Smoothing.SettledAverage | MainForm.cs:1006-1025 | once as many rows as the matrix holds have arrived with probe c reading x, probe c's average is x |
| Smoothing.MovingAverage | MainForm.cs:1242-1251 | the loop returns the column's sum over all rows divided by the row count |
| Smoothing.ColumnMeanConstant | MainForm.cs:1242-1251 | a column that is x in every row averages to x |
| Smoothing.ColumnMeanBounds | MainForm.cs:1242-1251 | a column's average lies between any lower and upper bound of its entries |
| Smoothing.FirstReadings | MainForm.cs:989-1004 | List_RMS_short7 is the first 7 readings, whether the list is longer than 7 or exactly 7 long |
| Smoothing.Clamped | MainForm.cs:1190-1197 | each reference sample below -6 becomes 0 and the others are kept |
| Smoothing.ClampedSpec | MainForm.cs:1190-1197 | after the clamp no sample is below -6, samples at or above -6 are unchanged, and clamping twice equals clamping once |
| Smoothing.ClampReference | MainForm.cs:1190-1197 | the in-place loop leaves the array equal to the clamp of its old contents |
| MainFormModel.PushEach | MainForm.cs:1036-1188 | history j takes the averaged value j, and only that |
| MainFormModel.MainForm.constructor | MainForm.cs:134-153 | the form starts stopped, in impedance mode, with an empty matrix, no averages and seven empty histories |
| MainFormModel.MainForm.StartButtonClick | MainForm.cs:607-632 | when stopped, 7 zero rows of width 7 are appended to the matrix and 7 zeros to the averages, without clearing; it runs if the device was configured; when running, nothing changes |
| MainFormModel.MainForm.StopButtonClick | MainForm.cs:1276-1285 | the task stops and no other state changes |
| MainFormModel.MainForm.ToggleUseRms | MainForm.cs:1341-1353 | the mode flips between voltage and impedance and no other state changes |
| MainFormModel.MainForm.ShiftReadings | MainForm.cs:1006-1017 | the matrix loses its oldest row and gains the 7 new readings as its last row |
| MainFormModel.MainForm.UpdateAverages | MainForm.cs:1020-1025 | averages 0..6 become the column means of the matrix; entries past 7 are untouched |
| MainFormModel.MainForm.UpdateHistories | MainForm.cs:1036-1188 | each of the 7 histories takes its probe's new average and stays within 200 entries |
| MainFormModel.MainForm.AnalogInCallback | MainForm.cs:691-1201 | a callback while running shifts the first 7 block readings into the matrix, sets averages 0..6 to its column means, pushes them onto the histories and clamps the reference channel; while stopped, nothing changes |
| MainModel.NextProbe | main.cs:1040-1044 | the probe counter stays in 1..8 and advances by one, with 8 wrapping to 1 |
| MainModel.AdvanceIsModular | main.cs:1040-1044 | after k events the counter is (start-1+k) mod 8 + 1 |
| MainModel.ProbeCycle | main.cs:1040-1044 | 8 consecutive events visit 8 different probes and the counter then returns to its start |
| MainModel.BatchUpdateFromZero | main.cs:800-808 | from a zero carry the stored value is the RMS of the last 50 samples |
| MainModel.BatchUpdateZero | main.cs:800-808 | the stored value is zero exactly when the carry and the window's sum of squares are both zero |
| MainModel.SilentWindow | main.cs:800-808 | a window of 50 zero samples has a zero sum of squares |
| MainModel.CarryLeaks | main.cs:800-808 | after a non-zero value, a block whose last 50 samples are all zero still reads non-zero |
| MainModel.Main.constructor | main.cs:139-159 | the counter starts at probe 1 with a zero stored RMS and eight empty histories |
| MainModel.Main.EveryNSamplesRead | main.cs:727-1056 | the stored RMS becomes Sqrt((carry + Σ of the last 50 squares)/50), only the current probe's history takes it (within 200 entries), and the counter advances |

## Left out

- User interface: chart series, clearing and plotting points, titles, button
  enabling and the designer code. Only the plot x-coordinate is modelled.
- The data-acquisition driver is not modelled: task and channel creation,
  the asynchronous and synchronous reads, and callback threading. A block
  arrives as the callback's arguments. The device's acceptance of the
  configuration is the `configured` parameter of Start. The driver exception
  paths are not modelled beyond that.
- Serial-port writes of the probe number, and the text-file writes of the
  readings and of the stored RMS. Their failures are not modelled. A failing
  StreamWriter at MainForm.cs:1029 throws past the callback, which skips the
  history update, the clamp and the re-arm of the next read at
  MainForm.cs:1221. A failing `port.Write` at main.cs:979, or a failing `File.Open` at
  main.cs:993, skips the counter advance.
- The commented-out FFT filtering in main.cs and its threshold slider are
  dead code built on a foreign library.
- Console diagnostics.
- Rms.Sqrt: a 52-step bisection stands in for the math library's square root.
  Its contract states only non-negativity and the zero case. Rms.SqrtSquaresAbove
  adds that the root squares to at least its argument. No upper error bound
  is stated.
  Floating-point rounding, NaN and infinity are not modelled. Samples are
  `real`, so a zero reference in impedance mode is a precondition, not a
  NaN or an infinity.
- Smoothing.MovingAverage: requires a non-empty matrix, where the source
  would divide by zero and return NaN. While running the matrix always has
  at least 7 rows.
- MainFormModel.MainForm.AnalogInCallback: requires a block whose segmenting
  yields at least 7 readings and a non-empty sample array. With fewer
  readings, or an empty block, the source throws an unhandled index
  exception.
- MainModel.Main.EveryNSamplesRead: requires at least 50 samples. With fewer,
  the source reads before index 0 and throws.
- MainModel.BatchUpdateZero: the zero case is stated on the window's sum of
  squares. The step to "every sample in the window is zero" is proved only
  in the direction from silent samples to a zero sum (MainModel.SilentWindow).
