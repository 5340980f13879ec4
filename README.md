# Measurement reduction of an attenuator test bench

This project models `measureresult.py`, the data-reduction core of a bench that tests a
64-state digital step attenuator with a vector network analyser. The core:

- receives the raw S-parameter sweeps of every attenuator state. In adjust mode it reads
  a stored calibration set from one of three temperature-corner directories instead;
- de-interleaves the sweeps into the frequency axis and the S11, S21 and S22 magnitude curves;
- reduces the curves:
  - VSWR at the input and the output;
  - the S21 error of each state against the mean over states;
  - the RMS error at each frequency point;
  - the worst-case S21 loss at three border frequencies;
  - the passband edges where the worst-case S21 stays above the `kp` level;
- reports the results through the `stats` text.

Modules:

| file | module | contents |
|---|---|---|
| `outcomes.dfy` | `Outcomes` | the exceptions the code can raise, as a `Status`/`Result` error value |
| `real_seqs.dfy` | `RealSeqs` | sums and means, `min`, `zip(*curves)`, slicing and `list.index`, with Python's semantics |
| `curves.dfy` | `Curves` | the module-level helpers `calc_vswr` … `_find_freq_index`, as pure functions |
| `passband.dfy` | `Passband` | `groupby`-based passband edge search of `_cal_s21_worst_loss` |
| `reduction.dfy` | `Reduction` | buffer blocks, the S21 error and RMS reduction, the border statistics |
| `calibration.dfy` | `Calibration` | state selection, `.s2p` row parsing and the file loop of `_load_ideal` |
| `measure_result.dfy` | `MeasureResults` | the `MeasureResult` class: its fields, setters and reduction steps, as methods |

Python exceptions become values:

- each step that can raise returns a `Status` (`Done` or `Raised(error)`);
- the pure helpers return a `Result`;
- fields assigned before an exception keep their new values, as in the code.

The transcendental functions are parameters of type `MathLib`: `pow(10, x / 20)`, `math.sqrt` and
`round(x, 2)`. Where the square root's meaning matters, a lemma assumes it through
`SqrtSound`: the root is non-negative and zero only at zero.

The random draws of `_adjust_data` are a `Draws` parameter. The calibration directory is a map
from (directory, state) to the file's lines, already split into numbers.

### Quirks of the code that the model keeps

Each of these is behaviour of the code as written. The model reproduces it:

- `_init` does not reset `ready`. A run that fails after an earlier success leaves the
  object truthy. Steps that raise keep the fields they had already assigned.
- Ingest slices each buffer with Python's clipping slices. A buffer shorter than `9 * points` gives
  short or empty blocks, and nothing is raised (`Reduction.BlockLength`).
- In adjust mode `_process` always raises. A 0 dB point in S11 or S22 raises ZeroDivisionError
  at the VSWR conversion (lines 107-108). Otherwise `_adjust_data('err')` raises, because it
  reads `_s21s_ph_err`, which is never assigned. So a calibration run never sets `ready`
  itself; an object that was already ready stays ready, since `_init` keeps it. `Process` and
  `SetRawData` state this.
- The S21 RMS step appends to the list that `_init` cleared, one value per frequency point.
- The border midpoint uses `abs(...) // 2` in `_calc_stats` but `(high - low) // 2` in
  `stats`. The two differ when the borders are reversed (`Reduction.MidIndexReversedExample`).
- The passband edges are looked up by value, with `mins.index`, rather than by the position of
  the chosen run. An edge can therefore come from an earlier run holding the same value
  (`Passband.ChooseEdgesCollapses`, `Passband.ChooseEdgesCrosses`).
- The border fallback at line 176 applies when the number of passing runs equals the number
  of axis points, `len(freqs)`, not the number of worst-case values.
  - The run count is below the number of worst-case values when there are at least two
    (`Passband.NoFallbackOnLongAxis`).
  - The S21 curves are never longer than the axis, both after ingest
    (`MeasureResults.IngestedAxisCoversS21`) and after a calibration load
    (`MeasureResults.LoadedAxisCoversS21`).
  - So on those paths the fallback is taken only on a single-point axis. When the lookups
    succeed, the edge step always finishes (`Passband.WorstLossFinishes`,
    `MeasureResults.IngestedEdgesFinish`).
- The `stats` template names `curr`, which is defined nowhere. Once its lookups succeed,
  the property raises `NameError`, so the report text is never produced.

## Model

| member | source | states |
|---|---|---|
| Curves.CalcVswr | measureresult.py:7-13 | succeeds exactly when no point converts to linear 1 (else ZeroDivision); same length; each result maps back to its linear magnitude under the reflection formula |
| Curves.VswrRoundTrip | measureresult.py:7-13 | VSWR of a reflection r != 1 is never -1, and converting back gives r |
| Curves.VswrPole | measureresult.py:7-13 | a 0 dB point (linear 1) makes the whole conversion raise ZeroDivision |
| Curves.VswrIncreasing | measureresult.py:7-13 | VSWR is at least 1 and strictly increasing for reflections in [0, 1) |
| Curves.CalcError | measureresult.py:16-17 | result is as long as the shorter input, and each value plus the reference gives back the curve value |
| Curves.CalcRmseAmp | measureresult.py:20-21 | raises ZeroDivision exactly on no values; with a sound root the result is non-negative and zero exactly when every value is |
| Curves.ShiftRoundTrip | measureresult.py:24-25 | shifting by d, then by -d, restores the values |
| Curves.ShiftMean | measureresult.py:24-25 | shifting moves the mean by the same amount |
| Curves.MulRoundTrip | measureresult.py:28-29 | scaling by a non-zero factor, then by its inverse, restores the values |
| Curves.MulSum | measureresult.py:28-29 | scaling scales the sum by the same factor |
| Curves.NearestIndex | measureresult.py:34 | returns the first index of minimal distance to the target |
| Curves.FindFreqIndex | measureresult.py:32-34 | on an empty axis, raises (`min` of an empty range); otherwise returns the first index nearest to the target converted from GHz to Hz |
| Curves.NearestUnique | measureresult.py:32-34 | at most one index is the first nearest one: the result is determined |
| Curves.EarlierIsFarther | measureresult.py:34 | no index before the chosen one is nearest (ties go to the first) |
| Curves.FindFreqIndexExamples | measureresult.py:32-34 | concrete lookups: the nearest point, and the ends of the axis for targets beyond it |
| RealSeqs.MinOf | measureresult.py:169 | `min` of a non-empty list is one of its values and no larger than any |
| RealSeqs.Transpose | measureresult.py:158 | `zip(*curves)` has one column per point up to the shortest curve, and none for no curves |
| RealSeqs.Slice | measureresult.py:241 | Python slicing clips to the list and never fails |
| RealSeqs.IndexOf | measureresult.py:179-180 | `list.index` returns the first position holding the value |
| RealSeqs.SumSqZeroIff | measureresult.py:21 | a sum of squares is non-negative and zero exactly when every value is |
| RealSeqs.MeanSquareZeroIff | measureresult.py:21 | the same for the mean square |
| Reduction.Block | measureresult.py:241 | block k of a buffer holds the values at offsets k * points + i, clipped: exactly `points` of them, or all up to the buffer's end, or none when the buffer ends before the block |
| Reduction.BlockNoLongerThanAxis | measureresult.py:241-242 | no block of a buffer is longer than its block 0, the frequency axis |
| Reduction.BlockLength | measureresult.py:241 | a full buffer gives full blocks; a short one gives empty blocks from where it ends |
| Reduction.BlockOfEach | measureresult.py:239-249 | one block per buffer, in buffer order |
| Reduction.VswrCurves | measureresult.py:121-125 | succeeds exactly when no point of any curve is a pole; then each curve converts on its own |
| Reduction.Means | measureresult.py:128 | one mean per point of `zip(*s21s)`, the mean of that column |
| Reduction.S21Errors | measureresult.py:127-129 | one error curve per state, as long as `zip(*s21s)`; error plus mean gives back the S21 value |
| Reduction.ErrorsSumToZero | measureresult.py:127-129 | at every point the errors of all states sum to zero |
| Reduction.ErrorsZeroIff | measureresult.py:127-129 | all errors at a point are zero exactly when every state agrees there |
| Reduction.IdenticalStatesZeroErrors | measureresult.py:127-129 | identical states give zero errors everywhere |
| Reduction.ShiftKeepsErrors | measureresult.py:141-143 | the adjust-mode S21 shift leaves the errors unchanged |
| Reduction.TupleCount | measureresult.py:133 | `zip(*errs, means)` yields exactly as many tuples as its shortest argument: no more than any, and as many as the means or one error curve; all the means when there are no error curves |
| Reduction.RmseValues | measureresult.py:131-134 | raises ZeroDivision exactly when there are means but no error curves; otherwise one RMS per tuple, of that point's errors |
| Reduction.RmseOfErrorsDefined | measureresult.py:127-134 | on the errors of `_calc_s21_err`, the RMS step never raises and gives one value per point |
| Reduction.RmseOfErrors | measureresult.py:127-134 | each of those values is non-negative and zero exactly when all states agree at the point |
| Reduction.MidIndexBetween | measureresult.py:156 | the midpoint lies between ordered borders and rounds down; for reversed borders it differs from the report's midpoint, which stays between them |
| Reduction.MidIndexReversedExample | measureresult.py:156 | reversed borders (9, 0) give 13 for the statistics and 4 for the report |
| Reduction.BorderMins | measureresult.py:158-159 | succeeds exactly when the three indices are inside `zip(*s21s)` (else IndexError); the worst-case S21 at each |
| Reduction.BorderStats | measureresult.py:152-159 | the missing keys and the empty axis raise in source order; each index assigned is the nearest to its border; with both keys and a non-empty axis both indices are assigned, and the step finishes exactly when BorderMins succeeds on them, storing the minima |
| Calibration.SelectedStatesSpec | measureresult.py:186-188 | a state is read exactly when it is below 64 and selected, in ascending order |
| Calibration.MainStatesAscending | measureresult.py:44 | the main states are ascending and below 64 |
| Calibration.MainSelection | measureresult.py:44 | restricting to main states reads exactly the main-state list, in order |
| Calibration.FullSelection | measureresult.py:186 | otherwise all states 0 to 63 are read, in order |
| Calibration.FirstStateSelected | measureresult.py:186-188 | state 0 is always read, so `fs` is always bound at line 217 |
| Calibration.DataRows | measureresult.py:200 | the first five lines are dropped; the rest are kept in order |
| Calibration.HeaderIgnored | measureresult.py:200 | the header lines' content does not affect what is read |
| Calibration.ParseRows | measureresult.py:200-211 | fails exactly on a row without nine fields; otherwise columns 0, 1, 3 and 7 give the axis and the S11, S21 and S22 curves |
| Calibration.ReadRows | measureresult.py:190-211 | the row loop computes exactly ParseRows of the data rows |
| Calibration.ReadState | measureresult.py:189-211 | a missing file raises for that state; a present file is read exactly when all its data rows have nine fields, giving ParseRows of them, and otherwise raises for that state |
| Calibration.RunFailsAt | measureresult.py:186-213 | a failure at a selected state is the outcome of the whole run |
| Calibration.RunCompletes | measureresult.py:186-217 | a run without failure has read at least one sweep, so the axis is bound |
| Calibration.LoadStates | measureresult.py:186-215 | reads states in order, keeping each sweep read; stops at the first failure, which is the failure of the next state |
| Calibration.LoadStatesSnoc | measureresult.py:186-215 | reading one more state after a failure changes nothing; otherwise it appends the sweep or records the failure |
| Calibration.FailureSticks | measureresult.py:186-215 | once a prefix of the states fails, reading further states gives the same outcome |
| Calibration.CompleteRunSizes | measureresult.py:186-215 | a run without failure holds eight sweeps with main states only, else 64 |
| MeasureResults.DeinterleavedFresh | measureresult.py:239-249 | after ingest from an empty object, curve j is block 1, 3 or 7 of buffer j, and the axis is block 0 of the last buffer (or empty) |
| MeasureResults.StoredRmse | measureresult.py:131-134 | after a successful reduction the RMS list holds one non-negative value per point, zero exactly where states agree |
| MeasureResults.StoredBorders | measureresult.py:152-182 | after a successful reduction the border indices are the nearest ones, the minima are their worst-case S21, and the edges are both n/a or neither |
| MeasureResults.SweepsSnoc | measureresult.py:213-215 | appending one file's curves appends them to each list |
| MeasureResults.IngestedAxisCoversS21 | measureresult.py:239-249 | after ingest, `zip(*s21s)` is no longer than the frequency axis |
| MeasureResults.IngestedEdgesFinish | measureresult.py:161-182 | after ingest, once the lookups succeed, the edge step finishes, and on an axis of two or more points the run count never triggers the fallback |
| MeasureResults.LoadedAxisCoversS21 | measureresult.py:184-217 | after a complete calibration load, `zip(*s21s)` is no longer than the last file's axis |
| MeasureResults.CalibratedFresh | measureresult.py:184-218 | from the cleared state in adjust mode, the calibration load leaves exactly the sweeps' curves, S21 shifted once every file was read, and the axis of the last file, or none after a failure |
| MeasureResults.BordersOutcomeIff | measureresult.py:115-117 | the border and edge steps finish together exactly when both succeed; what they raise is KeyError for Fborder1, Fborder2 or kp, the empty-axis ValueError or IndexError, and a missing Fborder1 comes out first |
| MeasureResults.ProcessOutcomeIff | measureresult.py:104-119 | on freshly computed errors, `_process` finishes exactly outside adjust mode when the curves convert and the statistics succeed; adjust mode raises ZeroDivision or AttributeError; every exception it lets through is one of its steps' |
| MeasureResults.AssignedThenStored | measureresult.py:114-117 | when the statistics succeed, the fields they assigned are the stored statistics |
| Passband.WorstCase | measureresult.py:169 | one value per point of `zip(*s21s)`, the minimum over states there |
| Passband.Groups | measureresult.py:170 | `groupby` splits the values into maximal runs of one pass/fail key whose concatenation is the input |
| Passband.RunsPass | measureresult.py:171 | every passing run is non-empty and holds only values above the level |
| Passband.NoRunsIff | measureresult.py:171-175 | there is no passing run exactly when no value exceeds the level |
| Passband.RunCountBound | measureresult.py:171 | passing runs alternate with failing ones, so there are at most (n + 1) / 2 of them |
| Passband.NoFallbackOnLongAxis | measureresult.py:176 | with no more worst-case values than axis points and at least two points, the run count is below the point count, so the fallback does not apply |
| Passband.ChosenRun | measureresult.py:177-178 | the chosen run is a longest one, and the first of that length |
| Passband.ChooseEdges | measureresult.py:171-180 | n/a exactly when no value passes; the borders when the run count equals the axis length; otherwise the first positions of the chosen run's first and last values |
| Passband.CollapsesGroups | measureresult.py:170-171 | [5, 5, -1, 5, 5] above 0 gives two passing runs of two |
| Passband.ChooseEdgesCollapses | measureresult.py:177-180 | there both edges land on index 0, because the second run's values occur earlier |
| Passband.CrossesGroups | measureresult.py:170-171 | [3, -1, 2, 3] above 0 gives runs [3] and [2, 3] |
| Passband.ChooseEdgesCrosses | measureresult.py:177-180 | there the lower edge is index 2 and the upper index 0: the edges cross |
| Passband.WorstLoss | measureresult.py:161-182 | the missing keys and the empty axis raise in source order; once the lookups succeed, follows ChooseEdges: n/a edges, both edges when both indices are inside the axis, else IndexError after the edges that were inside; both edges n/a or neither |
| Passband.WorstLossFinishes | measureresult.py:161-182 | when the lookups succeed and the S21 curves are no longer than the axis, the edge step finishes |
| Passband.WorstLossNoPassbandIff | measureresult.py:168-175 | the edges are n/a exactly when the worst-case S21 never exceeds `kp` |
| Passband.WorstLossEdgesPass | measureresult.py:176-182 | away from the fallback, each numeric edge is the rounded frequency of a point whose worst-case S21 exceeds `kp` |
| MeasureResults.MeasureResult.constructor | measureresult.py:46-79 | empty lists, both edges and border indices 0, the +25 corner, not ready, so the object is falsy |
| MeasureResults.MeasureResult.Init | measureresult.py:81-102 | lists emptied, edges 0, current 0; `ready` and the border indices keep their values |
| MeasureResults.MeasureResult.ClearCurves | measureresult.py:82-91 | the parameter map and every curve list are emptied |
| MeasureResults.MeasureResult.ClearStatistics | measureresult.py:93-97 | every statistics list is emptied |
| MeasureResults.MeasureResult.Ingest | measureresult.py:239-249 | each curve list gains one block per buffer, in order; the axis is block 0 of the last buffer, or unchanged for none |
| MeasureResults.MeasureResult.IngestBuffer | measureresult.py:240-249 | one buffer adds its blocks 1, 3 and 7 and replaces the axis with block 0 |
| MeasureResults.MeasureResult.CalcVswrIn | measureresult.py:121-122 | finishes exactly when S11 converts, storing the converted curves; otherwise ZeroDivision and the field unchanged |
| MeasureResults.MeasureResult.CalcVswrOut | measureresult.py:124-125 | the same for S22 |
| MeasureResults.MeasureResult.CalcS21Err | measureresult.py:127-129 | the error curves are S21Errors of the current S21 curves |
| MeasureResults.MeasureResult.CalcS21Rmse | measureresult.py:131-134 | finishes exactly when RmseValues is defined, appending its values; otherwise ZeroDivision and the list unchanged |
| MeasureResults.MeasureResult.AdjustData | measureresult.py:136-150 | "s21", "vswr" and "err" apply one draw to every curve of their kind; "err" then raises AttributeError; other words change nothing |
| MeasureResults.MeasureResult.CalcStats | measureresult.py:152-159 | stores what BorderStats assigns before it finishes or raises |
| MeasureResults.MeasureResult.CalcS21WorstLoss | measureresult.py:161-182 | stores what WorstLoss assigns before it finishes or raises |
| MeasureResults.MeasureResult.ReduceCurves | measureresult.py:105-113 | returns exactly CurvesOutcome: ZeroDivision at a VSWR pole of S11 or S22, else AttributeError in adjust mode (after shifting S21), else done; finished, the VSWR and error curves are reduced; on every path the curve fields hold what each step assigned before it stopped |
| MeasureResults.MeasureResult.ReduceStatistics | measureresult.py:114-119 | returns exactly StatisticsOutcome: ZeroDivision from the RMSE step, else the border statistics' exception, else the edge search's; finishes exactly when all three steps do and only then sets `ready`, with all three stored; on failure each statistics field holds what was assigned before the raise |
| MeasureResults.MeasureResult.BordersAndEdges | measureresult.py:115-117 | returns exactly BordersOutcome: the border statistics' exception, else the edge search's; finishes exactly when both steps do, storing their results; on a raise the border fields hold what BorderStats assigned and the edges are kept unless BorderStats finished |
| MeasureResults.MeasureResult.Process | measureresult.py:104-119 | returns exactly ProcessOutcome, the first step's exception: adjust mode always raises ZeroDivision or AttributeError; otherwise finishes exactly when the curves convert and the statistics succeed; `ready` is set only on success; on every path each curve and statistics field holds what was assigned before the first raise, or its old value |
| MeasureResults.MeasureResult.ReadStateFile | measureresult.py:189-211 | reads one state's file as ReadState specifies |
| MeasureResults.MeasureResult.LoadIdealCurves | measureresult.py:184-217 | appends the curves of every sweep read; raises the first failure, keeping the axis; otherwise the axis is the last file's |
| MeasureResults.MeasureResult.LoadIdeal | measureresult.py:184-218 | the file loop, then the reduction: a failed load raises its file error, a complete one the reduction's exact outcome, which in adjust mode is always raised; the curves and axis are the calibration sweeps' (S21 shifted in adjust mode), and the derived fields are unchanged after a failed load, else as the reduction assigned them |
| MeasureResults.MeasureResult.Reset | measureresult.py:227-233 | `_init`, then the ideal phase, parameters and currents are stored: every curve and statistics list empty, both edges 0; `ready` unchanged |
| MeasureResults.MeasureResult.IngestAndProcess | measureresult.py:239-250 | the curves gain the buffers' blocks; the result is exactly the reduction's outcome, which finishes exactly when the curves convert and the statistics succeed; on every path the derived fields hold what was assigned before the first raise |
| MeasureResults.MeasureResult.SetRawData | measureresult.py:224-250 | inputs stored; adjust mode always raises: the first calibration file error, else the reduction's exception, with the calibration sweeps loaded (S21 shifted once all files were read) and the derived fields empty or as the reduction assigned them; otherwise the curves are exactly the blocks of the buffers, the result is exactly the reduction's outcome (success is exactly conversion plus statistics), and on every path each derived field is empty or holds what was assigned before the first raise |
| MeasureResults.MeasureResult.SetAdjustSet | measureresult.py:280-282 | a known corner selects its directory; an unknown one raises KeyError and keeps the old directory |
| MeasureResults.MeasureResult.ReportInputs | measureresult.py:284-304 | the report's lookups, in order: a missing Fstat, an empty axis, out-of-range indices, an unset current, then a current that is not a pair; with everything in range, succeeds exactly when the current is a pair of readings; the values are the VSWR and S21 at the point nearest Fstat, the rounded border frequencies and the currents in mA |
| MeasureResults.MeasureResult.Stats | measureresult.py:284-332 | always raises: the first failing lookup, or NameError for `curr` |

## Left out

- `instrumentcontroller.py` (instrument control, sweeps, configuration files) is not part of this model.
- File opening and `float()` parsing are not modelled. A calibration file is given as rows of numbers, so a non-numeric field cannot occur. A row with the wrong field count is modelled (MalformedRow).
- Floating point is not modelled: values are reals. `pow(10, x / 20)`, `math.sqrt` and `round(x, 2)` are uninterpreted function parameters. So overflow, infinities and NaN are not modelled.
- Curves.CalcRmseAmp: the non-negativity and zero properties hold only under the assumption `SqrtSound` about the square root parameter. The `mean` argument, which the source ignores, is left out.
- Curves.CalcVswr: the division is by `1 - r` with `r` from the `dbToLinear` parameter. An `OverflowError` from `pow` cannot arise.
- The random draws of `_adjust_data` are a parameter. The random source and the ranges passed to `random.uniform` (measureresult.py:138, 142, 145-146) are not modelled. No property depends on them.
- `points` is a natural number. A negative `int(args[0])`, which Python would slice differently, is not modelled. `int()` conversion and the `list()`/`dict()` copies of the arguments are not modelled.
- `print` calls and the unused `headers` field are left out. So are the unused phase columns of the calibration files, and the `_ideal_phase` list beyond being stored.
- MeasureResults.MeasureResult.Stats: the formatted report text is not produced, because the source raises NameError before returning it. Only the lookups preceding the raise are modelled, in ReportInputs.
- The read-only properties `freqs`, `s21`, `vswr_in`, `vswr_out`, `s21_err`, `s21_rmse` and `adjust_set` are the class fields themselves. The `raw_data` getter returns the constant `True` (measureresult.py:220-222) and is not modelled.
- Python lists in fields are modelled as values. The aliasing of a caller's list stored in a field is not captured.
