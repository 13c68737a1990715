# OCT dispersion estimator: a verified model of its core

This project models the core of an OCTproZ extension that estimates numerical
dispersion-compensation coefficients. The extension grabs one raw frame from the
host. It cuts out the centre lines and processes them many times: once for each
candidate value of coefficient d2 (d3 held at 0), then once for each candidate
value of d3 (d2 held at the best d2). Each processed result is scored with an
A-scan sharpness metric. The best value of each coefficient is reported, along
with two preview A-scans: one without dispersion compensation and one with the
best coefficients.

The project has five modules:

- `Common` (Common.dfy): optional values, and the C++ unsigned and signed
  32-bit values with their casts. `LastIndex` models `static_cast<int>(count - 1)`,
  including its wrap-around at 0. It also holds bytes per sample.
- `Parameters` (Parameters.dfy): the estimator parameter record and the
  sharpness-metric enumeration, including values it does not recognise.
- `AscanMetric` (AscanMetric.dfy):
  - one specification function per metric: `SumAbove`, `CountAbove`, `Peak`,
    `MeanSobelOf`;
  - the whole-buffer `Metric`, a sum over whole lines after the ignored samples;
  - the four looping methods, each proved against its specification;
  - the calculator class, whose `CalculateMetric` loops over lines.
- `Controller` (Controller.dfy): the processor controller. It holds the
  processing settings record, its setters, and `ProcessData`. The spectral
  processor is an abstract function `ProcessFn` of the configuration it is built
  from, the raw bytes and the sample count. `ProcessData` flattens frame 0 of
  its output in a loop.
- `Engine` (Engine.dfy): the estimation engine.
  - Region extraction.
  - A sweep as a function `Sweep` of an abstract trial outcome (`TrialFn`).
    `Step` is one trial: a failure leaves the coefficient where it is; a success
    replaces the best only on a strictly greater metric, then advances.
  - The preview of the first centre line.
  - The whole estimation log, `EstimationLog`.
  - The engine class. Its methods keep the best fields, the controller's
    settings and an appended event log equal to those specifications.
- `Estimator` (Estimator.dfy): the extension object's single-fetch frame
  grabber.
  - `Received` specifies one raw buffer from the host, in stages: `Fetched`,
    `Refreshed`, `Stored`, `Prepared`, `CopiedFrame`.
  - The class `DispersionEstimator` holds the grabber's fields. Its
    `RawDataReceived` is proved to produce exactly that state and those signals.

Signals of the source are events appended, in order, to a log field.
Status-text signals become `Status` values, not strings.

Where the specification text and the code disagree, the model follows the code:

- A failed processing call does not advance the swept coefficient. The next
  trial retries the same value with the same settings, so, with the processor
  deterministic (see "Left out"), it fails again (`FailureIsSticky`); the sweep
  does not "continue to the next sample".
- Each trial is scored over every whole line of the processed output, not only
  the first line.
- Before the d3 sweep only the two best-metric values are reset. `bestD2` is
  kept and held as d2 for that sweep, and `bestD3` is not reset.

## Model

| member | source | states |
|---|---|---|
| Common.ToU64 | src/dispersionestimationengine.cpp:167 | `static_cast<size_t>` of an `int`: unchanged when non-negative, at least 2^64 - 2^31 when negative |
| Common.AsInt32 | src/dispersionestimator.cpp:140 | `static_cast<int>` of an unsigned value: in the `int` range and congruent to it modulo 2^32 |
| Common.LastIndex | src/dispersionestimator.cpp:137-138 | `static_cast<int>(count - 1)`: -1 for a count of 0, `count - 1` for a count up to 2^31 |
| Common.BytesPerSample | src/octprocessor/processorcontroller.cpp:106 | `ceil(bitDepth / 8)`: the fewest whole bytes that hold `bitDepth` bits |
| AscanMetric.Peak | src/ascanmetriccalculator.cpp:103-110 | the peak is at least 0, at least every sample, and is 0 or one of the samples |
| AscanMetric.CountAbove | src/ascanmetriccalculator.cpp:90-101 | the count of samples above the threshold is at most the line length |
| AscanMetric.MeanSobelOf | src/ascanmetriccalculator.cpp:112-128 | the mean absolute central difference is never negative |
| AscanMetric.CountAboveAll | src/ascanmetriccalculator.cpp:90-101 | the count equals the line length if and only if every sample is strictly above the threshold |
| AscanMetric.SumAboveExceedsCount | src/ascanmetriccalculator.cpp:77-101 | the sum above the threshold is at least count × threshold, and strictly more when anything is counted |
| AscanMetric.ThresholdSeesOnlyExceeding | src/ascanmetriccalculator.cpp:83 | samples at or below the threshold (equal ones included) change neither the sum nor the count |
| AscanMetric.MeanSobelOfRamp | src/ascanmetriccalculator.cpp:112-128 | on a linear ramp of slope s with at least three samples, the mean central difference is abs(s) |
| AscanMetric.MetricIgnoresPartialLine | src/ascanmetriccalculator.cpp:27-32 | only `size / samplesPerLine` whole lines are scored; dropping a trailing partial line leaves the metric unchanged |
| AscanMetric.MetricOfAppendedLine | src/ascanmetriccalculator.cpp:32-72 | the metric is a sum: appending one whole line adds exactly that line's score, over its samples after the first `min(ignore, samplesPerLine)` |
| AscanMetric.UnrecognisedMetricIsZero | src/ascanmetriccalculator.cpp:66-68 | an unrecognised metric kind gives a total of 0 |
| AscanMetric.IgnoringWholeLinesIsZero | src/ascanmetriccalculator.cpp:36-46 | ignoring at least `samplesPerLine` samples gives a total of 0 |
| AscanMetric.ComputeSumAboveThreshold | src/ascanmetriccalculator.cpp:77-88 | the loop returns the sum of the samples strictly above the threshold |
| AscanMetric.ComputeNumberOfSamplesAboveThreshold | src/ascanmetriccalculator.cpp:90-101 | the loop returns the number of samples strictly above the threshold |
| AscanMetric.ComputePeakValue | src/ascanmetriccalculator.cpp:103-110 | the loop returns the running maximum that starts at 0 |
| AscanMetric.ComputeMeanSobel | src/ascanmetriccalculator.cpp:112-128 | 0 for fewer than three samples, otherwise the mean of the interior absolute central differences |
| AscanMetric.AscanMetricCalculator.Default | src/ascanmetriccalculator.cpp:5-9 | a default calculator uses the sum-above-threshold metric |
| AscanMetric.AscanMetricCalculator.constructor | src/ascanmetriccalculator.cpp:11-14 | the calculator holds the given parameters |
| AscanMetric.AscanMetricCalculator.SetParameters | src/ascanmetriccalculator.cpp:16-19 | the parameters are replaced wholesale |
| AscanMetric.AscanMetricCalculator.CalculateMetric | src/ascanmetriccalculator.cpp:21-75 | 0 for a non-positive line length or an empty buffer, otherwise the sum of the line scores (`Metric`) |
| AscanMetric.AscanMetricCalculator.LineMetric | src/ascanmetriccalculator.cpp:33-69 | the score, under the selected metric, of one line after its clamped ignored samples; 0 when nothing is left |
| Controller.ConfigIgnoresOnlyFramesPerVolume | src/octprocessor/processorcontroller.cpp:116-130 | the processor built on each call depends on every settings field except `framesPerVolume`, and on nothing carried over from an earlier call (the curve file it reads is taken as unchanged; see "Left out") |
| Controller.WithCoefficientsForgetsOld | src/octprocessor/processorcontroller.cpp:17-20 | after overwriting coefficients 2 and 3, their previous values do not matter |
| Controller.WithCoefficientsTwice | src/octprocessor/processorcontroller.cpp:17-20 | overwriting coefficients 2 and 3 twice is overwriting them once with the later values |
| Controller.TotalSamplesAreWhole | src/octprocessor/processorcontroller.cpp:106-107 | the sample count handed to the processor is the number of whole samples in the bytes |
| Controller.FlattenLength | src/octprocessor/processorcontroller.cpp:141-143 | concatenating spectra of equal length `len` gives `count × len` samples |
| Controller.FlattenAt | src/octprocessor/processorcontroller.cpp:141-143 | sample k of spectrum j sits at position `j × len + k` of the concatenation |
| Controller.ProcessorController.constructor | src/octprocessor/processorcontroller.cpp:8-11 | the controller starts with the given settings and processor |
| Controller.ProcessorController.SetProcessingSettings | src/octprocessor/processorcontroller.cpp:13-15 | the settings record is replaced wholesale |
| Controller.ProcessorController.SetDispersionCoefficients | src/octprocessor/processorcontroller.cpp:17-20 | coefficients 2 and 3 take the new values; every other coefficient and setting is unchanged |
| Controller.ProcessorController.LoadCustomResamplingCurveFromFile | src/octprocessor/processorcontroller.cpp:99-101 | only the curve's path changes |
| Controller.ProcessorController.ProcessData | src/octprocessor/processorcontroller.cpp:103-148 | success exactly when the processor's first frame is non-empty; then the output is the in-order concatenation of that frame's spectra, otherwise the output is untouched |
| Engine.CenterAscans | src/dispersionestimationengine.cpp:37 | the centre-line count is at most the frame's line count, and equals `min(numberOfCenterAscans, linesPerFrame)` for a non-negative request |
| Engine.OffsetAscans | src/dispersionestimationengine.cpp:45-48 | the centre region fits in the frame and is centred: the lines skipped before it are half the lines left out, rounded down |
| Engine.RegionWithinFrame | src/dispersionestimationengine.cpp:50-60 | the byte range `[offset × lineBytes, (offset + center) × lineBytes)` lies within the frame |
| Engine.ExtractRegion | src/dispersionestimationengine.cpp:56-60 | the extracted region is exactly `centerAscans × lineSizeBytes` bytes long |
| Engine.StepSize | src/dispersionestimationengine.cpp:70-71 | the step is non-negative, and `numberOfDispersionSamples` steps span `abs(end - start)` |
| Engine.TrialOn | src/dispersionestimationengine.cpp:110-126 | a trial has a score if and only if processing succeeds; with fewer than 2 samples per spectrum the half-spectrum line is empty and the score is 0 |
| Engine.StepIsAdvance | src/dispersionestimationengine.cpp:110-116 | a trial is one processing pass with the swept value and the held value in coefficients 2 and 3, in their places |
| Engine.CandidateIsLinear | src/dispersionestimationengine.cpp:135 | after i successful trials the swept value is `start + i × stepSize` |
| Engine.SweepCallCount | src/dispersionestimationengine.cpp:82-84 | a sweep of n trials calls the processor exactly n times |
| Engine.SuccessfulStep | src/dispersionestimationengine.cpp:129-142 | a successful trial emits its metric with the value it tried, then advances the value by the step |
| Engine.SweepWithoutFailures | src/dispersionestimationengine.cpp:82-84 | when every trial succeeds there are n emissions, and emission i is at `start + i × stepSize` with that value's metric |
| Engine.StepFacts | src/dispersionestimationengine.cpp:116-143 | by outcome: a failure keeps the value and the best; a success advances, and replaces the best pair only on a strictly greater metric |
| Engine.FailureIsSticky | src/dispersionestimationengine.cpp:116-121 | after a failed trial the value, the best and the emitted metrics stay as they were for the rest of the sweep |
| Engine.SweepBestBounds | src/dispersionestimationengine.cpp:129-143 | the best metric never falls below its start and bounds every emitted metric; every emission is about the swept coefficient |
| Engine.SweepBestIsEarliest | src/dispersionestimationengine.cpp:129-143 | a best above the start is an emitted (value, metric) pair, and no earlier emission reached it: on ties the earliest value wins |
| Engine.NoImprovementKeepsStart | src/dispersionestimationengine.cpp:63-66 | if no emitted metric exceeds the starting best, the best metric and the best value keep their starting values (0) |
| Engine.PreviewOffsetBytes | src/dispersionestimationengine.cpp:162-174 | below 2^31 lines per frame, the preview's byte offset is the extraction's centring offset `OffsetAscans(CenterAscans(…))` in whole lines, despite the 32-bit truncations |
| Engine.PreviewOn | src/dispersionestimationengine.cpp:177-185 | a preview exists only when one whole line fits at that offset, and there is none when it does not: the corrected empty-region guard (see "Findings") |
| Engine.PreviewStartsAtRegionStart | src/dispersionestimationengine.cpp:166-174 | with the prepared settings the preview's byte offset is 0: it processes the first line of the region |
| Engine.PreviewFitsNonEmptyRegion | src/dispersionestimationengine.cpp:177-180 | one line fits in the extracted region if and only if the region has at least one line, or lines are empty |
| Engine.EmptyRegionPreviewFails | src/dispersionestimationengine.cpp:177-185 | with 0 centre lines (and non-empty lines) the preview fails for every pair of coefficients: an empty A-scan and a failure status |
| Engine.SourcePreviewOverreadsEmptyRegion | src/dispersionestimationengine.cpp:177-180 | with 0 centre lines the region is empty, but the preview still takes 2048 bytes from it |
| Engine.AfterLoad | src/octprocessor/processorcontroller.cpp:22-97 | with no settings file the settings are unchanged; otherwise every field comes from the file, except `computeIFFT`, which is kept, and `autoComputeLogScaleMinMax`, which is switched off |
| Engine.EstimationContext | src/dispersionestimationengine.cpp:26-60 | the prepared settings carry the frame's dimensions and the centre-line count, and the region is that many lines long |
| Engine.DispersionEstimationEngine.constructor | src/dispersionestimationengine.cpp:5-15 | a fresh controller and calculator; all four best fields start at 0 |
| Engine.DispersionEstimationEngine.SetParams | src/dispersionestimationengine.cpp:17-19 | the parameters are replaced; the best fields and the log are unchanged |
| Engine.DispersionEstimationEngine.ProcessDispersionMetric | src/dispersionestimationengine.cpp:107-146 | sets the coefficients, then produces exactly one `Advance` of the trial's outcome: the events, the swept coefficient's best pair and the advanced value; the other coefficient's best is untouched |
| Engine.DispersionEstimationEngine.RecordMetric | src/dispersionestimationengine.cpp:129-143 | the best pair changes only on a strictly greater metric, the metric is emitted and the swept value advances |
| Engine.DispersionEstimationEngine.ProcessFirstLineOnly | src/dispersionestimationengine.cpp:148-198 | the coefficients stay set, `spectraPerFrame` and `framesPerVolume` are restored on every path, and the result is the preview A-scan, or empty with a failure status; it has the corrected empty-region guard, not the source's unchecked copy (see "Left out") |
| Engine.DispersionEstimationEngine.RunSweep | src/dispersionestimationengine.cpp:82-91 | one sweep loop leaves the best pair and the log exactly as `Sweep` specifies; the other coefficient's best is untouched |
| Engine.DispersionEstimationEngine.SweepTrial | src/dispersionestimationengine.cpp:83 | one loop iteration is one `Step` of the sweep |
| Engine.DispersionEstimationEngine.PrepareProcessing | src/dispersionestimationengine.cpp:26-40 | the loaded settings with log scaling set from `useLinearAscans`, the custom curve path when that option is on, and the region's dimensions |
| Engine.DispersionEstimationEngine.RunSweeps | src/dispersionestimationengine.cpp:62-91 | the d2 sweep with d3 held at 0, then the d3 sweep with d2 held at the best d2, both best metrics reset in between |
| Engine.DispersionEstimationEngine.ShowPreviews | src/dispersionestimationengine.cpp:93-97 | the preview without compensation, then the one with the best coefficients, each followed by its A-scan signal |
| Engine.DispersionEstimationEngine.StartDispersionEstimation | src/dispersionestimationengine.cpp:21-105 | the best d2 and d3 are those of the two sweeps, the controller keeps the best coefficients, and the log is exactly `EstimationLog` |
| Estimator.BytesPerFrame | src/dispersionestimator.cpp:147-148 | the frame size is `samplesPerLine × linesPerFrame × bytesPerSample` while the sample count fits 32 bits; that count wraps at 2^32, so the size never exceeds `(2^32 - 1) × bytesPerSample` |
| Estimator.FrameSizeWrapsAt32Bits | src/dispersionestimator.cpp:148 | a frame of 65536 lines of 65536 8-bit samples, no dimension zero, counts as 0 bytes |
| Estimator.ClampIndex | src/dispersionestimator.cpp:137-139 | the index is lowered to `static_cast<int>(count - 1)` when above it, and lies in `[0, count)` for a valid count |
| Estimator.IdleUnlessArmed | src/dispersionestimator.cpp:134-135 | nothing changes and nothing is signalled unless active, not calculating, a fetch is pending and raw grabbing is allowed |
| Estimator.UnselectedBufferKeepsFetchPending | src/dispersionestimator.cpp:137-142 | a buffer of another number is discarded silently: `bufferNr` is clamped and the fetch stays armed |
| Estimator.FrameHandedOnIffCopied | src/dispersionestimator.cpp:133-188 | a new frame is signalled if and only if the grab is armed, the buffer is selected and no zero-dimension reallocation blocks it |
| Estimator.FrameIsCopied | src/dispersionestimator.cpp:177-185 | the next ring slot receives bytes `[bytesPerFrame × f, bytesPerFrame × (f + 1))` with `f = min(frameNr, framesPerBuffer - 1)`; that frame is signalled after the dimension notices, and both flags are cleared |
| Estimator.DimensionCacheUpdated | src/dispersionestimator.cpp:150-159 | `maxFrames` and `maxBuffers` are signalled if and only if the cached value differs, and the cache then holds the host's value |
| Estimator.FetchedEndsWithOutcome | src/dispersionestimator.cpp:150-182 | after the selection check the dimension notices come first, and one outcome ends the grab: the new frame or the error |
| Estimator.AllocationOnlyOnSizeChange | src/dispersionestimator.cpp:161-175 | copy buffers are reallocated only when none exist or the frame size changed; the recorded size is then the frame size, and an unwritten slot keeps its contents otherwise |
| Estimator.SlotRing | src/dispersionestimator.cpp:178 | the ring index is a slot in `{0, 1}` after a copy, the first copy uses slot 0, and consecutive copies alternate |
| Estimator.OneFramePerFetch | src/dispersionestimator.cpp:184-185 | after a completed grab every later buffer is ignored until the next fetch request |
| Estimator.ZeroDimensionBlocksGrabbing | src/dispersionestimator.cpp:162-166 | a due reallocation with a zero dimension signals an error and leaves `isCalculating` set; every later buffer is ignored, even after a new fetch request |
| Estimator.DispersionEstimator.constructor | src/dispersionestimator.cpp:4-28 | frame 0, inactive, nothing pending, ring index -1, recorded size 0, both copy buffers unallocated |
| Estimator.DispersionEstimator.ActivateExtension | src/dispersionestimator.cpp:44-47 | only `active` changes, to true |
| Estimator.DispersionEstimator.DeactivateExtension | src/dispersionestimator.cpp:49-52 | only `active` changes, to false |
| Estimator.DispersionEstimator.SetFrameNr | src/dispersionestimator.cpp:69-71 | only `frameNr` changes |
| Estimator.DispersionEstimator.SetBufferNr | src/dispersionestimator.cpp:72-74 | only `bufferNr` changes |
| Estimator.DispersionEstimator.SingleFetchRequested | src/dispersionestimator.cpp:76-79 | arms the fetch and reports that it is waiting for data; `isCalculating` is not touched |
| Estimator.DispersionEstimator.ReceiveCommand | src/dispersionestimator.cpp:200-205 | `startSingleFetch` arms the fetch as a request does; any other command changes nothing |
| Estimator.DispersionEstimator.RawDataReceived | src/dispersionestimator.cpp:133-188 | the new state and the appended signals are exactly those of `Received`, and the grabber stays well formed |
| Estimator.DispersionEstimator.FetchFrame | src/dispersionestimator.cpp:144-185 | the part after the selection check produces exactly `Fetched` |
| Estimator.DispersionEstimator.StoreFrame | src/dispersionestimator.cpp:161-185 | reallocation or the error, then the copy, exactly as `Stored` |
| Estimator.DispersionEstimator.UpdateDimensions | src/dispersionestimator.cpp:150-159 | the cache takes the host's dimensions, and a notice is signalled for each dimension that changed |
| Estimator.DispersionEstimator.CopyFrame | src/dispersionestimator.cpp:177-185 | the ring advances, `frameNr` is clamped, the frame is stored and signalled, and both flags are cleared, as `CopiedFrame` |
| Estimator.DispersionEstimator.ReallocateFrameBuffers | src/dispersionestimator.cpp:167-174 | every copy buffer is replaced by a fresh one of the frame size, and the size is recorded |

## Left out

- The spectral processor (DC removal, resampling, dispersion phase, window, inverse FFT, log scaling) is not part of this model: `src/octprocessor/processor.h` only declares it. It is the abstract function `ProcessFn` of its configuration, the bytes and the sample count.
- `ProcessFn` hides one file-system input. Every `processData` call builds a new processor and hands it the custom resampling curve path (src/octprocessor/processorcontroller.cpp:126), even when `useCustomResamplingCurve` is off, so every pass may read the curve file again. The model assumes that the file's contents do not change during one estimation and that reading it never makes processing abort. `FailureIsSticky`, `ConfigIgnoresOnlyFramesPerVolume` and the repeatability of a sweep rest on that assumption.
- `loadSettingsFromFile` (INI file input) is left out. What it reads is an input record of `StartDispersionEstimation` (`fromFile`, `None` when the file does not exist). Every field but `computeIFFT` comes from it, and `autoComputeLogScaleMinMax` is then switched off (`AfterLoad`).
- Floating point is left out: samples, metrics and coefficients are `real`. This covers the `qreal` to `float` casts of the coefficients, the float accumulation order, and the division by zero in the step size when `numberOfDispersionSamples` is 0. The model makes that step 0; the source's value is never used, because no trial runs.
- Threading, signal/slot wiring, `QCoreApplication::processEvents` and the UI are left out. The parameters are fixed during one estimation. Status text and debug output are `Status` values or dropped.
- Raw memory is modelled as byte sequences:
  - `malloc`/`free`/`memcpy` are left out;
  - a freshly allocated copy buffer holds zeros in the model, where the source leaves it uninitialised (it is overwritten before any read);
  - `releaseFrameBuffers` frees the old buffers, a step the model does not represent;
  - the processed-data copy buffers, `bytesPerFrameRaw` and `lostBuffersProcessed` are never used by the core.
- `processedDataReceived` ignores its arguments, `settingsLoaded` and `storeParameters` only pass settings to the form, and the destructor only stops the thread and frees memory; none is modelled.
- The constructor's uninitialised fields (`bufferNr`, the cached `framesPerBuffer` and `buffersPerVolume`) and the host-owned `rawGrabbingAllowed` are constructor arguments.
- `static_cast<int>(partialBytes)` and `static_cast<int>(lineSizeBytes)` in the region copies, and the `int` conversion of `samplesPerSpectrum / 2`, are taken as exact: the model does not represent region sizes of 2^31 bytes or more.
- AscanMetric.AscanMetricCalculator.CalculateMetric: requires `numberOfAscanSamplesToIgnore >= 0`, because a negative count is not clamped and the source then reads before the line. The same requirement is on `LineMetric`, `Metric`, `ProcessDispersionMetric` and `StartDispersionEstimation`.
- Controller.ProcessorController.ProcessData: requires `bitDepth > 0`, because with 0 the source divides by zero bytes per sample.
- Controller.ProcessorController.SetDispersionCoefficients: requires at least four coefficients, because the source indexes 2 and 3 unchecked. `StartDispersionEstimation` requires the same of the loaded settings, where the source's `.at(2)` would throw.
- Engine.DispersionEstimationEngine.StartDispersionEstimation: requires `0 < bitDepth < 2^31` (the processing division, and the settings' `int` field) and a frame buffer of at least `linesPerFrame` lines; the source trusts the host for both.
- Estimator.DispersionEstimator.RawDataReceived: requires `0 < framesPerBuffer <= 2^31` when a copy happens, and a host buffer of `framesPerBuffer` frames. With 0 frames and existing buffers of the right size, the source clamps `frameNr` to -1 and reads before the buffer.
- Engine.DispersionEstimationEngine.ProcessFirstLineOnly: has the corrected empty-region behaviour, not the source's. When one line does not fit in the region at the preview offset, it returns an empty A-scan with a failure status without processing; the source copies past the end of the region instead (src/dispersionestimationengine.cpp:177-180, see "Findings"). `PreviewOn`, which specifies it, has the same guard.
- Estimator.DispersionEstimator.SetFrameNr: requires a non-negative frame number, the range of the form's frame selector.

## Findings

| source | as written | input that shows it | evidently intended | confidence | as-written member | corrected member |
|---|---|---|---|---|---|---|
| src/dispersionestimationengine.cpp:177-180 | the preview copies `lineSizeBytes` bytes from the extracted region without checking the region's size | `numberOfCenterAscans = 0`, 16-bit samples, 1024 samples per line, 4 lines: the region is empty, yet 2048 bytes are read from it | the preview fails (empty A-scan, failure status) when the region holds no whole line at the offset | not executed | Engine.SourcePreviewOverreadsEmptyRegion | Engine.EmptyRegionPreviewFails |
