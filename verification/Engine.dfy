/** The dispersion search engine. From a raw frame it extracts the centre lines,
    sweeps d2 with d3 held at 0, then sweeps d3 with d2 held at the best d2, and
    finally processes the first centre line once without and once with the best
    coefficients. Signals are appended, in order, to an event log. */
module Engine {
  import opened Common
  import opened Parameters
  import opened AscanMetric
  import opened Controller

  /** The coefficient a sweep varies. */
  datatype Coefficient = D2 | D3

  /** The status lines the engine reports. */
  datatype Status = Started | ProcessingData | ProcessingFailed | PreviewFailed | ReadyForNext

  datatype EngineEvent =
    | StatusUpdate(status: Status)
    | EstimationProcessStarted
    | MetricValueCalculated(coefficient: Coefficient, value: real, metric: real)
    | AscanWithoutDispersionCalculated(ascan: seq<real>)
    | AscanWithBestDispersionCalculated(ascan: seq<real>)
    | DispersionEstimationReady(d2: real, d3: real)
    | BestD2Estimated(d2: real)
    | BestD3Estimated(d3: real)

  // ---------------------------------------------------------------------------
  // Region extraction
  // ---------------------------------------------------------------------------

  /** `min(numberOfCenterAscans, linesPerFrame)`, compared as unsigned integers. */
  function CenterAscans(numberOfCenterAscans: i32, linesPerFrame: u32): (r: nat)
    ensures r <= linesPerFrame
    ensures numberOfCenterAscans >= 0 ==> r == Min(numberOfCenterAscans, linesPerFrame)
  {
    Min(ToU32(numberOfCenterAscans), linesPerFrame)
  }

  /** Lines skipped before the centre region: half of the lines left out. */
  function OffsetAscans(centerAscans: nat, linesPerFrame: nat): (offset: nat)
    requires centerAscans <= linesPerFrame
    ensures offset + centerAscans <= linesPerFrame
    ensures linesPerFrame - centerAscans - 1 <= 2 * offset <= linesPerFrame - centerAscans
  {
    if centerAscans < linesPerFrame then (linesPerFrame - centerAscans) / 2 else 0
  }

  function LineSizeBytes(samplesPerLine: nat, bitDepth: int): nat
    requires bitDepth >= 0
  {
    samplesPerLine * BytesPerSample(bitDepth)
  }

  /** The byte range of the centre region lies inside the frame. */
  lemma RegionWithinFrame(numberOfCenterAscans: i32, linesPerFrame: u32, lineSizeBytes: nat)
    ensures var center := CenterAscans(numberOfCenterAscans, linesPerFrame);
            var offset := OffsetAscans(center, linesPerFrame);
            offset * lineSizeBytes + center * lineSizeBytes == (offset + center) * lineSizeBytes
            && (offset + center) * lineSizeBytes <= linesPerFrame * lineSizeBytes
  {
    var center := CenterAscans(numberOfCenterAscans, linesPerFrame);
    var offset := OffsetAscans(center, linesPerFrame);
    MulLeq(offset + center, linesPerFrame, lineSizeBytes);
  }

  /** The copied centre lines of a frame. */
  function ExtractRegion(frame: seq<byte>, bitDepth: int, samplesPerLine: nat, linesPerFrame: u32,
                         numberOfCenterAscans: i32): (region: seq<byte>)
    requires bitDepth >= 0
    requires |frame| >= linesPerFrame * LineSizeBytes(samplesPerLine, bitDepth)
    ensures |region| == CenterAscans(numberOfCenterAscans, linesPerFrame) * LineSizeBytes(samplesPerLine, bitDepth)
  {
    var lineBytes := LineSizeBytes(samplesPerLine, bitDepth);
    var center := CenterAscans(numberOfCenterAscans, linesPerFrame);
    var offset := OffsetAscans(center, linesPerFrame);
    RegionWithinFrame(numberOfCenterAscans, linesPerFrame, lineBytes);
    frame[offset * lineBytes .. offset * lineBytes + center * lineBytes]
  }

  // ---------------------------------------------------------------------------
  // Sweeps (specification)
  // ---------------------------------------------------------------------------

  /** What stays fixed while one estimation runs: the processor, the settings
      (up to dispersion coefficients 2 and 3), the parameters and the region. */
  datatype SweepContext = SweepContext(
    process: ProcessFn,
    settings: ProcessingSettings,
    params: DispersionEstimatorParameters,
    rawData: seq<byte>)
  {
    ghost predicate Valid()
    {
      |settings.dispersionCoefficients| >= 4 && settings.bitDepth > 0
      && params.numberOfAscanSamplesToIgnore >= 0
    }
  }

  /** The settings a trial processes with: the swept coefficient at `value`, the
      other one at `other`. */
  function TrialSettings(ctx: SweepContext, which: Coefficient, other: real, value: real): ProcessingSettings
    requires ctx.Valid()
  {
    if which == D2 then WithCoefficients(ctx.settings, value, other)
    else WithCoefficients(ctx.settings, other, value)
  }

  /** One processing pass over `rawData` with settings `s`, scored with lines
      of half a spectrum (the processed line length); `None` when processing
      fails. */
  function TrialOn(process: ProcessFn, s: ProcessingSettings, p: DispersionEstimatorParameters, rawData: seq<byte>): (r: Option<real>)
    requires s.bitDepth > 0 && p.numberOfAscanSamplesToIgnore >= 0
    ensures r.Some? <==> Processed(process, s, rawData).Some?
    ensures s.samplesPerSpectrum < 2 ==> r == None || r == Some(0.0)
  {
    match Processed(process, s, rawData)
    case None => None
    case Some(output) => Some(Metric(p, output, s.samplesPerSpectrum / 2))
  }

  /** One trial of a sweep in context `ctx`. */
  function Trial(ctx: SweepContext, which: Coefficient, other: real, value: real): Option<real>
    requires ctx.Valid()
  {
    TrialOn(ctx.process, TrialSettings(ctx, which, other, value), ctx.params, ctx.rawData)
  }

  /** The outcome of a trial as a function of the swept value alone. */
  type TrialFn = real -> Option<real>

  function TrialOf(ctx: SweepContext, which: Coefficient, other: real): (f: TrialFn)
    requires ctx.Valid()
    ensures forall value :: f(value) == Trial(ctx, which, other, value)
  {
    value => Trial(ctx, which, other, value)
  }

  /** The state one sweep carries from trial to trial. */
  datatype SweepState = SweepState(value: real, bestMetric: real, bestValue: real, log: seq<EngineEvent>)

  /** The events of one trial: a status line, then the metric or a failure line. */
  function TrialEvents(which: Coefficient, value: real, outcome: Option<real>): seq<EngineEvent>
  {
    [StatusUpdate(ProcessingData)]
      + match outcome
        case None => [StatusUpdate(ProcessingFailed)]
        case Some(m) => [MetricValueCalculated(which, value, m)]
  }

  /** One trial of a sweep: a failure leaves the coefficient where it is; a
      success replaces the best only on a strictly greater metric, then advances. */
  function Step(trial: TrialFn, which: Coefficient, stepSize: real, st: SweepState): SweepState
  {
    Advance(trial(st.value), which, stepSize, st)
  }

  /** A step whose trial had the given outcome. */
  function Advance(outcome: Option<real>, which: Coefficient, stepSize: real, st: SweepState): SweepState
  {
    var log := st.log + TrialEvents(which, st.value, outcome);
    match outcome
    case None => st.(log := log)
    case Some(m) =>
      if st.bestMetric < m then SweepState(st.value + stepSize, m, st.value, log)
      else SweepState(st.value + stepSize, st.bestMetric, st.bestValue, log)
  }

  /** A sweep's step is a processing pass with the settings' coefficients 2
      and 3 at the swept value and the held one, in their places. */
  lemma StepIsAdvance(ctx: SweepContext, which: Coefficient, other: real, stepSize: real, st: SweepState,
                      d2: real, d3: real)
    requires ctx.Valid()
    requires if which == D2 then d2 == st.value && d3 == other else d2 == other && d3 == st.value
    ensures Step(TrialOf(ctx, which, other), which, stepSize, st)
         == Advance(TrialOn(ctx.process, WithCoefficients(ctx.settings, d2, d3), ctx.params, ctx.rawData),
                    which, stepSize, st)
  {
  }

  /** `n` trials in a row. */
  function Sweep(trial: TrialFn, which: Coefficient, stepSize: real, st: SweepState, n: nat): SweepState
  {
    if n == 0 then st else Step(trial, which, stepSize, Sweep(trial, which, stepSize, st, n - 1))
  }

  /** The number of trials a sweep makes: the loop bound, or none for a
      non-positive one. */
  function Iterations(numberOfDispersionSamples: i32): (r: nat)
    ensures numberOfDispersionSamples > 0 ==> r == numberOfDispersionSamples
    ensures numberOfDispersionSamples <= 0 ==> r == 0
  {
    if numberOfDispersionSamples > 0 then numberOfDispersionSamples else 0
  }

  /** `|end - start| / numberOfDispersionSamples`; with no trials the step is never used. */
  function StepSize(start: real, end: real, numberOfDispersionSamples: i32): (r: real)
    ensures r >= 0.0
    ensures numberOfDispersionSamples > 0 ==> r * numberOfDispersionSamples as real == Abs(end - start)
  {
    if numberOfDispersionSamples > 0 then Abs(end - start) / numberOfDispersionSamples as real else 0.0
  }

  /** The `i`-th value a sweep that never fails tries: `start` advanced by
      `stepSize` `i` times. */
  function Candidate(start: real, stepSize: real, i: nat): real
  {
    if i == 0 then start else Candidate(start, stepSize, i - 1) + stepSize
  }

  /** The `i`-th candidate is `start + i * stepSize`. */
  lemma {:induction false} CandidateIsLinear(start: real, stepSize: real, i: nat)
    ensures Candidate(start, stepSize, i) == start + i as real * stepSize
  {
    if i > 0 {
      CandidateIsLinear(start, stepSize, i - 1);
      assert i as real * stepSize == (i - 1) as real * stepSize + stepSize;
    }
  }

  /** The metric emissions of a log, in order. */
  function Emitted(log: seq<EngineEvent>): (r: seq<EngineEvent>)
    ensures forall k :: 0 <= k < |r| ==> r[k].MetricValueCalculated?
    ensures |r| <= |log|
  {
    if |log| == 0 then []
    else Emitted(log[..|log| - 1]) + (if log[|log| - 1].MetricValueCalculated? then [log[|log| - 1]] else [])
  }

  /** The number of processing calls a log records. */
  function ProcessingCalls(log: seq<EngineEvent>): (r: nat)
    ensures r <= |log|
  {
    if |log| == 0 then 0
    else ProcessingCalls(log[..|log| - 1]) + (if log[|log| - 1] == StatusUpdate(ProcessingData) then 1 else 0)
  }

  lemma {:induction false} EmittedAppend(a: seq<EngineEvent>, b: seq<EngineEvent>)
    ensures Emitted(a + b) == Emitted(a) + Emitted(b)
    ensures ProcessingCalls(a + b) == ProcessingCalls(a) + ProcessingCalls(b)
  {
    if |b| > 0 {
      var b' := b[..|b| - 1];
      assert (a + b)[..|a + b| - 1] == a + b';
      EmittedAppend(a, b');
    } else {
      assert a + b == a;
    }
  }

  lemma TrialEventsCount(which: Coefficient, value: real, outcome: Option<real>)
    ensures ProcessingCalls(TrialEvents(which, value, outcome)) == 1
    ensures Emitted(TrialEvents(which, value, outcome))
         == (if outcome.Some? then [MetricValueCalculated(which, value, outcome.value)] else [])
  {
    var evs := TrialEvents(which, value, outcome);
    assert evs[..1] == [StatusUpdate(ProcessingData)];
    assert evs[..1][..0] == [];
  }

  /** Each step records one processing call and at most the one metric it computed. */
  lemma StepAppends(trial: TrialFn, which: Coefficient, stepSize: real, st: SweepState)
    ensures var r := Step(trial, which, stepSize, st);
            && ProcessingCalls(r.log) == ProcessingCalls(st.log) + 1
            && Emitted(r.log) == Emitted(st.log)
                 + (if trial(st.value).Some? then [MetricValueCalculated(which, st.value, trial(st.value).value)] else [])
  {
    EmittedAppend(st.log, TrialEvents(which, st.value, trial(st.value)));
    TrialEventsCount(which, st.value, trial(st.value));
  }

  /** A step from a state whose log is `l` appends to `l` what a step from the
      same state with an empty log produces. */
  lemma StepLogShift(trial: TrialFn, which: Coefficient, stepSize: real, st: SweepState)
    ensures var r0 := Step(trial, which, stepSize, st.(log := []));
            Step(trial, which, stepSize, st) == r0.(log := st.log + r0.log)
  {
  }

  /** One more step of a sweep appends the events of a step taken from the
      current state with an empty log. */
  lemma SweepNext(trial: TrialFn, which: Coefficient, stepSize: real, st: SweepState, i: nat)
    returns (r0: SweepState)
    ensures r0 == Step(trial, which, stepSize, Sweep(trial, which, stepSize, st, i).(log := []))
    ensures Sweep(trial, which, stepSize, st, i + 1)
         == r0.(log := Sweep(trial, which, stepSize, st, i).log + r0.log)
  {
    var prev := Sweep(trial, which, stepSize, st, i);
    StepLogShift(trial, which, stepSize, prev);
    r0 := Step(trial, which, stepSize, prev.(log := []));
  }

  /** Every trial calls the processor exactly once. */
  lemma {:induction false} SweepCallCount(trial: TrialFn, which: Coefficient, stepSize: real, st: SweepState, n: nat)
    ensures ProcessingCalls(Sweep(trial, which, stepSize, st, n).log) == ProcessingCalls(st.log) + n
  {
    if n > 0 {
      SweepCallCount(trial, which, stepSize, st, n - 1);
      StepAppends(trial, which, stepSize, Sweep(trial, which, stepSize, st, n - 1));
    }
  }

  /** A successful step emits its metric and advances the swept value. */
  lemma SuccessfulStep(trial: TrialFn, which: Coefficient, stepSize: real, st: SweepState)
    requires trial(st.value).Some?
    ensures var r := Step(trial, which, stepSize, st);
            && r.value == st.value + stepSize
            && Emitted(r.log) == Emitted(st.log) + [MetricValueCalculated(which, st.value, trial(st.value).value)]
  {
    StepAppends(trial, which, stepSize, st);
  }

  /** The emissions of `n` successful trials from `start`: one per candidate, in order. */
  function SuccessLog(trial: TrialFn, which: Coefficient, start: real, stepSize: real, n: nat): seq<EngineEvent>
  {
    if n == 0 then []
    else
      var c := Candidate(start, stepSize, n - 1);
      SuccessLog(trial, which, start, stepSize, n - 1)
        + [MetricValueCalculated(which, c, if trial(c).Some? then trial(c).value else 0.0)]
  }

  /** Entry `i` of `SuccessLog` is candidate `i` with its metric. */
  lemma {:induction false} SuccessLogAt(trial: TrialFn, which: Coefficient, start: real, stepSize: real, n: nat, i: nat)
    requires i < n
    ensures |SuccessLog(trial, which, start, stepSize, n)| == n
    ensures var c := Candidate(start, stepSize, i);
            SuccessLog(trial, which, start, stepSize, n)[i]
            == MetricValueCalculated(which, c, if trial(c).Some? then trial(c).value else 0.0)
  {
    if i < n - 1 {
      SuccessLogAt(trial, which, start, stepSize, n - 1, i);
    } else if n > 1 {
      SuccessLogAt(trial, which, start, stepSize, n - 1, 0);
    }
  }

  /** When every trial succeeds, the sweep emits exactly `SuccessLog`. */
  lemma {:induction false} SweepEmitsSuccessLog(trial: TrialFn, which: Coefficient, stepSize: real, st: SweepState, n: nat)
    requires st.log == []
    requires forall i :: 0 <= i < n ==> trial(Candidate(st.value, stepSize, i)).Some?
    ensures var r := Sweep(trial, which, stepSize, st, n);
            r.value == Candidate(st.value, stepSize, n) && Emitted(r.log) == SuccessLog(trial, which, st.value, stepSize, n)
  {
    if n > 0 {
      var prev := Sweep(trial, which, stepSize, st, n - 1);
      SweepEmitsSuccessLog(trial, which, stepSize, st, n - 1);
      var c := Candidate(st.value, stepSize, n - 1);
      assert trial(c).Some?;
      SuccessfulStep(trial, which, stepSize, prev);
      var e := MetricValueCalculated(which, c, trial(c).value);
      assert SuccessLog(trial, which, st.value, stepSize, n) == SuccessLog(trial, which, st.value, stepSize, n - 1) + [e];
      assert Emitted(Step(trial, which, stepSize, prev).log) == Emitted(prev.log) + [e];
    } else {
      assert Candidate(st.value, stepSize, 0) == st.value;
    }
  }

  /** When every trial succeeds, the `i`-th emission is the `i`-th candidate
      `start + i * stepSize` with its metric, and the sweep ends `n` steps on. */
  lemma SweepWithoutFailures(trial: TrialFn, which: Coefficient, stepSize: real, st: SweepState, n: nat)
    requires st.log == []
    requires forall i :: 0 <= i < n ==> trial(Candidate(st.value, stepSize, i)).Some?
    ensures var r := Sweep(trial, which, stepSize, st, n);
            && r.value == Candidate(st.value, stepSize, n)
            && |Emitted(r.log)| == n
            && forall i :: 0 <= i < n ==>
                 Emitted(r.log)[i]
                 == MetricValueCalculated(which, Candidate(st.value, stepSize, i),
                                          trial(Candidate(st.value, stepSize, i)).value)
  {
    SweepEmitsSuccessLog(trial, which, stepSize, st, n);
    if n > 0 {
      SuccessLogAt(trial, which, st.value, stepSize, n, 0);
    } else {
      assert SuccessLog(trial, which, st.value, stepSize, n) == [];
    }
    forall i | 0 <= i < n
      ensures SuccessLog(trial, which, st.value, stepSize, n)[i]
              == MetricValueCalculated(which, Candidate(st.value, stepSize, i),
                                       trial(Candidate(st.value, stepSize, i)).value)
    {
      SuccessLogAt(trial, which, st.value, stepSize, n, i);
    }
  }

  /** What one step does to the swept value and the best, by outcome. */
  lemma StepFacts(trial: TrialFn, which: Coefficient, stepSize: real, st: SweepState)
    ensures var r := Step(trial, which, stepSize, st);
            var o := trial(st.value);
            && r.log == st.log + TrialEvents(which, st.value, o)
            && (o.None? ==> r.value == st.value)
            && (o.Some? ==> r.value == st.value + stepSize)
            && (o.Some? && st.bestMetric < o.value ==> r.bestMetric == o.value && r.bestValue == st.value)
            && (!(o.Some? && st.bestMetric < o.value) ==> r.bestMetric == st.bestMetric && r.bestValue == st.bestValue)
  {
  }

  /** A failed trial emits no metric, keeps the best and leaves the coefficient
      where it is; the next trial repeats the same call, so it fails again and the
      rest of the sweep makes no progress. */
  lemma {:induction false} FailureIsSticky(trial: TrialFn, which: Coefficient, stepSize: real, st: SweepState, n: nat)
    requires trial(st.value).None?
    ensures var r := Sweep(trial, which, stepSize, st, n);
            && r.value == st.value && r.bestMetric == st.bestMetric && r.bestValue == st.bestValue
            && Emitted(r.log) == Emitted(st.log)
  {
    if n > 0 {
      var prev := Sweep(trial, which, stepSize, st, n - 1);
      FailureIsSticky(trial, which, stepSize, st, n - 1);
      assert trial(prev.value).None?;
      StepAppends(trial, which, stepSize, prev);
      assert Sweep(trial, which, stepSize, st, n) == prev.(log := prev.log + TrialEvents(which, prev.value, None));
    }
  }

  /** The best metric never falls below its start and bounds every emitted
      metric; it stays at its start only if the best value does too; every
      emission is about the swept coefficient. */
  lemma {:induction false} SweepBestBounds(trial: TrialFn, which: Coefficient, stepSize: real, st: SweepState, n: nat)
    requires st.log == []
    ensures var r := Sweep(trial, which, stepSize, st, n);
            var em := Emitted(r.log);
            && st.bestMetric <= r.bestMetric
            && (r.bestMetric == st.bestMetric ==> r.bestValue == st.bestValue)
            && forall k :: 0 <= k < |em| ==> em[k].coefficient == which && em[k].metric <= r.bestMetric
  {
    if n > 0 {
      SweepBestBounds(trial, which, stepSize, st, n - 1);
      StepKeepsBounds(trial, which, stepSize, st, Sweep(trial, which, stepSize, st, n - 1));
    }
  }

  /** One step keeps the bounds of `SweepBestBounds`. */
  lemma StepKeepsBounds(trial: TrialFn, which: Coefficient, stepSize: real, start: SweepState, prev: SweepState)
    requires start.bestMetric <= prev.bestMetric
    requires prev.bestMetric == start.bestMetric ==> prev.bestValue == start.bestValue
    requires var em := Emitted(prev.log);
             forall k :: 0 <= k < |em| ==> em[k].coefficient == which && em[k].metric <= prev.bestMetric
    ensures var r := Step(trial, which, stepSize, prev);
            var em := Emitted(r.log);
            && start.bestMetric <= r.bestMetric
            && (r.bestMetric == start.bestMetric ==> r.bestValue == start.bestValue)
            && forall k :: 0 <= k < |em| ==> em[k].coefficient == which && em[k].metric <= r.bestMetric
  {
    StepAppends(trial, which, stepSize, prev);
    StepFacts(trial, which, stepSize, prev);
  }

  /** A best above the start is an emitted metric, paired with the value it was
      measured at, and no earlier emission reached it: on ties the earliest
      value wins. */
  lemma {:induction false} SweepBestIsEarliest(trial: TrialFn, which: Coefficient, stepSize: real, st: SweepState, n: nat)
    requires st.log == []
    ensures var r := Sweep(trial, which, stepSize, st, n);
            var em := Emitted(r.log);
            st.bestMetric < r.bestMetric ==>
              exists i :: 0 <= i < |em|
                && em[i] == MetricValueCalculated(which, r.bestValue, r.bestMetric)
                && forall j :: 0 <= j < i ==> em[j].metric < r.bestMetric
  {
    if n > 0 {
      SweepBestIsEarliest(trial, which, stepSize, st, n - 1);
      SweepBestBounds(trial, which, stepSize, st, n - 1);
      StepKeepsEarliest(trial, which, stepSize, st, Sweep(trial, which, stepSize, st, n - 1));
    }
  }

  /** One step keeps the property of `SweepBestIsEarliest`. */
  lemma StepKeepsEarliest(trial: TrialFn, which: Coefficient, stepSize: real, start: SweepState, prev: SweepState)
    requires start.bestMetric <= prev.bestMetric
    requires var em := Emitted(prev.log);
             forall k :: 0 <= k < |em| ==> em[k].metric <= prev.bestMetric
    requires var em := Emitted(prev.log);
             start.bestMetric < prev.bestMetric ==>
               exists i :: 0 <= i < |em|
                 && em[i] == MetricValueCalculated(which, prev.bestValue, prev.bestMetric)
                 && forall j :: 0 <= j < i ==> em[j].metric < prev.bestMetric
    ensures var r := Step(trial, which, stepSize, prev);
            var em := Emitted(r.log);
            start.bestMetric < r.bestMetric ==>
              exists i :: 0 <= i < |em|
                && em[i] == MetricValueCalculated(which, r.bestValue, r.bestMetric)
                && forall j :: 0 <= j < i ==> em[j].metric < r.bestMetric
  {
    var r := Step(trial, which, stepSize, prev);
    StepAppends(trial, which, stepSize, prev);
    StepFacts(trial, which, stepSize, prev);
    var o := trial(prev.value);
    var pem := Emitted(prev.log);
    var em := Emitted(r.log);
    assert forall j :: 0 <= j < |pem| ==> em[j] == pem[j];
    if o.Some? && prev.bestMetric < o.value {
      var i := |pem|;
      assert em[i] == MetricValueCalculated(which, r.bestValue, r.bestMetric);
      assert forall j :: 0 <= j < i ==> em[j].metric < r.bestMetric;
    } else if start.bestMetric < r.bestMetric {
      assert r.bestMetric == prev.bestMetric && r.bestValue == prev.bestValue;
      var i :| 0 <= i < |pem|
        && pem[i] == MetricValueCalculated(which, prev.bestValue, prev.bestMetric)
        && forall j :: 0 <= j < i ==> pem[j].metric < prev.bestMetric;
      assert em[i] == pem[i];
      assert forall j :: 0 <= j < i ==> em[j].metric < r.bestMetric;
    }
  }

  /** No emitted metric above the starting best: the best is unchanged. In
      particular the best value stays 0 when no metric exceeds 0. */
  lemma NoImprovementKeepsStart(trial: TrialFn, which: Coefficient, stepSize: real, st: SweepState, n: nat)
    requires st.log == []
    requires var em := Emitted(Sweep(trial, which, stepSize, st, n).log);
             forall k :: 0 <= k < |em| ==> em[k].metric <= st.bestMetric
    ensures Sweep(trial, which, stepSize, st, n).bestMetric == st.bestMetric
    ensures Sweep(trial, which, stepSize, st, n).bestValue == st.bestValue
  {
    SweepBestBounds(trial, which, stepSize, st, n);
    SweepBestIsEarliest(trial, which, stepSize, st, n);
  }

  /** The d2 sweep: d3 held at 0, from `d2start` with best 0 at 0. */
  function D2Sweep(ctx: SweepContext): SweepState
    requires ctx.Valid()
  {
    var p := ctx.params;
    Sweep(TrialOf(ctx, D2, 0.0), D2, StepSize(p.d2start, p.d2end, p.numberOfDispersionSamples),
          SweepState(p.d2start, 0.0, 0.0, []), Iterations(p.numberOfDispersionSamples))
  }

  /** The d3 sweep: d2 held at `bestD2`, from `d3start` with best 0 at 0. */
  function D3Sweep(ctx: SweepContext, bestD2: real): SweepState
    requires ctx.Valid()
  {
    var p := ctx.params;
    Sweep(TrialOf(ctx, D3, bestD2), D3, StepSize(p.d3start, p.d3end, p.numberOfDispersionSamples),
          SweepState(p.d3start, 0.0, 0.0, []), Iterations(p.numberOfDispersionSamples))
  }

  // ---------------------------------------------------------------------------
  // Preview of the first centre line (specification)
  // ---------------------------------------------------------------------------

  /** The byte offset of the line the preview processes, recomputed from the
      settings' `spectraPerFrame` and the parameters' centre-line count. */
  function PreviewOffsetBytes(s: ProcessingSettings, p: DispersionEstimatorParameters): (r: nat)
    requires s.bitDepth >= 0
    ensures s.spectraPerFrame < 0x8000_0000 ==>
              var center := CenterAscans(p.numberOfCenterAscans, s.spectraPerFrame);
              r == OffsetAscans(center, s.spectraPerFrame) * LineSizeBytes(s.samplesPerSpectrum, s.bitDepth)
  {
    var center := Min(ToU64(p.numberOfCenterAscans), s.spectraPerFrame) % TWO_POW_32;
    var offset := if center < s.spectraPerFrame then ((s.spectraPerFrame - center) / 2) % TWO_POW_32 else 0;
    PreviewCentring(p.numberOfCenterAscans, s.spectraPerFrame);
    offset * LineSizeBytes(s.samplesPerSpectrum, s.bitDepth)
  }

  /** The preview's truncated recomputation of the centring agrees with the
      extraction's below 2^31 lines per frame. */
  lemma PreviewCentring(n: i32, linesPerFrame: nat)
    ensures linesPerFrame < 0x8000_0000 ==>
              var center := Min(ToU64(n), linesPerFrame) % TWO_POW_32;
              && center == CenterAscans(n, linesPerFrame)
              && (if center < linesPerFrame then ((linesPerFrame - center) / 2) % TWO_POW_32 else 0)
                 == OffsetAscans(center, linesPerFrame)
  {
  }

  /** The preview of one line with settings `s`, processed as one spectrum per
      frame and one frame per volume; `None` when processing fails or when the
      region holds no whole line at the offset. */
  function PreviewOn(process: ProcessFn, s: ProcessingSettings, p: DispersionEstimatorParameters, rawData: seq<byte>): (r: Option<seq<real>>)
    requires s.bitDepth > 0
    ensures r.Some? ==> PreviewOffsetBytes(s, p) + LineSizeBytes(s.samplesPerSpectrum, s.bitDepth) <= |rawData|
    ensures PreviewOffsetBytes(s, p) + LineSizeBytes(s.samplesPerSpectrum, s.bitDepth) > |rawData| ==> r == None
  {
    var start := PreviewOffsetBytes(s, p);
    var len := LineSizeBytes(s.samplesPerSpectrum, s.bitDepth);
    if start + len <= |rawData| then
      Processed(process, s.(spectraPerFrame := 1, framesPerVolume := 1), rawData[start .. start + len])
    else None
  }

  /** The preview of the first centre line in context `ctx` with the given coefficients. */
  function Preview(ctx: SweepContext, d2: real, d3: real): Option<seq<real>>
    requires ctx.Valid()
  {
    PreviewOn(ctx.process, WithCoefficients(ctx.settings, d2, d3), ctx.params, ctx.rawData)
  }

  function AscanOf(preview: Option<seq<real>>): seq<real>
  {
    if preview.Some? then preview.value else []
  }

  function PreviewEvents(preview: Option<seq<real>>): seq<EngineEvent>
  {
    if preview.Some? then [] else [StatusUpdate(PreviewFailed)]
  }

  /** With the settings the estimation prepares (`spectraPerFrame` already the
      centre-line count), the preview line is the first line of the region. */
  lemma PreviewStartsAtRegionStart(s: ProcessingSettings, p: DispersionEstimatorParameters, linesPerFrame: u32)
    requires s.bitDepth >= 0
    requires s.spectraPerFrame == CenterAscans(p.numberOfCenterAscans, linesPerFrame)
    ensures PreviewOffsetBytes(s, p) == 0
  {
    var spf := s.spectraPerFrame;
    if p.numberOfCenterAscans < 0 {
      assert ToU64(p.numberOfCenterAscans) > spf;
    }
    assert Min(ToU64(p.numberOfCenterAscans), spf) == spf;
  }

  /** The region the estimation extracts always starts with a whole line, except
      when it is empty: then the preview reads past its end. */
  lemma PreviewFitsNonEmptyRegion(frame: seq<byte>, bitDepth: int, samplesPerLine: nat, linesPerFrame: u32, p: DispersionEstimatorParameters)
    requires bitDepth >= 0
    requires |frame| >= linesPerFrame * LineSizeBytes(samplesPerLine, bitDepth)
    ensures var region := ExtractRegion(frame, bitDepth, samplesPerLine, linesPerFrame, p.numberOfCenterAscans);
            var line := LineSizeBytes(samplesPerLine, bitDepth);
            (line <= |region| <==> CenterAscans(p.numberOfCenterAscans, linesPerFrame) >= 1 || line == 0)
  {
    var center := CenterAscans(p.numberOfCenterAscans, linesPerFrame);
    var line := LineSizeBytes(samplesPerLine, bitDepth);
    if center >= 1 {
      MulLeq(1, center, line);
    }
  }

  /** With no centre lines the preview reads nothing out of the empty region:
      it fails, whatever the coefficients, and yields an empty A-scan. */
  lemma EmptyRegionPreviewFails(process: ProcessFn, current: ProcessingSettings, fromFile: Option<ProcessingSettings>,
                                p: DispersionEstimatorParameters, curvePath: string, frameBuffer: seq<byte>,
                                bitDepth: u32, samplesPerLine: u32, linesPerFrame: u32, d2: real, d3: real)
    requires 0 < bitDepth
    requires |frameBuffer| >= linesPerFrame * LineSizeBytes(samplesPerLine, bitDepth)
    requires |AfterLoad(current, fromFile).dispersionCoefficients| >= 4
    requires p.numberOfAscanSamplesToIgnore >= 0
    requires CenterAscans(p.numberOfCenterAscans, linesPerFrame) == 0 && samplesPerLine > 0
    ensures var ctx := EstimationContext(process, current, fromFile, p, curvePath, frameBuffer,
                                         bitDepth, samplesPerLine, linesPerFrame);
            && Preview(ctx, d2, d3) == None
            && AscanOf(Preview(ctx, d2, d3)) == []
            && PreviewEvents(Preview(ctx, d2, d3)) == [StatusUpdate(PreviewFailed)]
  {
    var ctx := EstimationContext(process, current, fromFile, p, curvePath, frameBuffer,
                                 bitDepth, samplesPerLine, linesPerFrame);
    var s := WithCoefficients(ctx.settings, d2, d3);
    PreviewStartsAtRegionStart(s, p, linesPerFrame);
    MulLeq(1, samplesPerLine, BytesPerSample(bitDepth));
    assert LineSizeBytes(s.samplesPerSpectrum, s.bitDepth) > |ctx.rawData|;
  }

  /** As the source is written, a centre-line count of 0 extracts an empty region
      and the preview still copies a whole line out of it. */
  lemma SourcePreviewOverreadsEmptyRegion(frame: seq<byte>)
    requires |frame| == 4 * 1024 * 2
    ensures var p := DispersionEstimatorParameters(0, 0, 0, false, 0, false, SumAboveThreshold,
                                                   0.0, 0.0, 10.0, 0.0, 10.0, 10);
            var region := ExtractRegion(frame, 16, 1024, 4, p.numberOfCenterAscans);
            |region| == 0 && LineSizeBytes(1024, 16) == 2048
            && PreviewOffsetBytes(PreparedDims(16, 1024, 4, p), p) + LineSizeBytes(1024, 16) > |region|
  {
  }

  /** Only the dimension fields of the prepared settings matter to the preview offset. */
  function PreparedDims(bitDepth: int, samplesPerLine: nat, linesPerFrame: u32, p: DispersionEstimatorParameters): ProcessingSettings
  {
    ProcessingSettings(bitDepth, samplesPerLine, CenterAscans(p.numberOfCenterAscans, linesPerFrame), 1, 0,
                       ProcessingOptions(false, false, false, false, false, false, false),
                       [0.0, 0.0, 0.0, 0.0], [], "", 0.0, 0.0, 0.0, 0.0, false)
  }

  // ---------------------------------------------------------------------------
  // Settings preparation (specification)
  // ---------------------------------------------------------------------------

  /** The settings after the settings file was read: `None` when it does not
      exist; otherwise every field but `computeIFFT` comes from the file, and
      automatic log-scale limits are switched off. */
  function AfterLoad(current: ProcessingSettings, fromFile: Option<ProcessingSettings>): (r: ProcessingSettings)
    ensures fromFile.None? ==> r == current
    ensures fromFile.Some? ==>
              && r.processingOptions.computeIFFT == current.processingOptions.computeIFFT
              && !r.autoComputeLogScaleMinMax
              && r.processingOptions.(computeIFFT := fromFile.value.processingOptions.computeIFFT)
                 == fromFile.value.processingOptions
              && r.(processingOptions := fromFile.value.processingOptions,
                    autoComputeLogScaleMinMax := fromFile.value.autoComputeLogScaleMinMax)
                 == fromFile.value
  {
    match fromFile
    case None => current
    case Some(f) =>
      f.(processingOptions := f.processingOptions.(computeIFFT := current.processingOptions.computeIFFT),
         autoComputeLogScaleMinMax := false)
  }

  /** The settings the sweeps start from. */
  function PreparedSettings(loaded: ProcessingSettings, p: DispersionEstimatorParameters, curvePath: string,
                            bitDepth: u32, samplesPerLine: u32, linesPerFrame: u32): ProcessingSettings
  {
    var logged := loaded.(processingOptions := loaded.processingOptions.(logScale := !p.useLinearAscans));
    var curved := if logged.processingOptions.useCustomResamplingCurve
                  then logged.(filePathCustomResamplingCurve := curvePath) else logged;
    curved.(samplesPerSpectrum := samplesPerLine,
            spectraPerFrame := CenterAscans(p.numberOfCenterAscans, linesPerFrame),
            bitDepth := bitDepth)
  }

  // ---------------------------------------------------------------------------
  // One whole estimation (specification)
  // ---------------------------------------------------------------------------

  /** What an estimation on `frameBuffer` works with: the prepared settings
      and the extracted centre region. */
  function EstimationContext(process: ProcessFn, current: ProcessingSettings, fromFile: Option<ProcessingSettings>,
                             p: DispersionEstimatorParameters, curvePath: string, frameBuffer: seq<byte>,
                             bitDepth: u32, samplesPerLine: u32, linesPerFrame: u32): (ctx: SweepContext)
    requires 0 < bitDepth
    requires |frameBuffer| >= linesPerFrame * LineSizeBytes(samplesPerLine, bitDepth)
    requires |AfterLoad(current, fromFile).dispersionCoefficients| >= 4
    requires p.numberOfAscanSamplesToIgnore >= 0
    ensures ctx.Valid()
    ensures ctx.params == p && ctx.process == process
    ensures ctx.settings.samplesPerSpectrum == samplesPerLine && ctx.settings.bitDepth == bitDepth
    ensures ctx.settings.spectraPerFrame == CenterAscans(p.numberOfCenterAscans, linesPerFrame)
    ensures |ctx.rawData| == ctx.settings.spectraPerFrame * LineSizeBytes(samplesPerLine, bitDepth)
  {
    SweepContext(process,
                 PreparedSettings(AfterLoad(current, fromFile), p, curvePath, bitDepth, samplesPerLine, linesPerFrame),
                 p, ExtractRegion(frameBuffer, bitDepth, samplesPerLine, linesPerFrame, p.numberOfCenterAscans))
  }

  /** The events of the two previews: without dispersion compensation, then
      with coefficients `d2` and `d3`. */
  function PreviewsLog(ctx: SweepContext, d2: real, d3: real): seq<EngineEvent>
    requires ctx.Valid()
  {
    var before := Preview(ctx, 0.0, 0.0);
    var after := Preview(ctx, d2, d3);
    PreviewEvents(before) + [AscanWithoutDispersionCalculated(AscanOf(before))]
      + PreviewEvents(after) + [AscanWithBestDispersionCalculated(AscanOf(after))]
  }

  /** The events that announce the result. */
  function ResultEvents(d2: real, d3: real): seq<EngineEvent>
  {
    [DispersionEstimationReady(d2, d3), BestD2Estimated(d2), BestD3Estimated(d3), StatusUpdate(ReadyForNext)]
  }

  /** The events of one estimation, in order: start, the d2 sweep, the d3
      sweep, the two previews, then the result. */
  function EstimationLog(ctx: SweepContext): seq<EngineEvent>
    requires ctx.Valid()
  {
    var s2 := D2Sweep(ctx);
    var s3 := D3Sweep(ctx, s2.bestValue);
    [StatusUpdate(Started), EstimationProcessStarted]
      + s2.log + s3.log + PreviewsLog(ctx, s2.bestValue, s3.bestValue) + ResultEvents(s2.bestValue, s3.bestValue)
  }

  /** The estimation log appended to `prior`, regrouped piece by piece. */
  lemma EstimationLogPieces(ctx: SweepContext, prior: seq<EngineEvent>)
    requires ctx.Valid()
    ensures var s2 := D2Sweep(ctx);
            var s3 := D3Sweep(ctx, s2.bestValue);
            prior + EstimationLog(ctx)
              == prior + [StatusUpdate(Started), EstimationProcessStarted] + s2.log + s3.log
                 + PreviewsLog(ctx, s2.bestValue, s3.bestValue) + ResultEvents(s2.bestValue, s3.bestValue)
  {
    var s2 := D2Sweep(ctx);
    var s3 := D3Sweep(ctx, s2.bestValue);
    var a, b, c := [StatusUpdate(Started), EstimationProcessStarted], s2.log, s3.log;
    var d, e := PreviewsLog(ctx, s2.bestValue, s3.bestValue), ResultEvents(s2.bestValue, s3.bestValue);
    assert EstimationLog(ctx) == a + b + c + d + e;
    Associative(prior, a + b + c + d, e);
    Associative(prior, a + b + c, d);
    Associative(prior, a + b, c);
    Associative(prior, a, b);
  }

  // ---------------------------------------------------------------------------
  // The engine object
  // ---------------------------------------------------------------------------

  class DispersionEstimationEngine {
    var params: DispersionEstimatorParameters
    const controller: ProcessorController
    const calculator: AscanMetricCalculator
    /** Where the resampling curve file lives. */
    const resamplingCurvePath: string
    var bestMetricValueD2: real
    var bestMetricValueD3: real
    var bestD2: real
    var bestD3: real
    var events: seq<EngineEvent>

    constructor (process: ProcessFn, initialSettings: ProcessingSettings,
                 initialParams: DispersionEstimatorParameters, resamplingCurvePath: string)
      ensures fresh(controller) && fresh(calculator)
      ensures controller.process == process && controller.settings == initialSettings
      ensures params == initialParams && this.resamplingCurvePath == resamplingCurvePath
      ensures bestMetricValueD2 == 0.0 && bestD2 == 0.0 && bestMetricValueD3 == 0.0 && bestD3 == 0.0
      ensures events == []
    {
      params := initialParams;
      controller := new ProcessorController(process, initialSettings);
      calculator := new AscanMetricCalculator.Default();
      this.resamplingCurvePath := resamplingCurvePath;
      bestMetricValueD2, bestD2, bestMetricValueD3, bestD3 := 0.0, 0.0, 0.0, 0.0;
      events := [];
    }

    method SetParams(p: DispersionEstimatorParameters)
      modifies this
      ensures params == p
      ensures bestD2 == old(bestD2) && bestD3 == old(bestD3) && events == old(events)
      ensures bestMetricValueD2 == old(bestMetricValueD2) && bestMetricValueD3 == old(bestMetricValueD3)
    {
      params := p;
    }

    ghost function BestMetric(which: Coefficient): real
      reads this
    {
      if which == D2 then bestMetricValueD2 else bestMetricValueD3
    }

    ghost function BestValue(which: Coefficient): real
      reads this
    {
      if which == D2 then bestD2 else bestD3
    }

    /** One trial of a sweep. `d2` and `d3` are the coefficients to process
        with; the swept one comes back advanced after a success. */
    method ProcessDispersionMetric(rawData: seq<byte>, d2: real, d3: real, stepSize: real, which: Coefficient)
      returns (nextD2: real, nextD3: real)
      requires |controller.settings.dispersionCoefficients| >= 4 && controller.settings.bitDepth > 0
      requires params.numberOfAscanSamplesToIgnore >= 0 && calculator.params == params
      modifies this, controller
      ensures params == old(params) && calculator.params == params
      ensures controller.settings == WithCoefficients(old(controller.settings), d2, d3)
      ensures var value := if which == D2 then d2 else d3;
              var r := Advance(TrialOn(controller.process, controller.settings, params, rawData), which, stepSize,
                               SweepState(value, old(BestMetric(which)), old(BestValue(which)), []));
              && events == old(events) + r.log
              && BestMetric(which) == r.bestMetric && BestValue(which) == r.bestValue
              && (if which == D2 then nextD2 == r.value && nextD3 == d3 else nextD2 == d2 && nextD3 == r.value)
      ensures which == D2 ==> bestMetricValueD3 == old(bestMetricValueD3) && bestD3 == old(bestD3)
      ensures which == D3 ==> bestMetricValueD2 == old(bestMetricValueD2) && bestD2 == old(bestD2)
    {
      controller.SetDispersionCoefficients(d2, d3);
      ghost var outcome := TrialOn(controller.process, controller.settings, params, rawData);
      events := events + [StatusUpdate(ProcessingData)];
      var success, outputData := controller.ProcessData(rawData, []);
      nextD2, nextD3 := d2, d3;
      if !success {
        assert outcome == None;
        events := events + [StatusUpdate(ProcessingFailed)];
        return;
      }
      var samplesPerLine := controller.settings.samplesPerSpectrum / 2;
      var metricValue := calculator.CalculateMetric(outputData, samplesPerLine);
      assert outcome == Some(metricValue);
      nextD2, nextD3 := RecordMetric(d2, d3, stepSize, which, metricValue);
    }

    /** The successful end of a trial: the best pair of the swept coefficient
        is replaced on a strictly greater metric, the metric is reported and
        the swept coefficient advances. */
    method RecordMetric(d2: real, d3: real, stepSize: real, which: Coefficient, metricValue: real)
      returns (nextD2: real, nextD3: real)
      modifies this
      ensures params == old(params)
      ensures var value := if which == D2 then d2 else d3;
              var r := Advance(Some(metricValue), which, stepSize,
                               SweepState(value, old(BestMetric(which)), old(BestValue(which)), []));
              && events == old(events) + [MetricValueCalculated(which, value, metricValue)]
              && BestMetric(which) == r.bestMetric && BestValue(which) == r.bestValue
              && (if which == D2 then nextD2 == r.value && nextD3 == d3 else nextD2 == d2 && nextD3 == r.value)
      ensures which == D2 ==> bestMetricValueD3 == old(bestMetricValueD3) && bestD3 == old(bestD3)
      ensures which == D3 ==> bestMetricValueD2 == old(bestMetricValueD2) && bestD2 == old(bestD2)
    {
      nextD2, nextD3 := d2, d3;
      if which == D2 {
        if bestMetricValueD2 < metricValue {
          bestMetricValueD2 := metricValue;
          bestD2 := d2;
        }
        events := events + [MetricValueCalculated(D2, d2, metricValue)];
        nextD2 := d2 + stepSize;
      } else {
        if bestMetricValueD3 < metricValue {
          bestMetricValueD3 := metricValue;
          bestD3 := d3;
        }
        events := events + [MetricValueCalculated(D3, d3, metricValue)];
        nextD3 := d3 + stepSize;
      }
    }

    /** Processes the first centre line alone with the given coefficients. The
        dimension fields it changes are restored whatever the outcome; the
        coefficients stay set. An empty result means failure. */
    method ProcessFirstLineOnly(rawData: seq<byte>, d2: real, d3: real) returns (ascan: seq<real>)
      requires |controller.settings.dispersionCoefficients| >= 4 && controller.settings.bitDepth > 0
      modifies this, controller
      ensures params == old(params)
      ensures controller.settings == WithCoefficients(old(controller.settings), d2, d3)
      ensures var preview := PreviewOn(controller.process, controller.settings, params, rawData);
              ascan == AscanOf(preview) && events == old(events) + PreviewEvents(preview)
      ensures bestD2 == old(bestD2) && bestD3 == old(bestD3)
      ensures bestMetricValueD2 == old(bestMetricValueD2) && bestMetricValueD3 == old(bestMetricValueD3)
    {
      controller.SetDispersionCoefficients(d2, d3);
      ghost var withCoefficients := controller.settings;
      var originalSpectraPerFrame := controller.settings.spectraPerFrame;
      var originalFramesPerVolume := controller.settings.framesPerVolume;
      controller.settings := controller.settings.(spectraPerFrame := 1, framesPerVolume := 1);

      var bytesPerSample := BytesPerSample(controller.settings.bitDepth);
      var samplesPerSpectrum := controller.settings.samplesPerSpectrum;
      var lineSizeBytes := samplesPerSpectrum * bytesPerSample;

      var centerAscans := Min(ToU64(params.numberOfCenterAscans), originalSpectraPerFrame) % TWO_POW_32;
      var offsetAscans := 0;
      if centerAscans < originalSpectraPerFrame {
        offsetAscans := ((originalSpectraPerFrame - centerAscans) / 2) % TWO_POW_32;
      }
      var offsetBytes := offsetAscans * lineSizeBytes;
      assert offsetBytes == PreviewOffsetBytes(withCoefficients, params);
      ghost var preview := PreviewOn(controller.process, withCoefficients, params, rawData);

      var success := false;
      var outputData: seq<real> := [];
      if offsetBytes + lineSizeBytes <= |rawData| {
        var firstCenterAscanData := rawData[offsetBytes .. offsetBytes + lineSizeBytes];
        success, outputData := controller.ProcessData(firstCenterAscanData, outputData);
        assert success == preview.Some? && (success ==> outputData == preview.value);
      } else {
        assert preview == None;
      }

      controller.settings := controller.settings.(spectraPerFrame := originalSpectraPerFrame,
                                                  framesPerVolume := originalFramesPerVolume);
      assert controller.settings == withCoefficients;
      if !success {
        events := events + [StatusUpdate(PreviewFailed)];
        return [];
      }
      return outputData;
    }

    /** One sweep, one of the two loops over `numberOfDispersionSamples` in
        `startDispersionEstimation`: trials of the swept coefficient from
        `start`, the other coefficient held at `other`. The settings'
        coefficients 2 and 3 are whatever the last trial set; `a2` and `a3` are
        what they were on entry and `last2`, `last3` what they are on exit. */
    method RunSweep(rawData: seq<byte>, ghost ctx: SweepContext, which: Coefficient, start: real, other: real,
                    stepSize: real, ghost a2: real, ghost a3: real)
      returns (ghost last2: real, ghost last3: real)
      requires ctx.Valid() && ctx.rawData == rawData && ctx.params == params && ctx.process == controller.process
      requires calculator.params == params
      requires controller.settings == WithCoefficients(ctx.settings, a2, a3)
      modifies this, controller
      ensures params == old(params) && calculator.params == params
      ensures controller.settings == WithCoefficients(ctx.settings, last2, last3)
      ensures var r := Sweep(TrialOf(ctx, which, other), which, stepSize,
                             SweepState(start, old(BestMetric(which)), old(BestValue(which)), []),
                             Iterations(params.numberOfDispersionSamples));
              && BestMetric(which) == r.bestMetric && BestValue(which) == r.bestValue
              && events == old(events) + r.log
      ensures which == D2 ==> bestMetricValueD3 == old(bestMetricValueD3) && bestD3 == old(bestD3)
      ensures which == D3 ==> bestMetricValueD2 == old(bestMetricValueD2) && bestD2 == old(bestD2)
    {
      ghost var n := Iterations(params.numberOfDispersionSamples);
      ghost var init := SweepState(start, BestMetric(which), BestValue(which), []);
      ghost var trial := TrialOf(ctx, which, other);
      ghost var events0 := events;
      last2, last3 := a2, a3;
      var value := start;
      var i := 0;
      ghost var cur := init;
      while i < params.numberOfDispersionSamples
        invariant 0 <= i <= n
        invariant params == old(params) && calculator.params == params
        invariant controller.settings == WithCoefficients(ctx.settings, last2, last3)
        invariant cur == Sweep(trial, which, stepSize, init, i)
        invariant value == cur.value && BestMetric(which) == cur.bestMetric && BestValue(which) == cur.bestValue
        invariant events == events0 + cur.log
        invariant which == D2 ==> bestMetricValueD3 == old(bestMetricValueD3) && bestD3 == old(bestD3)
        invariant which == D3 ==> bestMetricValueD2 == old(bestMetricValueD2) && bestD2 == old(bestD2)
      {
        ghost var r0 := SweepNext(trial, which, stepSize, init, i);
        value, last2, last3 := SweepTrial(rawData, ctx, which, value, other, stepSize, cur.(log := []), last2, last3);
        Associative(events0, cur.log, r0.log);
        cur := r0.(log := cur.log + r0.log);
        i := i + 1;
      }
      assert i == n && cur == Sweep(TrialOf(ctx, which, other), which, stepSize, init, n);
    }

    /** One iteration of a sweep loop: `processDispersionMetric` with the swept
        coefficient at `value` and the other at `other`, in their places. */
    method SweepTrial(rawData: seq<byte>, ghost ctx: SweepContext, which: Coefficient, value: real, other: real,
                      stepSize: real, ghost st: SweepState, ghost a2: real, ghost a3: real)
      returns (next: real, ghost last2: real, ghost last3: real)
      requires ctx.Valid() && ctx.rawData == rawData && ctx.params == params && ctx.process == controller.process
      requires calculator.params == params
      requires controller.settings == WithCoefficients(ctx.settings, a2, a3)
      requires st == SweepState(value, BestMetric(which), BestValue(which), [])
      modifies this, controller
      ensures params == old(params) && calculator.params == params
      ensures controller.settings == WithCoefficients(ctx.settings, last2, last3)
      ensures var r := Step(TrialOf(ctx, which, other), which, stepSize, st);
              && next == r.value && BestMetric(which) == r.bestMetric && BestValue(which) == r.bestValue
              && events == old(events) + r.log
      ensures which == D2 ==> bestMetricValueD3 == old(bestMetricValueD3) && bestD3 == old(bestD3)
      ensures which == D3 ==> bestMetricValueD2 == old(bestMetricValueD2) && bestD2 == old(bestD2)
    {
      var d2, d3 := value, other;
      if which == D3 {
        d2, d3 := other, value;
      }
      StepIsAdvance(ctx, which, other, stepSize, st, d2, d3);
      WithCoefficientsTwice(ctx.settings, a2, a3, d2, d3);
      last2, last3 := d2, d3;
      var nextD2, nextD3 := ProcessDispersionMetric(rawData, d2, d3, stepSize, which);
      next := if which == D2 then nextD2 else nextD3;
    }

    /** Reads the settings file, then applies the estimator's own choices: log
        scaling unless linear A-scans are asked for, the custom resampling curve
        when that option is on, and the centre region's dimensions. */
    method PrepareProcessing(bitDepth: u32, samplesPerLine: u32, linesPerFrame: u32,
                             fromFile: Option<ProcessingSettings>)
      modifies controller
      ensures controller.settings == PreparedSettings(AfterLoad(old(controller.settings), fromFile), params,
                                                      resamplingCurvePath, bitDepth, samplesPerLine, linesPerFrame)
    {
      var loaded := AfterLoad(controller.settings, fromFile);
      controller.SetProcessingSettings(loaded);
      controller.settings := controller.settings.(processingOptions :=
        controller.settings.processingOptions.(logScale := !params.useLinearAscans));
      if controller.settings.processingOptions.useCustomResamplingCurve {
        controller.LoadCustomResamplingCurveFromFile(resamplingCurvePath);
      }
      var centerAscans := CenterAscans(params.numberOfCenterAscans, linesPerFrame);
      controller.settings := controller.settings.(samplesPerSpectrum := samplesPerLine,
                                                  spectraPerFrame := centerAscans,
                                                  bitDepth := bitDepth);
    }

    /** The two sweeps on the prepared settings: d2 with d3 held at 0, then d3
        with d2 held at the best d2. */
    method RunSweeps(rawData: seq<byte>, ghost ctx: SweepContext) returns (ghost last2: real, ghost last3: real)
      requires ctx.Valid() && ctx.rawData == rawData && ctx.params == params && ctx.process == controller.process
      requires controller.settings == ctx.settings
      modifies this, controller, calculator
      ensures params == old(params) && calculator.params == params
      ensures controller.settings == WithCoefficients(ctx.settings, last2, last3)
      ensures var s2 := D2Sweep(ctx);
              var s3 := D3Sweep(ctx, s2.bestValue);
              && bestD2 == s2.bestValue && bestD3 == s3.bestValue
              && bestMetricValueD2 == 0.0 && bestMetricValueD3 == s3.bestMetric
              && events == old(events) + s2.log + s3.log
    {
      bestD2, bestD3, bestMetricValueD2, bestMetricValueD3 := 0.0, 0.0, 0.0, 0.0;
      var d2 := params.d2start;
      var d3 := params.d3start;
      var stepSizeD2 := StepSize(params.d2start, params.d2end, params.numberOfDispersionSamples);
      var stepSizeD3 := StepSize(params.d3start, params.d3end, params.numberOfDispersionSamples);
      controller.SetDispersionCoefficients(d2, d3);
      calculator.SetParameters(params);

      ghost var events0 := events;
      ghost var s2 := D2Sweep(ctx);
      last2, last3 := RunSweep(rawData, ctx, D2, d2, 0.0, stepSizeD2, d2, d3);
      assert events == events0 + s2.log && bestD2 == s2.bestValue;

      bestMetricValueD2 := 0.0;
      bestMetricValueD3 := 0.0;
      var heldD2 := bestD2;
      ghost var s3 := D3Sweep(ctx, heldD2);
      ghost var events1 := events;
      last2, last3 := RunSweep(rawData, ctx, D3, d3, heldD2, stepSizeD3, last2, last3);
      assert events == events1 + s3.log;
    }

    /** The two previews: without dispersion compensation, then with the best
        coefficients. */
    method ShowPreviews(rawData: seq<byte>, ghost ctx: SweepContext, ghost a2: real, ghost a3: real)
      requires ctx.Valid() && ctx.rawData == rawData && ctx.params == params && ctx.process == controller.process
      requires controller.settings == WithCoefficients(ctx.settings, a2, a3)
      modifies this, controller
      ensures params == old(params)
      ensures bestD2 == old(bestD2) && bestD3 == old(bestD3)
      ensures bestMetricValueD2 == old(bestMetricValueD2) && bestMetricValueD3 == old(bestMetricValueD3)
      ensures controller.settings == WithCoefficients(ctx.settings, bestD2, bestD3)
      ensures events == old(events) + PreviewsLog(ctx, bestD2, bestD3)
    {
      ghost var events0 := events;
      WithCoefficientsTwice(ctx.settings, a2, a3, 0.0, 0.0);
      var ascanWithoutDispersionCompensation := ProcessFirstLineOnly(rawData, 0.0, 0.0);
      events := events + [AscanWithoutDispersionCalculated(ascanWithoutDispersionCompensation)];
      ghost var events1 := events;
      WithCoefficientsTwice(ctx.settings, 0.0, 0.0, bestD2, bestD3);
      var ascanWithBestDispersion := ProcessFirstLineOnly(rawData, bestD2, bestD3);
      events := events + [AscanWithBestDispersionCalculated(ascanWithBestDispersion)];
      assert events1 == events0 + PreviewEvents(Preview(ctx, 0.0, 0.0))
                       + [AscanWithoutDispersionCalculated(AscanOf(Preview(ctx, 0.0, 0.0)))];
    }

    /** The whole estimation on one raw frame. */
    method StartDispersionEstimation(frameBuffer: seq<byte>, bitDepth: u32, samplesPerLine: u32, linesPerFrame: u32,
                                     fromFile: Option<ProcessingSettings>)
      requires 0 < bitDepth < 0x8000_0000
      requires |frameBuffer| >= linesPerFrame * LineSizeBytes(samplesPerLine, bitDepth)
      requires |AfterLoad(controller.settings, fromFile).dispersionCoefficients| >= 4
      requires params.numberOfAscanSamplesToIgnore >= 0
      modifies this, controller, calculator
      ensures params == old(params) && calculator.params == params
      ensures var ctx := EstimationContext(controller.process, old(controller.settings), fromFile, params,
                                           resamplingCurvePath, frameBuffer, bitDepth, samplesPerLine, linesPerFrame);
              var s2 := D2Sweep(ctx);
              var s3 := D3Sweep(ctx, s2.bestValue);
              && bestD2 == s2.bestValue && bestD3 == s3.bestValue
              && bestMetricValueD2 == 0.0 && bestMetricValueD3 == s3.bestMetric
              && controller.settings == WithCoefficients(ctx.settings, bestD2, bestD3)
              && events == old(events) + EstimationLog(ctx)
    {
      ghost var events0 := events;
      events := events + [StatusUpdate(Started), EstimationProcessStarted];
      PrepareProcessing(bitDepth, samplesPerLine, linesPerFrame, fromFile);
      var rawData := ExtractRegion(frameBuffer, bitDepth, samplesPerLine, linesPerFrame, params.numberOfCenterAscans);
      ghost var ctx := EstimationContext(controller.process, old(controller.settings), fromFile, params,
                                         resamplingCurvePath, frameBuffer, bitDepth, samplesPerLine, linesPerFrame);
      ghost var events1 := events;
      ghost var last2, last3 := RunSweeps(rawData, ctx);
      ghost var events2 := events;
      ShowPreviews(rawData, ctx, last2, last3);
      events := events + [DispersionEstimationReady(bestD2, bestD3), BestD2Estimated(bestD2),
                          BestD3Estimated(bestD3), StatusUpdate(ReadyForNext)];
      EstimationLogPieces(ctx, events0);
    }
  }
}
