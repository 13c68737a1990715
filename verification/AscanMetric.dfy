/** The A-scan sharpness metric: a processed frame, given as one flat buffer of
    samples, is cut into lines; each line loses its first
    `numberOfAscanSamplesToIgnore` samples, is scored by the selected metric, and
    the line scores are summed. Sample values are modelled as `real`. */
module AscanMetric {
  import opened Common
  import opened Parameters

  // ---------------------------------------------------------------------------
  // Per-line scores (specification)
  // ---------------------------------------------------------------------------

  function Abs(x: real): real { if x < 0.0 then -x else x }

  /** `std::max(a, b)`: `b` only when `a < b`. */
  function Max(a: real, b: real): real { if a < b then b else a }

  /** Sum of the samples strictly above `thr`. */
  function SumAbove(line: seq<real>, thr: real): real
  {
    if |line| == 0 then 0.0
    else SumAbove(line[..|line| - 1], thr) + (if line[|line| - 1] > thr then line[|line| - 1] else 0.0)
  }

  /** Number of samples strictly above `thr`. */
  function CountAbove(line: seq<real>, thr: real): (r: nat)
    ensures r <= |line|
  {
    if |line| == 0 then 0
    else CountAbove(line[..|line| - 1], thr) + (if line[|line| - 1] > thr then 1 else 0)
  }

  /** Running maximum that starts at 0: the largest sample, floored at 0. */
  function Peak(line: seq<real>): (r: real)
    ensures 0.0 <= r
    ensures forall i :: 0 <= i < |line| ==> line[i] <= r
    ensures r == 0.0 || exists i :: 0 <= i < |line| && line[i] == r
  {
    if |line| == 0 then 0.0
    else
      var p := Peak(line[..|line| - 1]);
      assert forall i :: 0 <= i < |line| - 1 ==> line[..|line| - 1][i] == line[i];
      Max(p, line[|line| - 1])
  }

  /** Absolute central difference at interior index `i`. */
  function Gradient(line: seq<real>, i: nat): real
    requires 1 <= i < |line| - 1
  {
    Abs((line[i + 1] - line[i - 1]) * 0.5)
  }

  /** Sum of `Gradient(line, i)` over the interior indices `1 <= i < hi`. */
  function GradientSum(line: seq<real>, hi: nat): (r: real)
    requires hi < |line|
    ensures r >= 0.0
  {
    if hi <= 1 then 0.0 else GradientSum(line, hi - 1) + Gradient(line, hi - 1)
  }

  /** Mean absolute central difference over the `|line| - 2` interior samples;
      0 for fewer than three samples. */
  function MeanSobelOf(line: seq<real>): (r: real)
    ensures r >= 0.0
  {
    if |line| < 3 then 0.0 else GradientSum(line, |line| - 1) / (|line| - 2) as real
  }

  /** The score of one line under the selected metric. */
  function LineScore(metric: SharpnessMetric, thr: real, line: seq<real>): real
  {
    match metric
    case SumAboveThreshold => SumAbove(line, thr)
    case SamplesAboveThreshold => CountAbove(line, thr) as real
    case PeakValue => Peak(line)
    case MeanSobel => MeanSobelOf(line)
    case Unrecognised(_) => 0.0
  }

  // ---------------------------------------------------------------------------
  // Whole-buffer metric (specification)
  // ---------------------------------------------------------------------------

  lemma LineFits(n: nat, spl: nat, k: nat)
    requires k < n
    ensures (k + 1) * spl <= n * spl
  {
  }

  /** Line `k` of `n` whole lines of `spl` samples spans `[k * spl, k * spl + spl)`
      within a buffer of `len` samples. */
  lemma LineSpan(len: nat, spl: nat, n: nat, k: nat)
    requires n * spl <= len && k < n
    ensures k * spl + spl == (k + 1) * spl <= len
  {
    LineFits(n, spl, k);
  }

  lemma WholeLinesFit(len: nat, spl: int)
    requires spl > 0
    ensures (len / spl) * spl <= len
  {
  }

  lemma {:induction false} MulAtLeast(k: nat, spl: int)
    requires k >= 1 && spl > 0
    ensures k * spl >= spl
  {
    if k > 1 {
      MulAtLeast(k - 1, spl);
      assert k * spl == (k - 1) * spl + spl;
    }
  }

  lemma DivOfMultiple(n: nat, spl: int)
    requires spl > 0
    ensures (n * spl) / spl == n
  {
    var q, r := (n * spl) / spl, (n * spl) % spl;
    assert n * spl == q * spl + r && 0 <= r < spl;
    assert q >= 0;
    if n > q {
      assert (n - q) * spl == n * spl - q * spl;
      MulAtLeast(n - q, spl);
    }
  }

  /** The samples of line `k` that are scored: the line without its first
      `min(ignore, spl)` samples. */
  function ValidLine(data: seq<real>, spl: int, ignore: int, k: nat): seq<real>
    requires spl > 0 && ignore >= 0
    requires (k + 1) * spl <= |data|
  {
    data[k * spl + Min(ignore, spl) .. (k + 1) * spl]
  }

  /** Sum of the scores of the first `n` lines. */
  function LinesTotal(p: DispersionEstimatorParameters, data: seq<real>, spl: int, n: nat): real
    requires spl > 0 && p.numberOfAscanSamplesToIgnore >= 0
    requires n * spl <= |data|
  {
    if n == 0 then 0.0
    else
      LineFits(n, spl, n - 1);
      LinesTotal(p, data, spl, n - 1)
        + LineScore(p.sharpnessMetric, p.metricThreshold,
                    ValidLine(data, spl, p.numberOfAscanSamplesToIgnore, n - 1))
  }

  /** One more line adds its score. */
  lemma LinesTotalNext(p: DispersionEstimatorParameters, data: seq<real>, spl: int, k: nat)
    requires spl > 0 && p.numberOfAscanSamplesToIgnore >= 0
    requires (k + 1) * spl <= |data|
    ensures k * spl <= |data|
    ensures LinesTotal(p, data, spl, k + 1)
         == LinesTotal(p, data, spl, k)
            + LineScore(p.sharpnessMetric, p.metricThreshold,
                        ValidLine(data, spl, p.numberOfAscanSamplesToIgnore, k))
  {
    LineFits(k + 1, spl, k);
  }

  /** Every metric scores an empty line 0. */
  lemma EmptyLineScoresZero(metric: SharpnessMetric, thr: real)
    ensures LineScore(metric, thr, []) == 0.0
  {
  }

  /** The metric of a flat buffer: 0 for a non-positive line length or an empty
      buffer, otherwise the sum over the `|data| / spl` whole lines. */
  function Metric(p: DispersionEstimatorParameters, data: seq<real>, spl: int): real
    requires p.numberOfAscanSamplesToIgnore >= 0
  {
    if spl <= 0 || |data| == 0 then 0.0
    else
      WholeLinesFit(|data|, spl);
      LinesTotal(p, data, spl, |data| / spl)
  }

  // ---------------------------------------------------------------------------
  // Properties of the specification
  // ---------------------------------------------------------------------------

  /** Every sample is counted exactly when all of them exceed the threshold. */
  lemma {:induction false} CountAboveAll(line: seq<real>, thr: real)
    ensures CountAbove(line, thr) == |line| <==> forall i :: 0 <= i < |line| ==> line[i] > thr
  {
    if |line| > 0 {
      var init := line[..|line| - 1];
      CountAboveAll(init, thr);
      assert forall i :: 0 <= i < |init| ==> init[i] == line[i];
    }
  }

  /** Each counted sample adds more than the threshold to the sum. */
  lemma {:induction false} SumAboveExceedsCount(line: seq<real>, thr: real)
    ensures CountAbove(line, thr) as real * thr <= SumAbove(line, thr)
    ensures CountAbove(line, thr) > 0 ==> CountAbove(line, thr) as real * thr < SumAbove(line, thr)
  {
    if |line| > 0 {
      var init, x := line[..|line| - 1], line[|line| - 1];
      SumAboveExceedsCount(init, thr);
      var c := CountAbove(init, thr) as real;
      if x > thr {
        assert CountAbove(line, thr) as real == c + 1.0;
        assert SumAbove(line, thr) == SumAbove(init, thr) + x;
        AddOneMultiple(c, thr);
      } else {
        assert CountAbove(line, thr) == CountAbove(init, thr);
        assert SumAbove(line, thr) == SumAbove(init, thr);
      }
    }
  }

  /** Samples at or below the threshold (equal ones included) do not matter:
      two lines that agree wherever either exceeds the threshold have the same
      sum and count. */
  lemma {:induction false} ThresholdSeesOnlyExceeding(a: seq<real>, b: seq<real>, thr: real)
    requires |a| == |b|
    requires forall i :: 0 <= i < |a| && (a[i] > thr || b[i] > thr) ==> a[i] == b[i]
    ensures SumAbove(a, thr) == SumAbove(b, thr)
    ensures CountAbove(a, thr) == CountAbove(b, thr)
  {
    if |a| > 0 {
      var a', b' := a[..|a| - 1], b[..|b| - 1];
      assert forall i :: 0 <= i < |a'| ==> a'[i] == a[i] && b'[i] == b[i];
      ThresholdSeesOnlyExceeding(a', b', thr);
    }
  }

  lemma RampGradient(line: seq<real>, a: real, s: real, i: nat)
    requires 1 <= i < |line| - 1
    requires line[i + 1] == a + s * (i + 1) as real
    requires line[i - 1] == a + s * (i - 1) as real
    ensures Gradient(line, i) == Abs(s)
  {
    var x := i as real;
    assert (i + 1) as real == x + 1.0 && (i - 1) as real == x - 1.0;
    assert line[i + 1] - line[i - 1] == s * (x + 1.0) - s * (x - 1.0);
    assert s * (x + 1.0) - s * (x - 1.0) == 2.0 * s;
  }

  lemma AddOneMultiple(y: real, g: real)
    ensures (y + 1.0) * g == y * g + g
  {
  }

  /** When every interior central difference is `g`, the first `hi - 1` of them sum to `(hi - 1) * g`. */
  lemma {:induction false} GradientSumOfConstant(line: seq<real>, g: real, hi: nat)
    requires hi < |line|
    requires forall i :: 1 <= i < |line| - 1 ==> Gradient(line, i) == g
    ensures GradientSum(line, hi) == (if hi <= 1 then 0.0 else (hi - 1) as real * g)
  {
    if hi > 1 {
      GradientSumOfConstant(line, g, hi - 1);
      var y := (hi - 2) as real;
      assert (hi - 1) as real == y + 1.0;
      AddOneMultiple(y, g);
    }
  }

  lemma GradientSumOfRamp(line: seq<real>, a: real, s: real, hi: nat)
    requires hi < |line|
    requires forall i :: 0 <= i < |line| ==> line[i] == a + s * i as real
    ensures GradientSum(line, hi) == (if hi <= 1 then 0.0 else (hi - 1) as real * Abs(s))
  {
    forall i | 1 <= i < |line| - 1
      ensures Gradient(line, i) == Abs(s)
    {
      RampGradient(line, a, s, i);
    }
    GradientSumOfConstant(line, Abs(s), hi);
  }

  /** On a linear ramp of slope `s` every interior central difference is `|s|`,
      so the mean is `|s|`. */
  lemma MeanSobelOfRamp(line: seq<real>, a: real, s: real)
    requires |line| >= 3
    requires forall i :: 0 <= i < |line| ==> line[i] == a + s * i as real
    ensures MeanSobelOf(line) == Abs(s)
  {
    GradientSumOfRamp(line, a, s, |line| - 1);
  }

  /** Two buffers that agree on their first `n` lines give the same total for them. */
  lemma {:induction false} LinesTotalOfPrefix(p: DispersionEstimatorParameters, a: seq<real>, b: seq<real>, spl: int, n: nat)
    requires spl > 0 && p.numberOfAscanSamplesToIgnore >= 0
    requires n * spl <= |a| && n * spl <= |b|
    requires a[..n * spl] == b[..n * spl]
    ensures LinesTotal(p, a, spl, n) == LinesTotal(p, b, spl, n)
  {
    if n > 0 {
      LineFits(n, spl, n - 1);
      assert a[..(n - 1) * spl] == a[..n * spl][..(n - 1) * spl];
      assert b[..(n - 1) * spl] == b[..n * spl][..(n - 1) * spl];
      LinesTotalOfPrefix(p, a, b, spl, n - 1);
      var lo := (n - 1) * spl + Min(p.numberOfAscanSamplesToIgnore, spl);
      assert a[lo..n * spl] == a[..n * spl][lo..];
      assert b[lo..n * spl] == b[..n * spl][lo..];
    }
  }

  /** Only whole lines are scored: dropping the trailing partial line changes nothing. */
  lemma MetricIgnoresPartialLine(p: DispersionEstimatorParameters, data: seq<real>, spl: int)
    requires p.numberOfAscanSamplesToIgnore >= 0
    requires spl > 0
    ensures Metric(p, data, spl) == Metric(p, data[..(|data| / spl) * spl], spl)
  {
    WholeLinesFit(|data|, spl);
    var n := |data| / spl;
    var whole := data[..n * spl];
    if |whole| > 0 {
      DivOfMultiple(n, spl);
      assert |whole| / spl == n;
      assert whole[..n * spl] == data[..n * spl];
      LinesTotalOfPrefix(p, data, whole, spl, n);
    }
  }

  /** The metric is a sum of line scores: appending one whole line adds exactly
      that line's score (of its samples after the ignored ones). */
  lemma MetricOfAppendedLine(p: DispersionEstimatorParameters, data: seq<real>, line: seq<real>, spl: int)
    requires p.numberOfAscanSamplesToIgnore >= 0
    requires spl > 0 && |data| % spl == 0 && |line| == spl
    ensures Metric(p, data + line, spl)
         == Metric(p, data, spl)
            + LineScore(p.sharpnessMetric, p.metricThreshold, line[Min(p.numberOfAscanSamplesToIgnore, spl)..])
  {
    var n := |data| / spl;
    AppendedLineLayout(|data|, spl);
    LinesTotalOfAppended(p, data, line, spl, n);
    MetricOfWholeLines(p, data, spl, n);
    MetricOfWholeLines(p, data + line, spl, n + 1);
  }

  /** On a buffer of `n` whole lines the metric is the total of those lines. */
  lemma MetricOfWholeLines(p: DispersionEstimatorParameters, data: seq<real>, spl: int, n: nat)
    requires p.numberOfAscanSamplesToIgnore >= 0
    requires spl > 0 && |data| == n * spl
    ensures Metric(p, data, spl) == LinesTotal(p, data, spl, n)
  {
    if n > 0 {
      MulAtLeast(n, spl);
      DivOfMultiple(n, spl);
    }
  }

  /** The first `n + 1` lines of `data + line`, when `data` is `n` whole lines. */
  lemma LinesTotalOfAppended(p: DispersionEstimatorParameters, data: seq<real>, line: seq<real>, spl: int, n: nat)
    requires p.numberOfAscanSamplesToIgnore >= 0
    requires spl > 0 && |data| == n * spl && |line| == spl
    ensures (n + 1) * spl == |data + line|
    ensures LinesTotal(p, data + line, spl, n + 1)
         == LinesTotal(p, data, spl, n)
            + LineScore(p.sharpnessMetric, p.metricThreshold, line[Min(p.numberOfAscanSamplesToIgnore, spl)..])
  {
    var all := data + line;
    var m := Min(p.numberOfAscanSamplesToIgnore, spl);
    assert (n + 1) * spl == n * spl + spl;
    assert LinesTotal(p, all, spl, n) == LinesTotal(p, data, spl, n) by {
      assert all[..n * spl] == data[..n * spl];
      LinesTotalOfPrefix(p, all, data, spl, n);
    }
    assert ValidLine(all, spl, p.numberOfAscanSamplesToIgnore, n) == line[m..] by {
      assert all[n * spl + m..(n + 1) * spl] == line[m..];
    }
  }

  /** Where the lines sit when one whole line is appended to whole lines. */
  lemma AppendedLineLayout(len: nat, spl: int)
    requires spl > 0 && len % spl == 0
    ensures len == (len / spl) * spl
    ensures (len / spl + 1) * spl == len + spl
  {
    var n := len / spl;
    assert (n + 1) * spl == n * spl + spl;
  }

  lemma {:induction false} LinesTotalVanishes(p: DispersionEstimatorParameters, data: seq<real>, spl: int, n: nat)
    requires spl > 0 && p.numberOfAscanSamplesToIgnore >= 0
    requires n * spl <= |data|
    requires p.sharpnessMetric.Unrecognised? || p.numberOfAscanSamplesToIgnore >= spl
    ensures LinesTotal(p, data, spl, n) == 0.0
  {
    if n > 0 {
      LineFits(n, spl, n - 1);
      LinesTotalVanishes(p, data, spl, n - 1);
    }
  }

  /** An unrecognised metric scores every line 0. */
  lemma UnrecognisedMetricIsZero(p: DispersionEstimatorParameters, data: seq<real>, spl: int)
    requires p.numberOfAscanSamplesToIgnore >= 0
    requires p.sharpnessMetric.Unrecognised?
    ensures Metric(p, data, spl) == 0.0
  {
    if spl > 0 && |data| > 0 {
      var n := |data| / spl;
      WholeLinesFit(|data|, spl);
      assert Metric(p, data, spl) == LinesTotal(p, data, spl, n);
      LinesTotalVanishes(p, data, spl, n);
    }
  }

  /** Ignoring at least a whole line's worth of samples leaves nothing to score. */
  lemma IgnoringWholeLinesIsZero(p: DispersionEstimatorParameters, data: seq<real>, spl: int)
    requires p.numberOfAscanSamplesToIgnore >= 0
    requires p.numberOfAscanSamplesToIgnore >= spl
    ensures Metric(p, data, spl) == 0.0
  {
    if spl > 0 && |data| > 0 {
      var n := |data| / spl;
      WholeLinesFit(|data|, spl);
      assert Metric(p, data, spl) == LinesTotal(p, data, spl, n);
      LinesTotalVanishes(p, data, spl, n);
    }
  }

  // ---------------------------------------------------------------------------
  // The per-line loops
  // ---------------------------------------------------------------------------

  method ComputeSumAboveThreshold(lineData: seq<real>, thr: real) returns (sum: real)
    ensures sum == SumAbove(lineData, thr)
  {
    sum := 0.0;
    for i := 0 to |lineData|
      invariant sum == SumAbove(lineData[..i], thr)
    {
      assert lineData[..i + 1][..i] == lineData[..i];
      var val := lineData[i];
      if val > thr {
        sum := sum + val;
      }
    }
    assert lineData[..|lineData|] == lineData;
  }

  method ComputeNumberOfSamplesAboveThreshold(lineData: seq<real>, thr: real) returns (count: real)
    ensures count == CountAbove(lineData, thr) as real
  {
    var numberOfSamples := 0;
    for i := 0 to |lineData|
      invariant numberOfSamples == CountAbove(lineData[..i], thr)
    {
      assert lineData[..i + 1][..i] == lineData[..i];
      if lineData[i] > thr {
        numberOfSamples := numberOfSamples + 1;
      }
    }
    assert lineData[..|lineData|] == lineData;
    count := numberOfSamples as real;
  }

  method ComputePeakValue(lineData: seq<real>) returns (maxVal: real)
    ensures maxVal == Peak(lineData)
  {
    maxVal := 0.0;
    for i := 0 to |lineData|
      invariant maxVal == Peak(lineData[..i])
    {
      assert lineData[..i + 1][..i] == lineData[..i];
      maxVal := Max(maxVal, lineData[i]);
    }
    assert lineData[..|lineData|] == lineData;
  }

  method ComputeMeanSobel(lineData: seq<real>) returns (mean: real)
    ensures mean == MeanSobelOf(lineData)
  {
    if |lineData| < 3 {
      return 0.0;
    }
    var sumAbsGradient := 0.0;
    var count := 0;
    for i := 1 to |lineData| - 1
      invariant sumAbsGradient == GradientSum(lineData, i)
      invariant count == i - 1
    {
      var grad := (lineData[i + 1] - lineData[i - 1]) * 0.5;
      sumAbsGradient := sumAbsGradient + Abs(grad);
      count := count + 1;
    }
    mean := if count > 0 then sumAbsGradient / count as real else 0.0;
  }

  // ---------------------------------------------------------------------------
  // The calculator object
  // ---------------------------------------------------------------------------

  /** The parameter record a default-constructed calculator starts from: the metric
      is `SumAboveThreshold`; the source leaves the other fields uninitialised and
      the model gives them zero values. */
  const DefaultParameters := DispersionEstimatorParameters(
    0, 0, 0, false, 0, false, SumAboveThreshold, 0.0, 0.0, 0.0, 0.0, 0.0, 0)

  class AscanMetricCalculator {
    var params: DispersionEstimatorParameters

    constructor Default()
      ensures params.sharpnessMetric == SumAboveThreshold
    {
      params := DefaultParameters;
    }

    constructor (p: DispersionEstimatorParameters)
      ensures params == p
    {
      params := p;
    }

    method SetParameters(p: DispersionEstimatorParameters)
      modifies this
      ensures params == p
    {
      params := p;
    }

    /** Scores the whole lines of `outputData` and sums the line scores. */
    method CalculateMetric(outputData: seq<real>, samplesPerLine: int) returns (totalMetric: real)
      requires params.numberOfAscanSamplesToIgnore >= 0
      ensures samplesPerLine <= 0 || |outputData| == 0 ==> totalMetric == 0.0
      ensures totalMetric == Metric(params, outputData, samplesPerLine)
    {
      if samplesPerLine <= 0 || |outputData| == 0 {
        return 0.0;
      }
      var totalLines := |outputData| / samplesPerLine;
      WholeLinesFit(|outputData|, samplesPerLine);
      totalMetric := 0.0;
      for lineIndex := 0 to totalLines
        invariant totalMetric == LinesTotal(params, outputData, samplesPerLine, lineIndex)
      {
        LineSpan(|outputData|, samplesPerLine, totalLines, lineIndex);
        LinesTotalNext(params, outputData, samplesPerLine, lineIndex);
        var lineMetric := LineMetric(outputData, samplesPerLine, lineIndex);
        totalMetric := totalMetric + lineMetric;
      }
    }

    /** The body of the loop over lines in `calculateMetric`: the score of line
        `lineIndex` after its ignored samples, 0 when nothing is left of it. */
    method LineMetric(outputData: seq<real>, samplesPerLine: int, lineIndex: nat) returns (lineMetric: real)
      requires params.numberOfAscanSamplesToIgnore >= 0
      requires samplesPerLine > 0 && lineIndex * samplesPerLine + samplesPerLine == (lineIndex + 1) * samplesPerLine <= |outputData|
      ensures lineMetric == LineScore(params.sharpnessMetric, params.metricThreshold,
                                      ValidLine(outputData, samplesPerLine, params.numberOfAscanSamplesToIgnore, lineIndex))
    {
      var lineStart := lineIndex * samplesPerLine;
      var ignoreCount := params.numberOfAscanSamplesToIgnore;
      if ignoreCount > 0 {
        ignoreCount := Min(ignoreCount, samplesPerLine);
      }
      var validLineSize := samplesPerLine - ignoreCount;
      if validLineSize <= 0 {
        // nothing is left of the line; its score is 0
        assert ValidLine(outputData, samplesPerLine, params.numberOfAscanSamplesToIgnore, lineIndex) == [];
        EmptyLineScoresZero(params.sharpnessMetric, params.metricThreshold);
        return 0.0;
      }
      var lineData := outputData[lineStart + ignoreCount .. lineStart + samplesPerLine];
      assert lineData == ValidLine(outputData, samplesPerLine, params.numberOfAscanSamplesToIgnore, lineIndex);
      lineMetric := 0.0;
      match params.sharpnessMetric {
        case SumAboveThreshold =>
          lineMetric := ComputeSumAboveThreshold(lineData, params.metricThreshold);
        case SamplesAboveThreshold =>
          lineMetric := ComputeNumberOfSamplesAboveThreshold(lineData, params.metricThreshold);
        case PeakValue =>
          lineMetric := ComputePeakValue(lineData);
        case MeanSobel =>
          lineMetric := ComputeMeanSobel(lineData);
        case Unrecognised(_) =>
      }
    }
  }
}
