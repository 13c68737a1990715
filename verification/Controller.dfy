/** The processor controller: it keeps the processing settings record, lets
    callers overwrite it or parts of it, and runs one processing pass over a raw
    byte buffer. The spectral processor itself is not modelled: it is an abstract,
    deterministic function of the configuration it is built from and of its input. */
module Controller {
  import opened Common

  /** The processing stage switches. */
  datatype ProcessingOptions = ProcessingOptions(
    removeDC: bool,
    resample: bool,
    useCustomResamplingCurve: bool,
    compensateDispersion: bool,
    applyWindow: bool,
    computeIFFT: bool,
    logScale: bool)

  /** The controller's settings record. */
  datatype ProcessingSettings = ProcessingSettings(
    bitDepth: int,
    samplesPerSpectrum: nat,
    spectraPerFrame: nat,
    framesPerVolume: nat,
    rollingAverageWindowSize: nat,
    processingOptions: ProcessingOptions,
    dispersionCoefficients: seq<real>,
    resamplingCoefficients: seq<real>,
    filePathCustomResamplingCurve: string,
    logScaleCoeff: real,
    logScaleMin: real,
    logScaleMax: real,
    logScaleAddend: real,
    autoComputeLogScaleMinMax: bool)

  /** Everything a processing pass hands to a freshly built processor. The
      controller's `rollingAverageWindowSize` goes into the processor's second
      constructor argument, `windowSize`; `framesPerVolume` is not handed over. */
  datatype ProcessorConfig = ProcessorConfig(
    samplesPerSpectrum: nat,
    windowSize: nat,
    processingOptions: ProcessingOptions,
    dispersionCoefficients: seq<real>,
    resamplingCoefficients: seq<real>,
    filePathCustomResamplingCurve: string,
    logScaleCoeff: real,
    logScaleMin: real,
    logScaleMax: real,
    logScaleAddend: real,
    autoComputeLogScaleMinMax: bool,
    inputBitDepth: int,
    spectraPerFrame: nat)

  /** Processor output: frames of spectra of samples. */
  type Frames = seq<seq<seq<real>>>

  /** `processRawData`: configuration, raw bytes and sample count to output frames. */
  type ProcessFn = (ProcessorConfig, seq<byte>, nat) -> Frames

  function ConfigOf(s: ProcessingSettings): ProcessorConfig
  {
    ProcessorConfig(
      s.samplesPerSpectrum, s.rollingAverageWindowSize, s.processingOptions,
      s.dispersionCoefficients, s.resamplingCoefficients, s.filePathCustomResamplingCurve,
      s.logScaleCoeff, s.logScaleMin, s.logScaleMax, s.logScaleAddend,
      s.autoComputeLogScaleMinMax, s.bitDepth, s.spectraPerFrame)
  }

  /** Two settings records build the same processor exactly when they differ at
      most in `framesPerVolume`. */
  lemma ConfigIgnoresOnlyFramesPerVolume(s: ProcessingSettings, t: ProcessingSettings)
    ensures ConfigOf(s) == ConfigOf(t) <==> s.(framesPerVolume := t.framesPerVolume) == t
  {
  }

  /** The settings with dispersion coefficients 2 and 3 overwritten. */
  function WithCoefficients(s: ProcessingSettings, d2: real, d3: real): ProcessingSettings
    requires |s.dispersionCoefficients| >= 4
  {
    s.(dispersionCoefficients := s.dispersionCoefficients[2 := d2][3 := d3])
  }

  /** `s` and `t` differ at most in dispersion coefficients 2 and 3. */
  ghost predicate SameExceptD2D3(s: ProcessingSettings, t: ProcessingSettings)
  {
    && |s.dispersionCoefficients| == |t.dispersionCoefficients| >= 4
    && t == s.(dispersionCoefficients := t.dispersionCoefficients)
    && forall k :: 0 <= k < |s.dispersionCoefficients| && k != 2 && k != 3 ==>
         s.dispersionCoefficients[k] == t.dispersionCoefficients[k]
  }

  /** Overwriting d2 and d3 forgets what they were before. */
  lemma WithCoefficientsForgetsOld(s: ProcessingSettings, t: ProcessingSettings, d2: real, d3: real)
    requires SameExceptD2D3(s, t)
    ensures WithCoefficients(s, d2, d3) == WithCoefficients(t, d2, d3)
  {
    var a := s.dispersionCoefficients[2 := d2][3 := d3];
    var b := t.dispersionCoefficients[2 := d2][3 := d3];
    assert forall k :: 0 <= k < |a| ==> a[k] == b[k];
    assert a == b;
  }

  /** Overwriting twice is overwriting once with the later values. */
  lemma WithCoefficientsTwice(s: ProcessingSettings, a2: real, a3: real, d2: real, d3: real)
    requires |s.dispersionCoefficients| >= 4
    ensures WithCoefficients(WithCoefficients(s, a2, a3), d2, d3) == WithCoefficients(s, d2, d3)
  {
    var t := WithCoefficients(s, a2, a3);
    assert SameExceptD2D3(s, t);
    WithCoefficientsForgetsOld(s, t, d2, d3);
  }

  /** The number of samples handed to the processor for `byteCount` bytes. */
  function TotalSamples(byteCount: nat, bitDepth: int): nat
    requires bitDepth > 0
  {
    byteCount / BytesPerSample(bitDepth)
  }

  /** The sample count is the number of whole samples the bytes hold: a
      trailing partial sample is dropped. */
  lemma TotalSamplesAreWhole(byteCount: nat, bitDepth: int)
    requires bitDepth > 0
    ensures BytesPerSample(bitDepth) >= 1
    ensures TotalSamples(byteCount, bitDepth) * BytesPerSample(bitDepth) <= byteCount
    ensures byteCount < (TotalSamples(byteCount, bitDepth) + 1) * BytesPerSample(bitDepth)
  {
    var b := BytesPerSample(bitDepth);
    var r := byteCount / b;
    assert byteCount == r * b + byteCount % b;
    assert (r + 1) * b == r * b + b;
  }

  /** The in-order concatenation of the spectra of one frame. */
  function Flatten(spectra: seq<seq<real>>): seq<real>
  {
    if |spectra| == 0 then [] else Flatten(spectra[..|spectra| - 1]) + spectra[|spectra| - 1]
  }

  lemma {:induction false} FlattenLength(spectra: seq<seq<real>>, len: nat)
    requires forall j :: 0 <= j < |spectra| ==> |spectra[j]| == len
    ensures |Flatten(spectra)| == |spectra| * len
  {
    if |spectra| > 0 {
      var n := |spectra| - 1;
      FlattenLength(spectra[..n], len);
      assert |spectra| * len == n * len + len;
    }
  }

  /** When every spectrum has `len` samples, sample `k` of spectrum `j` sits at
      position `j * len + k` of the concatenation. */
  lemma {:induction false} FlattenAt(spectra: seq<seq<real>>, len: nat, j: nat, k: nat)
    requires forall i :: 0 <= i < |spectra| ==> |spectra[i]| == len
    requires j < |spectra| && k < len
    ensures |Flatten(spectra)| == |spectra| * len
    ensures j * len + k < |Flatten(spectra)| && Flatten(spectra)[j * len + k] == spectra[j][k]
  {
    var n := |spectra| - 1;
    var init := spectra[..n];
    FlattenLength(spectra, len);
    FlattenLength(init, len);
    MulLeq(j + 1, n + 1, len);
    assert (j + 1) * len == j * len + len;
    if j < n {
      MulLeq(j + 1, n, len);
      FlattenAt(init, len, j, k);
    } else {
      assert |Flatten(init)| == j * len;
    }
  }

  /** The result of one processing pass: the flattened first frame, when the
      processor produced a non-empty one. */
  function Processed(process: ProcessFn, s: ProcessingSettings, rawData: seq<byte>): Option<seq<real>>
    requires s.bitDepth > 0
  {
    var frames := process(ConfigOf(s), rawData, TotalSamples(|rawData|, s.bitDepth));
    if |frames| > 0 && |frames[0]| > 0 then Some(Flatten(frames[0])) else None
  }

  class ProcessorController {
    var settings: ProcessingSettings
    /** The processor type; a new processor is built from `settings` on every pass. */
    const process: ProcessFn

    constructor (process: ProcessFn, initial: ProcessingSettings)
      ensures settings == initial && this.process == process
    {
      this.process := process;
      settings := initial;
    }

    method SetProcessingSettings(s: ProcessingSettings)
      modifies this
      ensures settings == s
    {
      settings := s;
    }

    method SetDispersionCoefficients(d2: real, d3: real)
      requires |settings.dispersionCoefficients| >= 4
      modifies this
      ensures settings == WithCoefficients(old(settings), d2, d3)
      ensures SameExceptD2D3(old(settings), settings)
      ensures settings.dispersionCoefficients[2] == d2 && settings.dispersionCoefficients[3] == d3
    {
      settings := settings.(dispersionCoefficients := settings.dispersionCoefficients[2 := d2][3 := d3]);
    }

    method LoadCustomResamplingCurveFromFile(filePath: string)
      modifies this
      ensures settings == old(settings).(filePathCustomResamplingCurve := filePath)
    {
      settings := settings.(filePathCustomResamplingCurve := filePath);
    }

    /** One processing pass. On success `output` is exactly the concatenation of
        the first frame's spectra; on failure it is `outputData` untouched. */
    method ProcessData(rawData: seq<byte>, outputData: seq<real>) returns (success: bool, output: seq<real>)
      requires settings.bitDepth > 0
      ensures var frames := process(ConfigOf(settings), rawData, TotalSamples(|rawData|, settings.bitDepth));
              && success == (|frames| > 0 && |frames[0]| > 0)
              && output == (if success then Flatten(frames[0]) else outputData)
      ensures success == Processed(process, settings, rawData).Some?
      ensures success ==> output == Processed(process, settings, rawData).value
    {
      var bytesPerSample := BytesPerSample(settings.bitDepth);
      var totalSamples := |rawData| / bytesPerSample;
      var processedData := process(ConfigOf(settings), rawData, totalSamples);
      output := outputData;
      if |processedData| > 0 && |processedData[0]| > 0 {
        output := [];
        var frame := processedData[0];
        for j := 0 to |frame|
          invariant output == Flatten(frame[..j])
        {
          assert frame[..j + 1][..j] == frame[..j];
          output := output + frame[j];
        }
        assert frame[..|frame|] == frame;
        return true, output;
      }
      return false, output;
    }
  }
}
