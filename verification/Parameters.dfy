/** The estimator's parameter record, as the settings form fills it in. */
module Parameters {
  import opened Common

  /** The four sharpness metrics; any other enumerator value (an integer read back
      from stored settings) is `Unrecognised`. */
  datatype SharpnessMetric =
    | SumAboveThreshold
    | SamplesAboveThreshold
    | PeakValue
    | MeanSobel
    | Unrecognised(code: int)

  /** The fields of the parameter record that the core reads. Widget state
      (window geometry, region of interest, buffer source, visibility) is not modelled. */
  datatype DispersionEstimatorParameters = DispersionEstimatorParameters(
    frameNr: i32,
    bufferNr: i32,
    numberOfCenterAscans: i32,
    useLinearAscans: bool,
    numberOfAscanSamplesToIgnore: i32,
    autoCalcD1: bool,
    sharpnessMetric: SharpnessMetric,
    metricThreshold: real,
    d2start: real,
    d2end: real,
    d3start: real,
    d3end: real,
    numberOfDispersionSamples: i32)
}
