/** The forecaster's configuration (`ModelConfig` in esrnn/contrib/esrnn.py):
    the hyperparameters the modelled code reads and the two series lengths
    derived from them. */
module Config {
  import opened Base

  /** The values read from the configuration document, grouped as it groups them. */
  datatype ConfigDocument = ConfigDocument(
    datasetName: string,
    // train_parameters
    maxEpochs: nat,
    learningRate: real,
    levelVariabilityPenalty: real,
    percentile: real,
    trainingPercentile: real,
    // model_parameters
    lback: nat,
    // data_parameters
    seasonality: nat,
    inputSize: nat,
    outputSize: nat,
    frequency: int,
    minInpSeqLength: nat,
    maxNumSeries: nat)

  /** A loaded configuration. `maxSeriesLength` is `None` when the source leaves
      the attribute unassigned (an unsupported seasonality). The sampling
      frequency is the step between consecutive integer timestamps. */
  datatype ModelConfig = ModelConfig(
    datasetName: string,
    maxEpochs: nat,
    learningRate: real,
    levelVariabilityPenalty: real,
    tau: real,
    trainingTau: real,
    lback: nat,
    seasonality: nat,
    inputSize: nat,
    outputSize: nat,
    frequency: int,
    minInpSeqLength: nat,
    minSeriesLength: nat,
    maxSeriesLength: Option<nat>,
    maxNumSeries: nat,
    rootDir: string,
    copy: nat)

  /** The seasonalities for which a maximum series length is defined. */
  predicate SupportedSeasonality(seasonality: nat)
  {
    seasonality == 4 || seasonality == 7 || seasonality == 12 || seasonality == 30
  }

  /** The shortest series that still holds one input window, one output window
      and the minimum number of training steps. */
  function MinSeriesLength(inputSize: nat, outputSize: nat, minInpSeqLength: nat): (r: nat)
    ensures r >= inputSize + outputSize + 2
    ensures r - minInpSeqLength == inputSize + outputSize + 2
  {
    inputSize + outputSize + minInpSeqLength + 2
  }

  /** How many recent points of a series are kept: a number of whole seasonal
      periods beyond the minimum length (forty quarters, twenty periods otherwise). */
  function MaxSeriesLength(seasonality: nat, minSeriesLength: nat): (r: Option<nat>)
    ensures r.Some? <==> SupportedSeasonality(seasonality)
    ensures r.Some? ==> r.value >= minSeriesLength + 20 * seasonality
    ensures r.Some? ==> (r.value - minSeriesLength) % seasonality == 0
  {
    if seasonality == 4 then Some(40 * seasonality + minSeriesLength)
    else if seasonality == 7 then Some(20 * seasonality + minSeriesLength)
    else if seasonality == 12 then Some(20 * seasonality + minSeriesLength)
    else if seasonality == 30 then Some(20 * seasonality + minSeriesLength)
    else None
  }

  /** The constructor of the configuration, from an already loaded document. */
  function NewModelConfig(doc: ConfigDocument, rootDir: string, copy: nat): (cfg: ModelConfig)
    ensures cfg.minSeriesLength == doc.inputSize + doc.outputSize + doc.minInpSeqLength + 2
    ensures cfg.maxSeriesLength.Some? <==> SupportedSeasonality(doc.seasonality)
    ensures cfg.maxSeriesLength == MaxSeriesLength(doc.seasonality, cfg.minSeriesLength)
    ensures cfg.maxSeriesLength.Some? ==> cfg.maxSeriesLength.value >= cfg.minSeriesLength + 80
    ensures cfg.tau == doc.percentile / 100.0 && cfg.trainingTau == doc.trainingPercentile / 100.0
    ensures cfg.seasonality == doc.seasonality && cfg.inputSize == doc.inputSize
    ensures cfg.outputSize == doc.outputSize && cfg.lback == doc.lback
    ensures cfg.maxEpochs == doc.maxEpochs && cfg.levelVariabilityPenalty == doc.levelVariabilityPenalty
    ensures cfg.frequency == doc.frequency && cfg.maxNumSeries == doc.maxNumSeries
  {
    var minLength := MinSeriesLength(doc.inputSize, doc.outputSize, doc.minInpSeqLength);
    ModelConfig(
      datasetName := doc.datasetName,
      maxEpochs := doc.maxEpochs,
      learningRate := doc.learningRate,
      levelVariabilityPenalty := doc.levelVariabilityPenalty,
      tau := doc.percentile / 100.0,
      trainingTau := doc.trainingPercentile / 100.0,
      lback := doc.lback,
      seasonality := doc.seasonality,
      inputSize := doc.inputSize,
      outputSize := doc.outputSize,
      frequency := doc.frequency,
      minInpSeqLength := doc.minInpSeqLength,
      minSeriesLength := minLength,
      maxSeriesLength := MaxSeriesLength(doc.seasonality, minLength),
      maxNumSeries := doc.maxNumSeries,
      rootDir := rootDir,
      copy := copy)
  }

  /** The number of whole periods above the minimum length: 40 for quarterly
      data, 20 for weekly-of-days, monthly and daily-of-month seasonalities. */
  lemma MaxSeriesLengthPeriods(seasonality: nat, minSeriesLength: nat)
    requires SupportedSeasonality(seasonality)
    ensures MaxSeriesLength(seasonality, minSeriesLength).Some?
    ensures MaxSeriesLength(seasonality, minSeriesLength).value - minSeriesLength
            == (if seasonality == 4 then 40 else 20) * seasonality
  {
  }
}
