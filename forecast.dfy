/** The forward pass of the forecaster on one series: the window loop of
    `train` and the single window of `predict_serie` in
    esrnn/contrib/esrnn.py. Windows are deseasonalised and normalised by the
    level at their last input point, fed to the network, and the network's
    output is compared with the normalised labels (training) or mapped back to
    the scale of the data (prediction). */
module Forecast {
  import opened Base
  import opened Config
  import opened Smoothing
  import opened Losses

  /** The numerical functions the model does not interpret: the logarithm,
      the exponential, the logistic function and the recurrent network, which
      maps one input window to one output window (every call starts from the
      network's initial state, because the state returned by `add_input` is
      not kept). */
  datatype Numerics = Numerics(
    log: real -> real,
    exp: real -> real,
    logistic: real -> real,
    rnn: seq<real> -> seq<real>)

  /** The network's adapter layer has `outputSize` rows. */
  ghost predicate ProducesHorizon(rnn: seq<real> -> seq<real>, h: nat)
  {
    forall v :: |rnn(v)| == h
  }

  lemma HorizonAt(rnn: seq<real> -> seq<real>, h: nat, v: seq<real>)
    requires ProducesHorizon(rnn, h)
    ensures |rnn(v)| == h
  {
  }

  /** `exp` undoes `log` on positive reals. */
  ghost predicate ExpInvertsLog(exp: real -> real, log: real -> real)
  {
    forall x :: x > 0.0 ==> exp(log(x)) == x
  }

  lemma ExpLogAt(exp: real -> real, log: real -> real, x: real)
    requires ExpInvertsLog(exp, log) && x > 0.0
    ensures exp(log(x)) == x
  {
  }

  /** The logarithm of a quotient of positive reals is the difference of the logarithms. */
  ghost predicate LogQuotientRule(log: real -> real)
  {
    forall a, b :: a > 0.0 && b > 0.0 ==> log(Div(a, b)) == log(a) - log(b)
  }

  lemma LogQuotientAt(log: real -> real, a: real, b: real)
    requires LogQuotientRule(log) && a > 0.0 && b > 0.0
    ensures log(Div(a, b)) == log(a) - log(b)
  {
  }

  ghost predicate ExpPositive(exp: real -> real)
  {
    forall x :: exp(x) > 0.0
  }

  /** The window sizes the training loop needs: at least one input and one
      output value per window. */
  predicate ForwardSizes(cfg: ModelConfig)
  {
    cfg.inputSize >= 1 && cfg.outputSize >= 1
  }

  /** One network input: the value divided by its seasonal factor and by the
      anchor level, then logged (`log(y / s / level)`). */
  function InputPoint(v: real, s: real, level: real, log: real -> real): real
  {
    log(Div(Div(v, s), level))
  }

  /** One training label: the logged deseasonalised value divided by the
      anchor level (`log(y / s) / level`). */
  function LabelPoint(v: real, s: real, level: real, log: real -> real): real
  {
    Div(log(Div(v, s)), level)
  }

  /** One forecast: the exponentiated output times its seasonal factor and the anchor level. */
  function ForecastPoint(o: real, s: real, level: real, exp: real -> real): real
  {
    exp(o) * s * level
  }

  function NormalizeInput(values: seq<real>, seasons: seq<real>, level: real, log: real -> real): (r: seq<real>)
    requires |values| == |seasons|
    ensures |r| == |values|
  {
    seq(|values|, k requires 0 <= k < |values| => InputPoint(values[k], seasons[k], level, log))
  }

  function NormalizeLabels(values: seq<real>, seasons: seq<real>, level: real, log: real -> real): (r: seq<real>)
    requires |values| == |seasons|
    ensures |r| == |values|
  {
    seq(|values|, k requires 0 <= k < |values| => LabelPoint(values[k], seasons[k], level, log))
  }

  function Reseasonalize(output: seq<real>, seasons: seq<real>, level: real, exp: real -> real): (r: seq<real>)
    requires |output| == |seasons|
    ensures |r| == |output|
  {
    seq(|output|, k requires 0 <= k < |output| => ForecastPoint(output[k], seasons[k], level, exp))
  }

  /** Deseasonalising and normalising a positive value, then scaling back, gives the value. */
  lemma PointRoundTrip(v: real, s: real, level: real, exp: real -> real, log: real -> real)
    requires v > 0.0 && s > 0.0 && level > 0.0 && ExpInvertsLog(exp, log)
    ensures ForecastPoint(InputPoint(v, s, level, log), s, level, exp) == v
  {
    var q := Div(v, s);
    QuotientPositive(v, s);
    var x := Div(q, level);
    QuotientPositive(q, level);
    ExpLogAt(exp, log, x);
    assert x * level == q;
    assert q * s == v;
    assert x * s * level == x * level * s;
  }

  /** Re-seasonalisation inverts the input normalisation: an output equal to
      the normalised values of a positive window is mapped back to that window. */
  lemma ReseasonalizeInvertsNormalize(values: seq<real>, seasons: seq<real>, level: real, exp: real -> real, log: real -> real)
    requires |values| == |seasons| && level > 0.0 && ExpInvertsLog(exp, log)
    requires forall k :: 0 <= k < |values| ==> values[k] > 0.0 && seasons[k] > 0.0
    ensures Reseasonalize(NormalizeInput(values, seasons, level, log), seasons, level, exp) == values
  {
    var r := Reseasonalize(NormalizeInput(values, seasons, level, log), seasons, level, exp);
    forall k | 0 <= k < |values| ensures r[k] == values[k] {
      PointRoundTrip(values[k], seasons[k], level, exp, log);
    }
  }

  /** Inputs and labels are normalised differently: the input subtracts the
      logged level, the label divides by the level. For a logarithm with the
      quotient rule each input equals its label times the level minus the
      logged level. */
  lemma NormalizationAsymmetry(values: seq<real>, seasons: seq<real>, level: real, log: real -> real)
    requires |values| == |seasons| && level > 0.0 && LogQuotientRule(log)
    requires forall k :: 0 <= k < |values| ==> values[k] > 0.0 && seasons[k] > 0.0
    ensures forall k :: 0 <= k < |values| ==>
              NormalizeInput(values, seasons, level, log)[k]
              == NormalizeLabels(values, seasons, level, log)[k] * level - log(level)
  {
    forall k | 0 <= k < |values|
      ensures NormalizeInput(values, seasons, level, log)[k]
              == NormalizeLabels(values, seasons, level, log)[k] * level - log(level)
    {
      var q := Div(values[k], seasons[k]);
      QuotientPositive(values[k], seasons[k]);
      LogQuotientAt(log, q, level);
      assert Div(log(q), level) * level == log(q);
    }
  }

  /** The training windows of a series of n points are anchored at every
      `i` in `range(inputSize - 1, n - outputSize)`: there are
      max(0, n - inputSize - outputSize + 1) of them, and each one's input
      slice `[i + 1 - inputSize, i + 1)` and label slice
      `[i + 1, i + 1 + outputSize)` lie within the series. */
  lemma TrainingWindowsInBounds(n: nat, inputSize: nat, outputSize: nat)
    requires inputSize >= 1
    ensures |PyRange(inputSize - 1, n - outputSize)| == Max(0, n - inputSize - outputSize + 1)
    ensures var anchors := PyRange(inputSize - 1, n - outputSize);
            forall k :: 0 <= k < |anchors| ==>
              0 <= anchors[k] + 1 - inputSize && anchors[k] + 1 + outputSize <= n && 0 <= anchors[k] < n
  {
  }

  /** The loss of the window anchored at `i`: the pinball loss, at its
      default tau of 0.5, between the normalised labels and the network's
      output; a network output of another size than the labels is a dynet
      dimension error. */
  function WindowLoss(y: seq<real>, levels: seq<real>, seasons: seq<real>, i: nat, inputSize: nat, outputSize: nat, rnn: seq<real> -> seq<real>, log: real -> real): Result<real>
    requires inputSize >= 1 && outputSize >= 1
    requires inputSize <= i + 1 && i + 1 + outputSize <= |y|
    requires |levels| == |y| && |seasons| >= |y|
  {
    var input := NormalizeInput(y[i + 1 - inputSize..i + 1], seasons[i + 1 - inputSize..i + 1], levels[i], log);
    var output := rnn(input);
    var labels := NormalizeLabels(y[i + 1..i + 1 + outputSize], seasons[i + 1..i + 1 + outputSize], levels[i], log);
    if |output| != |labels| then Err(WindowMismatch)
    else Ok(Pinball(labels, output, 0.5))
  }

  /** The outcome of every training window, in anchor order. */
  function WindowResults(y: seq<real>, levels: seq<real>, seasons: seq<real>, inputSize: nat, outputSize: nat, rnn: seq<real> -> seq<real>, log: real -> real): (results: seq<Result<real>>)
    requires inputSize >= 1 && outputSize >= 1
    requires |levels| == |y| && |seasons| >= |y|
    ensures |results| == |PyRange(inputSize - 1, |y| - outputSize)|
  {
    var count := |PyRange(inputSize - 1, |y| - outputSize)|;
    seq(count, k requires 0 <= k < count => WindowLoss(y, levels, seasons, inputSize - 1 + k, inputSize, outputSize, rnn, log))
  }

  /** With a network that produces `outputSize` values every window succeeds
      with a non-negative loss. */
  lemma WindowResultsSucceed(y: seq<real>, levels: seq<real>, seasons: seq<real>, inputSize: nat, outputSize: nat, rnn: seq<real> -> seq<real>, log: real -> real)
    requires inputSize >= 1 && outputSize >= 1
    requires |levels| == |y| && |seasons| >= |y|
    requires ProducesHorizon(rnn, outputSize)
    ensures var results := WindowResults(y, levels, seasons, inputSize, outputSize, rnn, log);
            forall k :: 0 <= k < |results| ==> results[k].Ok? && results[k].value >= 0.0
  {
    var results := WindowResults(y, levels, seasons, inputSize, outputSize, rnn, log);
    forall k | 0 <= k < |results| ensures results[k].Ok? && results[k].value >= 0.0 {
      var i := inputSize - 1 + k;
      var input := NormalizeInput(y[i + 1 - inputSize..i + 1], seasons[i + 1 - inputSize..i + 1], levels[i], log);
      var labels := NormalizeLabels(y[i + 1..i + 1 + outputSize], seasons[i + 1..i + 1 + outputSize], levels[i], log);
      assert results[k] == WindowLoss(y, levels, seasons, i, inputSize, outputSize, rnn, log);
      HorizonAt(rnn, outputSize, input);
      PinballNonNegative(labels, rnn(input), 0.5);
    }
  }

  /** The two loss terms of one series: the average forecast loss and, when
      the penalty is positive, the level-variability term. */
  datatype SeriesLosses = SeriesLosses(forecast: real, levelVariability: Option<real>)

  /** The loss that is back-propagated for one series. */
  function Total(losses: SeriesLosses): real
  {
    match losses.levelVariability
    case None => losses.forecast
    case Some(v) => losses.forecast + v
  }

  /** The losses of one series in one epoch. */
  function SeriesLoss(cfg: ModelConfig, sp: SmoothingParams, y: seq<real>, rnn: seq<real> -> seq<real>, log: real -> real): Result<SeriesLosses>
    requires ForwardSizes(cfg) && |sp.initSeas| > 0
  {
    if |y| == 0 then Err(EmptySeries)
    else
      var levels := Levels(sp, y);
      var seasons := Seasonalities(sp, y, cfg.outputSize);
      match Collect(WindowResults(y, levels, seasons, cfg.inputSize, cfg.outputSize, rnn, log))
      case Err(e) => Err(e)
      case Ok(losses) =>
        if |losses| == 0 then Err(EmptyAverage)
        else if cfg.levelVariabilityPenalty > 0.0 then
          match LevelVariability(LogDiffs(levels, log), cfg.levelVariabilityPenalty)
          case Err(e) => Err(e)
          case Ok(v) => Ok(SeriesLosses(Mean(losses), Some(v)))
        else Ok(SeriesLosses(Mean(losses), None))
  }

  /** The window loop of `train` over one series: one loss per anchor, in
      order, stopping at the first failing window. */
  method RunWindows(y: seq<real>, levels: seq<real>, seasons: seq<real>, inputSize: nat, outputSize: nat, rnn: seq<real> -> seq<real>, log: real -> real)
    returns (r: Result<seq<real>>)
    requires inputSize >= 1 && outputSize >= 1
    requires |levels| == |y| && |seasons| >= |y|
    ensures r == Collect(WindowResults(y, levels, seasons, inputSize, outputSize, rnn, log))
  {
    ghost var results := WindowResults(y, levels, seasons, inputSize, outputSize, rnn, log);
    var losses: seq<real> := [];
    var i: int := inputSize - 1;
    while i < |y| - outputSize
      invariant inputSize - 1 <= i <= inputSize - 1 + |results|
      invariant Collect(results[..i - (inputSize - 1)]) == Ok(losses)
    {
      var loss := WindowLoss(y, levels, seasons, i, inputSize, outputSize, rnn, log);
      assert loss == results[i - (inputSize - 1)];
      CollectStep(results, i - (inputSize - 1));
      if loss.Err? {
        CollectErrorPersists(results, i - (inputSize - 1) + 1, |results|);
        assert results[..|results|] == results;
        return Err(loss.error);
      }
      losses := losses + [loss.value];
      i := i + 1;
    }
    assert results[..i - (inputSize - 1)] == results;
    return Ok(losses);
  }

  /** The body of the series loop of `train`: smooths the series, walks the
      training windows, averages their losses and adds the level-variability
      term when the penalty is positive. */
  method TrainSeries(cfg: ModelConfig, sp: SmoothingParams, y: seq<real>, rnn: seq<real> -> seq<real>, log: real -> real)
    returns (r: Result<SeriesLosses>)
    requires ForwardSizes(cfg) && |sp.initSeas| > 0
    ensures r == SeriesLoss(cfg, sp, y, rnn, log)
  {
    if |y| == 0 {
      return Err(EmptySeries);
    }
    var levels, seasons, logDiffs := ComputeLevelsSeasons(sp, y, cfg.outputSize, log);
    var losses := RunWindows(y, levels, seasons, cfg.inputSize, cfg.outputSize, rnn, log);
    if losses.Err? {
      return Err(losses.error);
    }
    if |losses.value| == 0 {
      return Err(EmptyAverage);
    }
    var forecastLoss := Mean(losses.value);
    if cfg.levelVariabilityPenalty > 0.0 {
      var levelLoss := LevelVariabilityLoss(logDiffs, cfg.levelVariabilityPenalty);
      if levelLoss.Err? {
        return Err(levelLoss.error);
      }
      return Ok(SeriesLosses(forecastLoss, Some(levelLoss.value)));
    }
    return Ok(SeriesLosses(forecastLoss, None));
  }

  /** With a network of the configured output size, the loss of a non-empty
      series exists exactly when the series holds one full training window
      and, if the level-variability penalty is on, at least three points (two
      log-differences to average). */
  lemma SeriesLossSucceeds(cfg: ModelConfig, sp: SmoothingParams, y: seq<real>, rnn: seq<real> -> seq<real>, log: real -> real)
    requires ForwardSizes(cfg) && |sp.initSeas| > 0 && |y| > 0
    requires ProducesHorizon(rnn, cfg.outputSize)
    ensures SeriesLoss(cfg, sp, y, rnn, log).Ok? <==>
              && |y| >= cfg.inputSize + cfg.outputSize
              && (cfg.levelVariabilityPenalty > 0.0 ==> |y| >= 3)
  {
    var levels := Levels(sp, y);
    var seasons := Seasonalities(sp, y, cfg.outputSize);
    WindowResultsSucceed(y, levels, seasons, cfg.inputSize, cfg.outputSize, rnn, log);
  }

  /** With a non-negative penalty and a network of the configured output size,
      both loss terms of a series are non-negative. */
  lemma SeriesLossNonNegative(cfg: ModelConfig, sp: SmoothingParams, y: seq<real>, rnn: seq<real> -> seq<real>, log: real -> real)
    requires ForwardSizes(cfg) && |sp.initSeas| > 0
    requires ProducesHorizon(rnn, cfg.outputSize) && cfg.levelVariabilityPenalty >= 0.0
    requires SeriesLoss(cfg, sp, y, rnn, log).Ok?
    ensures SeriesLoss(cfg, sp, y, rnn, log).value.forecast >= 0.0
    ensures Total(SeriesLoss(cfg, sp, y, rnn, log).value) >= SeriesLoss(cfg, sp, y, rnn, log).value.forecast
  {
    var levels := Levels(sp, y);
    var seasons := Seasonalities(sp, y, cfg.outputSize);
    WindowResultsSucceed(y, levels, seasons, cfg.inputSize, cfg.outputSize, rnn, log);
    var losses := Collect(WindowResults(y, levels, seasons, cfg.inputSize, cfg.outputSize, rnn, log)).value;
    MeanNonNegative(losses);
    if cfg.levelVariabilityPenalty > 0.0 {
      LevelVariabilityNonNegative(LogDiffs(levels, log), cfg.levelVariabilityPenalty);
    }
  }

  /** `predict_serie`: the window anchored at the last observation. The input
      is the last `inputSize` points, normalised by the last level; the
      forecast re-seasonalises the network output with the `outputSize`
      seasonal factors after the data and the last level. Slices too short for
      the network or for its output are dimension errors. */
  function PredictSerie(cfg: ModelConfig, sp: SmoothingParams, y: seq<real>, num: Numerics): Result<seq<real>>
    requires |sp.initSeas| > 0
  {
    if |y| == 0 then Err(EmptySeries)
    else
      var n := |y|;
      var levels := Levels(sp, y);
      var seasons := Seasonalities(sp, y, cfg.outputSize);
      var window := PySlice(y, n - cfg.inputSize, n);
      var windowSeasons := PySlice(seasons, n - cfg.inputSize, n);
      if |window| != cfg.inputSize || |windowSeasons| != |window| then Err(WindowMismatch)
      else
        var output := num.rnn(NormalizeInput(window, windowSeasons, levels[n - 1], num.log));
        var futureSeasons := PySlice(seasons, n, n + cfg.outputSize);
        if |output| != |futureSeasons| || |output| != cfg.outputSize then Err(WindowMismatch)
        else Ok(Reseasonalize(output, futureSeasons, levels[n - 1], num.exp))
  }

  /** With a network of the configured output size, a non-empty series has a
      forecast exactly when it holds one input window and the horizon is at
      most two seasonal periods; the forecast has one value per step. */
  lemma PredictSerieSucceeds(cfg: ModelConfig, sp: SmoothingParams, y: seq<real>, num: Numerics)
    requires |sp.initSeas| > 0 && |y| > 0
    requires ProducesHorizon(num.rnn, cfg.outputSize)
    ensures PredictSerie(cfg, sp, y, num).Ok? <==>
              cfg.inputSize <= |y| && cfg.outputSize <= 2 * |sp.initSeas|
  {
    var n := |y|;
    var seasons := Seasonalities(sp, y, cfg.outputSize);
    ForecastSeasonsAvailable(sp, y, cfg.outputSize);
    var window := PySlice(y, n - cfg.inputSize, n);
    if cfg.inputSize <= n {
      var windowSeasons := PySlice(seasons, n - cfg.inputSize, n);
      assert |window| == cfg.inputSize == |windowSeasons|;
      var output := num.rnn(NormalizeInput(window, windowSeasons, Levels(sp, y)[n - 1], num.log));
      HorizonAt(num.rnn, cfg.outputSize, NormalizeInput(window, windowSeasons, Levels(sp, y)[n - 1], num.log));
    } else {
      assert |window| < cfg.inputSize;
    }
  }

  /** A forecast has one value per step of the horizon. */
  lemma PredictSerieLength(cfg: ModelConfig, sp: SmoothingParams, y: seq<real>, num: Numerics)
    requires |sp.initSeas| > 0 && PredictSerie(cfg, sp, y, num).Ok?
    ensures |PredictSerie(cfg, sp, y, num).value| == cfg.outputSize
  {
  }

  /** Forecasts anchored at the k-th step after the data use the seasonal
      factor of step n + k and the last level: each forecast is the
      exponentiated output scaled by both. */
  lemma PredictSerieValues(cfg: ModelConfig, sp: SmoothingParams, y: seq<real>, num: Numerics)
    requires |sp.initSeas| > 0 && |y| > 0
    requires PredictSerie(cfg, sp, y, num).Ok?
    ensures var n := |y|;
            var seasons := Seasonalities(sp, y, cfg.outputSize);
            var output := num.rnn(NormalizeInput(y[n - cfg.inputSize..], seasons[n - cfg.inputSize..n], Levels(sp, y)[n - 1], num.log));
            && |output| == cfg.outputSize
            && n + cfg.outputSize <= |seasons|
            && forall k :: 0 <= k < cfg.outputSize ==>
                 PredictSerie(cfg, sp, y, num).value[k]
                 == ForecastPoint(output[k], seasons[n + k], Levels(sp, y)[n - 1], num.exp)
  {
    var n := |y|;
    var seasons := Seasonalities(sp, y, cfg.outputSize);
    var window := PySlice(y, n - cfg.inputSize, n);
    assert cfg.inputSize <= n;
    assert window == y[n - cfg.inputSize..];
  }

  /** For a positive series, squashed smoothing parameters and a positive
      exponential, every forecast is positive. */
  lemma PredictSeriePositive(cfg: ModelConfig, sp: SmoothingParams, y: seq<real>, num: Numerics)
    requires Squashed(sp) && |y| > 0 && ExpPositive(num.exp)
    requires forall k :: 0 <= k < |y| ==> y[k] > 0.0
    requires PredictSerie(cfg, sp, y, num).Ok?
    ensures forall k :: 0 <= k < |PredictSerie(cfg, sp, y, num).value| ==> PredictSerie(cfg, sp, y, num).value[k] > 0.0
  {
    var n := |y|;
    var seasons := Seasonalities(sp, y, cfg.outputSize);
    var level := Levels(sp, y)[n - 1];
    PredictSerieValues(cfg, sp, y, num);
    SmoothingPositive(sp, y, cfg.outputSize);
    var output := num.rnn(NormalizeInput(y[n - cfg.inputSize..], seasons[n - cfg.inputSize..n], level, num.log));
    ForecastsPositive(PredictSerie(cfg, sp, y, num).value, output, seasons, n, level, num.exp);
  }

  lemma ForecastsPositive(forecasts: seq<real>, output: seq<real>, seasons: seq<real>, n: nat, level: real, exp: real -> real)
    requires |forecasts| == |output| && n + |output| <= |seasons|
    requires forall k :: 0 <= k < |output| ==> forecasts[k] == ForecastPoint(output[k], seasons[n + k], level, exp)
    requires forall j :: 0 <= j < |seasons| ==> seasons[j] > 0.0
    requires level > 0.0 && ExpPositive(exp)
    ensures forall k :: 0 <= k < |forecasts| ==> forecasts[k] > 0.0
  {
    forall k | 0 <= k < |forecasts| ensures forecasts[k] > 0.0 {
      ForecastPointPositive(output[k], seasons[n + k], level, exp);
    }
  }

  lemma ForecastPointPositive(o: real, s: real, level: real, exp: real -> real)
    requires ExpPositive(exp) && s > 0.0 && level > 0.0
    ensures ForecastPoint(o, s, level, exp) > 0.0
  {
    assert exp(o) > 0.0;
    ProductOfPositives(exp(o), s, exp(o) * s);
    ProductOfPositives(exp(o) * s, level, ForecastPoint(o, s, level, exp));
  }
}
