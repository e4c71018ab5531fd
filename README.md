# ES-RNN forecaster core, modelled in Dafny

This project models the deterministic core of the ES-RNN forecaster in
`esrnn/contrib/esrnn.py`. The forecaster reads a panel of rows, each holding a
series id, a timestamp and a value. It turns each series into a record, smooths
it with a per-series exponential-smoothing recurrence (level and multiplicative
seasonality), and cuts it into input and label windows. The windows are
normalised and compared with the output of a recurrent network through a
pinball loss, plus a level-variability penalty. At prediction time the output
for the last window is scaled back into `outputSize` forecast rows per series.

Modules (one file each):

- `Base` (`base.dfy`): the exceptions the code raises, as an `Error` datatype.
  Also Python slicing, collecting a list of results up to the first failure,
  and sums and means over reals.
- `Config` (`config.dfy`): `ModelConfig` and its derived series lengths.
- `Series` (`series.dfy`): `M4TS`, the per-series record. It covers the
  held-out block and the truncation to the most recent points.
- `Smoothing` (`smoothing.dfy`): `ES`, the squashing of the parameters and
  `compute_levels_seasons`. The loop is an imperative method proved equal to
  recursive definitions of the level and seasonality sequences.
- `Losses` (`losses.dfy`): `pinball_loss` and `level_variability_loss`.
- `Forecast` (`forecast.dfy`): the window loop of `train` for one series and
  `predict_serie`.
- `Engine` (`engine.dfy`): the panel bookkeeping of `ESRNN` (ids, blocks,
  records, epochs, forecast rows). The class `Esrnn` holds the object's state
  and its methods `Fit`, `Train`, `Predict` and `PanelToSeries`.

Reals stand for floats. `log`, `exp`, `logistic` and the network are the
fields of a `Numerics` value passed to the operations. The network is a
function from one input window to one output window. This is faithful to the
code: `LSTM.__call__` feeds each window to the initial state of the stack
(`add_input` returns a new state that is not stored), so no state carries from
one window to the next.

Behaviour kept as the code has it, where a reading of the design could
expect otherwise:

- `get_trainable_ids` returns every id of the panel, so the `isin` filter of
  `fit` keeps every row (`Engine.TrainableIdsKeepEveryRow`).
- The training windows call `pinball_loss` with its default tau of 0.5.
  The configured `training_tau` is read but never used.
- The seasonal extension appends a Python slice that stops at the end of the
  list. It adds at most one period, so a horizon longer than two periods
  leaves `predict_serie` without enough seasonal factors. This is a dimension
  error (`WindowMismatch`).
- Truncation to `max_series_length` slices the whole input `y`, not the
  training part (`Series.TruncatedRecord`). With a lookback, when
  `lback * output_size <= max_series_length`, a long series keeps its
  held-out points in the training values
  (`Series.TruncationKeepsHeldOutPoints`).
- With a lookback and a series of at most `lback * output_size` points, the
  training values are never assigned and construction fails.
- An epoch over no series fails at its closing log line, which reads a loss
  that no series has bound (`NoSeriesTrained`).
- A `fit` whose records cannot be built has already stored the new panel and
  ids, but keeps the old records and smoothing table. A later `predict` walks
  the new ids over the old records. It can then fail with
  `SeriesIndexOutOfRange`.

## Model

The rows below name the members whose contracts state each property. The
functions that do the computing, and which those contracts are about, are:
- `Config.NewModelConfig`: `ModelConfig.__init__`.
- `Series.NewSeries`: `M4TS.__init__`.
- `Smoothing.Squash`: `ES.declare_expr`.
- `Smoothing.Level`, `Smoothing.Season` and `Smoothing.Levels`: the recurrences of `compute_levels_seasons`.
- `Smoothing.BaseSeasonalities`, `Smoothing.NaiveExtension` and `Smoothing.Seasonalities`: the seasonality list and its extension.
- `Smoothing.LogDiffs`: the `log_diff_of_levels` list of `compute_levels_seasons`.
- `Losses.Pinball`: `pinball_loss`.
- `Losses.LevelVariability`: `level_variability_loss`.
- `Forecast.WindowLoss`: one iteration of the window loop of `train`.
- `Forecast.SeriesLoss`: the body of the series loop of `train`.
- `Forecast.PredictSerie`: `predict_serie`.
- `Engine.UniqueIds`: the `unique()` call of `panel_to_tsobject`.
- `Engine.SearchLeft` and `Engine.SearchRight`: its `searchsorted` calls.
- `Engine.SeriesOf` and `Engine.RecordResults`: `panel_to_tsobject`.
- `Engine.Epoch` and `Engine.TrainingLosses`: the epoch loop and the whole of `train`.
- `Engine.SeriesForecast` and `Engine.PanelForecast`: the loop body and the whole of `predict`.

| member | source | states |
|---|---|---|
| Base.CollectFirstError | esrnn/contrib/esrnn.py:465-487 | A collection of per-item results that fails carries the error of the first failing item, and every earlier item succeeded: a loop stops at its first exception. The loops of `train`, `panel_to_tsobject` and `predict` are collections, so this gives the "first error" of their rows. |
| Config.MinSeriesLength | esrnn/contrib/esrnn.py:96 | The minimum length is input size + output size + min_inp_seq_length + 2, so it exceeds one input and one output window by two. |
| Config.MaxSeriesLength | esrnn/contrib/esrnn.py:97-104 | The maximum length is defined exactly for seasonality 4, 7, 12 or 30. It is at least the minimum length plus 20 periods, and exceeds the minimum by whole periods. |
| Config.MaxSeriesLengthPeriods | esrnn/contrib/esrnn.py:97-104 | The maximum length exceeds the minimum by 40 periods for seasonality 4 and by 20 periods otherwise. |
| Config.NewModelConfig | esrnn/contrib/esrnn.py:59-111 | The derived minimum length and tau = percentile / 100 are as computed. The maximum length is exactly the value of lines 97-104 for the document's seasonality: it exists iff the seasonality is supported, and then exceeds the minimum by at least 80. Sizes, lookback, seasonality, epochs, level-variability penalty, frequency and max_num_series are copied from the document. |
| Series.Split | esrnn/contrib/esrnn.py:33-41 | The split exists iff there is no lookback or n > lback * h. Without a lookback it is (y, none). With one it is (y[..n - lback*h], y[n - lback*h .. n - lback*h + h]). |
| Series.NewSeries | esrnn/contrib/esrnn.py:30-45 | Construction succeeds iff the training part is assigned, the maximum length exists and timestamps exist. An unassigned part fails first, then an undefined maximum. The record keeps the id and the last timestamp, never holds more points than the input or the maximum length, and has a held-out block iff lback > 0. |
| Series.RecordWithoutLookback | esrnn/contrib/esrnn.py:40-45 | Without a lookback the stored values are the last min(n, max_series_length) input points, with no held-out block. |
| Series.RecordWithLookback | esrnn/contrib/esrnn.py:34-43 | With a lookback and n > lback*h, the held-out block is the h points from n - lback*h. The values are the prefix before it, or the last max_series_length points of the whole input when that prefix is longer. |
| Series.ShortSeriesWithLookbackFails | esrnn/contrib/esrnn.py:34-42 | With a lookback and n <= lback*h, construction fails with the unassigned-attribute error. |
| Series.TruncatedRecord | esrnn/contrib/esrnn.py:36-43 | With a lookback and a prefix longer than a positive maximum, the record is the last max_series_length points of the whole input plus the held-out window, whatever the size of the lookback tail. |
| Series.TruncationKeepsHeldOutPoints | esrnn/contrib/esrnn.py:36-43 | When truncation applies and lback * output_size <= max_series_length, the stored values end with the whole lookback tail of the input, so every held-out point is also a training point. |
| Series.RecordOfNonEmptySeries | esrnn/contrib/esrnn.py:40-45 | A record built from a non-empty series holds at least one point. |
| Smoothing.SquashIsSquashed | esrnn/contrib/esrnn.py:135-137 | A logistic into (0, 1) and a positive exponential give coefficients in (0, 1) and positive initial seasonal factors. |
| Smoothing.InitialSeasonalities | esrnn/contrib/esrnn.py:145-148 | The seasonalities before the first step are the initial vector followed by its first factor. |
| Smoothing.IterationAgrees | esrnn/contrib/esrnn.py:155-163 | One loop iteration appends exactly the next level and the seasonal factor at index p + i. That factor uses the level of step i and the factor one period back. |
| Smoothing.LogDiffsAppend | esrnn/contrib/esrnn.py:160-162 | Appending a level appends the difference of its log and the previous level's log. |
| Smoothing.RunRecurrences | esrnn/contrib/esrnn.py:145-163 | The loop yields the n levels, the p + n seasonal factors and the n - 1 log-differences of the recurrence. |
| Smoothing.ComputeLevelsSeasons | esrnn/contrib/esrnn.py:139-172 | The result is the levels, the extended seasonalities and the log-differences of the recurrence. |
| Smoothing.SmoothingShape | esrnn/contrib/esrnn.py:145-163 | For n >= 1 there are n levels and n - 1 log-differences. The seasonalities start with the initial vector and then its first factor. The first level is y[0] over the first seasonal factor. |
| Smoothing.LevelUpdatePositive | esrnn/contrib/esrnn.py:156-157 | A level update with a coefficient in (0, 1) and positive inputs is positive. |
| Smoothing.SeasonUpdatePositive | esrnn/contrib/esrnn.py:158-159 | A seasonality update with a coefficient in (0, 1) and positive inputs is positive. |
| Smoothing.LevelPositive | esrnn/contrib/esrnn.py:152-157 | With squashed parameters and a positive series, every level is positive. |
| Smoothing.SeasonPositive | esrnn/contrib/esrnn.py:145-163 | With squashed parameters and a positive series, every seasonal factor is positive, including those computed from the factor one period back. |
| Smoothing.SmoothingPositive | esrnn/contrib/esrnn.py:145-170 | Every level and every factor of the extended seasonalities is positive. |
| Smoothing.SeasonalitiesLength | esrnn/contrib/esrnn.py:165-170 | The seasonalities have n + p + min(h - p, p) entries when h > p, and n + p otherwise. |
| Smoothing.NaiveExtensionRepeatsLastPeriod | esrnn/contrib/esrnn.py:165-170 | The extension keeps the base sequence and appends its entries from n to n + min(h - p, p). Each appended factor equals the factor one period earlier. |
| Smoothing.NaiveExtensionShape | esrnn/contrib/esrnn.py:167-170 | The same shape for any base sequence of n + p factors. |
| Smoothing.AppendedPeriod | esrnn/contrib/esrnn.py:170 | Appending the head of the last period repeats it: every appended entry equals the entry p positions earlier. |
| Smoothing.ForecastSeasonsAvailable | esrnn/contrib/esrnn.py:167-170 | There are h seasonal factors after the data iff h <= 2p. |
| Losses.PinballTermCases | esrnn/contrib/esrnn.py:345-346 | For tau in [0, 1], a term is tau * (y - yHat) on an under-forecast and (1 - tau) * (yHat - y) on an over-forecast. |
| Losses.PinballNonNegative | esrnn/contrib/esrnn.py:336-348 | For tau in [0, 1] the pinball loss is >= 0. |
| Losses.PinballZeroOnExactForecast | esrnn/contrib/esrnn.py:336-348 | The pinball loss of a forecast equal to the actuals is 0. |
| Losses.PinballMedianIsHalfMeanAbsoluteError | esrnn/contrib/esrnn.py:336-348 | At tau = 0.5 the pinball loss is half the mean absolute error. |
| Losses.LevelVariabilityLoss | esrnn/contrib/esrnn.py:350-357 | The loop computes the penalty times the mean of squared consecutive differences. It fails (empty average) exactly when there are fewer than two values. |
| Losses.SquaredDiffsNonNegative | esrnn/contrib/esrnn.py:352-354 | Every squared difference is >= 0. |
| Losses.ScaledMeanZero | esrnn/contrib/esrnn.py:355-356 | With a positive penalty, the scaled average is 0 iff the sum of the terms is 0. |
| Losses.LevelVariabilityNonNegative | esrnn/contrib/esrnn.py:350-357 | With a penalty >= 0 the term exists and is >= 0. |
| Losses.LevelVariabilityZeroIffFlat | esrnn/contrib/esrnn.py:350-357 | With a positive penalty the term is 0 iff every value equals its predecessor. |
| Forecast.PointRoundTrip | esrnn/contrib/esrnn.py:394-396 | Normalising a positive value as an input and then scaling it back as a forecast returns the value. |
| Forecast.ReseasonalizeInvertsNormalize | esrnn/contrib/esrnn.py:262-282 | Re-seasonalisation maps the normalised input of a positive window back to the window. |
| Forecast.NormalizationAsymmetry | esrnn/contrib/esrnn.py:390-413 | Inputs are log(y/S/L) and labels are log(y/S)/L. Each input equals its label times L minus log L. |
| Forecast.TrainingWindowsInBounds | esrnn/contrib/esrnn.py:385-413 | The window loop runs max(0, n - input - output + 1) times. Every input and label slice lies inside the series. |
| Forecast.WindowResultsSucceed | esrnn/contrib/esrnn.py:385-416 | With a network of output_size values, every window has a loss, and the loss is >= 0. |
| Forecast.RunWindows | esrnn/contrib/esrnn.py:384-416 | The loop returns the window losses in anchor order, or the first window error. |
| Forecast.TrainSeries | esrnn/contrib/esrnn.py:378-427 | The body of the series loop returns the series loss: the averaged window loss, plus the level-variability term when the penalty is positive. |
| Forecast.SeriesLossSucceeds | esrnn/contrib/esrnn.py:384-427 | A non-empty series has a loss iff it holds one full window and, with the penalty on, at least three points. |
| Forecast.SeriesLossNonNegative | esrnn/contrib/esrnn.py:415-427 | The forecast loss is >= 0, and adding the penalty term does not lower it. |
| Forecast.PredictSerieSucceeds | esrnn/contrib/esrnn.py:251-284 | A non-empty series has a forecast iff it holds one input window and h <= 2p. |
| Forecast.PredictSerieLength | esrnn/contrib/esrnn.py:277-284 | A forecast has output_size values. |
| Forecast.PredictSerieValues | esrnn/contrib/esrnn.py:257-282 | Forecast k is exp(output[k]) * S[n + k] * L[n - 1]. The output is that of the last input_size points normalised by the last level. |
| Forecast.PredictSeriePositive | esrnn/contrib/esrnn.py:251-284 | A positive series with squashed parameters and a positive exp has positive forecasts. |
| Forecast.ForecastsPositive | esrnn/contrib/esrnn.py:282 | Forecasts built from positive seasonal factors and a positive level are positive. |
| Forecast.ForecastPointPositive | esrnn/contrib/esrnn.py:282 | One forecast with a positive factor and level is positive. |
| Engine.UniqueIds | esrnn/contrib/esrnn.py:499 | The ids are distinct and are exactly the ids of the panel. |
| Engine.UniqueIdsOfSortedKeys | esrnn/contrib/esrnn.py:495-499 | On a sorted panel the ids strictly increase, and the last one is the id of the panel's last row. |
| Engine.TrainableIdsKeepEveryRow | esrnn/contrib/esrnn.py:458-463 | Every row's id is a trainable id, so the filter at line 492 keeps every row. |
| Engine.SearchLeft | esrnn/contrib/esrnn.py:479 | The result is the number of leading keys below x. |
| Engine.SearchRight | esrnn/contrib/esrnn.py:480 | The result is the number of leading keys at most x. It is never below the left bound. |
| Engine.SeriesBlock | esrnn/contrib/esrnn.py:479-482 | On sorted keys, a row lies between the two search results iff it has id x. The block is non-empty when x occurs. |
| Engine.SortedPanelKeys | esrnn/contrib/esrnn.py:495 | A panel sorted by id and timestamp has non-decreasing ids. |
| Engine.BlockOfSortedKeys | esrnn/contrib/esrnn.py:479-482 | The sliced block is exactly the rows of id x, and it is non-empty. |
| Engine.BlockOfSortedPanel | esrnn/contrib/esrnn.py:479-482 | On a sorted panel the block of x holds only rows of x. Its last row has the latest timestamp of x. |
| Engine.PanelRecordsIndexed | esrnn/contrib/esrnn.py:477-485 | There is one record per id, and record i has dense id i. |
| Engine.RecordIsSeriesOf | esrnn/contrib/esrnn.py:477-485 | Record i is the record built from the block of the i-th id. |
| Engine.RowsRecordLastTimestamp | esrnn/contrib/esrnn.py:45 | A record built from a block has the block's last timestamp. |
| Engine.SeriesOfLastTimestamp | esrnn/contrib/esrnn.py:479-484 | The record of id x has the timestamp of the last row of x's block. |
| Engine.SeriesRecordLastTimestamp | esrnn/contrib/esrnn.py:479-484 | On a sorted panel the record of x has the latest timestamp among x's rows. |
| Engine.PanelRecordsLastTimestamp | esrnn/contrib/esrnn.py:477-485 | On a sorted panel every record has the latest timestamp of its series. |
| Engine.InitialSmoothing | esrnn/contrib/esrnn.py:121-130 | The fresh table has one row per series, with one initial seasonal value per season. |
| Engine.ParamsOf | esrnn/contrib/esrnn.py:133-137 | The looked-up parameters have one initial seasonal factor per season of the series' table row. |
| Engine.RecordsFitInitialTable | esrnn/contrib/esrnn.py:500-504 | Records built from a panel fit a fresh table of their count: the ids are dense and the seasonality is non-zero. |
| Engine.EpochSucceeds | esrnn/contrib/esrnn.py:372-454 | An epoch completes iff there is a series and every series holds a full window (three points with the penalty on). |
| Engine.EpochLossesNonNegative | esrnn/contrib/esrnn.py:415-427 | Every forecast loss of an epoch is >= 0, and the total with the penalty is at least the forecast loss. |
| Engine.TrainingSucceeds | esrnn/contrib/esrnn.py:359-456 | Training succeeds iff there are no epochs or the epoch completes. It then yields max_epochs lists of one loss per series. |
| Engine.SeriesRowsTimestamps | esrnn/contrib/esrnn.py:536-539 | With a positive step, the forecast timestamps come after the last timestamp, strictly increase, and carry the series id. |
| Engine.SeriesForecastRows | esrnn/contrib/esrnn.py:522-539 | A successful series forecast is output_size rows labelled with the id and the future timestamps. |
| Engine.ForecastBlocks | esrnn/contrib/esrnn.py:522-540 | A complete forecast joins one block of output_size rows per id. |
| Engine.PanelForecastLength | esrnn/contrib/esrnn.py:522-540 | A complete forecast has ids * output_size rows, and there are no more ids than records. |
| Engine.PanelForecastRow | esrnn/contrib/esrnn.py:522-540 | Row i*h + k is step k of series i: its id, the k-th timestamp after its last one, and forecast k. |
| Engine.PanelForecastSucceeds | esrnn/contrib/esrnn.py:510-542 | A fitted predict succeeds iff every id has a record, and each record is non-empty, holds one input window and has h <= 2p. |
| Engine.PanelForecastPositive | esrnn/contrib/esrnn.py:510-542 | For positive series, every forecast row is positive. |
| Engine.TwoWeeklySeries | esrnn/contrib/esrnn.py:359-542 | Two stored series of 40 points, with seasonality, input and output size 7, a fresh smoothing table and a 7-output network: an epoch trains both series, and the forecast has 14 rows. |
| Engine.ConcatPositive | esrnn/contrib/esrnn.py:540 | Appending blocks of positive forecasts keeps every forecast positive. |
| Engine.Esrnn.constructor | esrnn/contrib/esrnn.py:237-242 | The configuration is that of the document with root "./" and copy 1, and nothing is fitted. |
| Engine.Esrnn.PanelToSeries | esrnn/contrib/esrnn.py:465-487 | The loop returns the records of the ids' blocks in id order, or the first construction error. |
| Engine.Esrnn.RunEpoch | esrnn/contrib/esrnn.py:378-454 | One epoch returns every series loss in order or the first failure. It fails when there is no series. |
| Engine.Esrnn.Train | esrnn/contrib/esrnn.py:359-456 | Training returns the losses of max_epochs epochs, or the first failure. |
| Engine.Esrnn.Fit | esrnn/contrib/esrnn.py:489-508 | The sorted panel and its ids are stored. On a construction error, config, records and table are unchanged. Otherwise it stores the records, sets max_num_series to their count, installs a fresh table and trains. |
| Engine.Esrnn.Predict | esrnn/contrib/esrnn.py:510-542 | The result is the panel forecast of the stored ids, records and table. Before any fit it fails as not fitted. |

## Left out

- The network (`LSTM`, lines 178-233) is the `rnn` field of `Numerics`, a function from one window to one window. Its layers, weights and dimensions are not modelled. Where the theorems need it, they assume the network returns `output_size` values (`ProducesHorizon`).
- The network call itself fails in two configurations the model does not represent. With `add_nl_layer` set, `declare_expr` reads `self.MLPB_par` (line 213), which is never assigned, so every series raises an AttributeError. With `exogenous_size > 0`, the first layer expects `input_size + exogenous_size` values (line 191) but a window holds `input_size`. In both cases no network meets `ProducesHorizon`, so `Engine.EpochSucceeds` and `Engine.PanelForecastSucceeds` say nothing about them.
- `log`, `exp` and `logistic` are parameters. Theorems that need their properties assume them: `exp` inverts `log`, `log` of a quotient, `exp` positive, logistic in (0, 1).
- The Adam trainers, `backward`, the parameter updates, gradient clipping, `dy.noise` on the inputs and the random seed are not modelled (lines 363-369, 396, 429-432).
- Engine.Esrnn.Train: because the optimiser is left out, every epoch sees the same parameters. The result is the list of per-series losses of each epoch, standing in for the values the source only logs.
- The `except` diagnostics of `train` (lines 433-447) are logging only. The handler itself would fail, because it refers to an undefined `j`.
- Logging and timing are not modelled.
- YAML loading (lines 55-56) is not modelled: `ConfigDocument` is the already-loaded document. Configuration keys read only by the left-out trainers and network (learning-rate schedule, gradient settings, noise, state size, dilations, exogenous size) and the unused output directory are not modelled.
- `save`, `load` and `get_dir_name` (lines 286-334) are file I/O and path building from float formatting, and are not modelled.
- pandas is not modelled. `Fit` receives the panel sorted by id and timestamp (`sorted`, a permutation of `rows`), as `sort_values` returns it. `searchsorted` is modelled as linear search functions. `DataFrame.append` is modelled as sequence concatenation.
- `pd.date_range` is modelled with integer timestamps and a fixed integer step (`frequency`).
- Engine.Esrnn.Fit: it requires `input_size >= 1` and `output_size >= 1` (`ForwardSizes`). Zero-sized network layers are outside what the model describes.
- Division by a zero seasonal factor or level gives 0 in `Base.Div`. Floats give an infinity or NaN there. The positivity theorems show this case does not arise for positive series.
- Floats are reals, so rounding, overflow and NaN propagation are not modelled.
- `esrnn/forecasting_esrnn.py`, the pipeline adapter around the forecaster, is not part of this model.
