/** The panel-level forecaster (`ESRNN` in esrnn/contrib/esrnn.py): it turns
    a panel of (series id, timestamp, value) rows into one record per series
    with dense ids, keeps one row of smoothing parameters per series, trains
    over epochs and emits `outputSize` forecast rows per series. */
module Engine {
  import opened Base
  import opened Config
  import opened Series
  import opened Smoothing
  import opened Losses
  import opened Forecast

  /** One row of the input panel; timestamps are integers. */
  datatype Row = Row(uniqueId: int, ds: int, y: real)

  /** One row of the forecast panel. */
  datatype ForecastRow = ForecastRow(uniqueId: int, ds: int, yHat: real)

  function Keys(rows: seq<Row>): (keys: seq<int>)
    ensures |keys| == |rows|
  {
    seq(|rows|, k requires 0 <= k < |rows| => rows[k].uniqueId)
  }

  function Values(rows: seq<Row>): (values: seq<real>)
    ensures |values| == |rows|
  {
    seq(|rows|, k requires 0 <= k < |rows| => rows[k].y)
  }

  function Timestamps(rows: seq<Row>): (ds: seq<int>)
    ensures |ds| == |rows|
  {
    seq(|rows|, k requires 0 <= k < |rows| => rows[k].ds)
  }

  /** The order `fit` puts the panel in: by series id, then by timestamp. */
  predicate SortedPanel(rows: seq<Row>)
  {
    forall a, b :: 0 <= a < b < |rows| ==>
      rows[a].uniqueId < rows[b].uniqueId || (rows[a].uniqueId == rows[b].uniqueId && rows[a].ds <= rows[b].ds)
  }

  predicate NonDecreasing(keys: seq<int>)
  {
    forall a, b :: 0 <= a < b < |keys| ==> keys[a] <= keys[b]
  }

  /** `unique()`: the distinct ids in order of first appearance. */
  function UniqueIds(keys: seq<int>): (ids: seq<int>)
    ensures forall a, b :: 0 <= a < b < |ids| ==> ids[a] != ids[b]
    ensures forall x :: x in ids <==> x in keys
    decreases |keys|
  {
    if keys == [] then []
    else
      var prefix := keys[..|keys| - 1];
      var last := keys[|keys| - 1];
      assert keys == prefix + [last];
      var ids := UniqueIds(prefix);
      if last in ids then ids else ids + [last]
  }

  predicate Increasing(ids: seq<int>)
  {
    forall a, b :: 0 <= a < b < |ids| ==> ids[a] < ids[b]
  }

  /** On a sorted panel the distinct ids come out in increasing order, the
      last one being the panel's last id. */
  lemma {:induction false} UniqueIdsOfSortedKeys(keys: seq<int>)
    requires NonDecreasing(keys)
    ensures Increasing(UniqueIds(keys))
    ensures |keys| > 0 ==> |UniqueIds(keys)| > 0 && UniqueIds(keys)[|UniqueIds(keys)| - 1] == keys[|keys| - 1]
    decreases |keys|
  {
    if keys != [] {
      var prefix := keys[..|keys| - 1];
      var last := keys[|keys| - 1];
      assert NonDecreasing(prefix);
      UniqueIdsOfSortedKeys(prefix);
      var ids := UniqueIds(prefix);
      assert keys == prefix + [last];
      assert UniqueIds(keys) == if last in ids then ids else ids + [last];
      if |prefix| > 0 {
        assert prefix[|prefix| - 1] <= last;
      }
      IncreasingIdsStep(ids, last);
    }
  }

  /** Appending an id no smaller than the last one keeps the ids increasing. */
  lemma IncreasingIdsStep(ids: seq<int>, last: int)
    requires Increasing(ids)
    requires |ids| > 0 ==> ids[|ids| - 1] <= last
    ensures var next := if last in ids then ids else ids + [last];
            Increasing(next) && |next| > 0 && next[|next| - 1] == last
  {
    if last in ids {
      var j :| 0 <= j < |ids| && ids[j] == last;
      assert j == |ids| - 1;
    } else if |ids| > 0 {
      forall a | 0 <= a < |ids| ensures ids[a] < last {
        assert a == |ids| - 1 || ids[a] < ids[|ids| - 1];
      }
    }
  }

  /** `get_trainable_ids` keeps every id of the panel, so the `isin` filter
      of `fit` keeps every row. */
  lemma TrainableIdsKeepEveryRow(rows: seq<Row>)
    ensures forall k :: 0 <= k < |rows| ==> rows[k].uniqueId in UniqueIds(Keys(rows))
  {
    forall k | 0 <= k < |rows| ensures rows[k].uniqueId in UniqueIds(Keys(rows)) {
      assert Keys(rows)[k] == rows[k].uniqueId;
    }
  }

  /** `searchsorted(x, 'left')`: the number of leading keys below x. */
  function SearchLeft(keys: seq<int>, x: int): (r: nat)
    ensures r <= |keys|
    ensures forall k :: 0 <= k < r ==> keys[k] < x
    ensures r < |keys| ==> keys[r] >= x
    decreases |keys|
  {
    if keys == [] || keys[0] >= x then 0 else 1 + SearchLeft(keys[1..], x)
  }

  /** `searchsorted(x, 'right')`: the number of leading keys at most x. */
  function SearchRight(keys: seq<int>, x: int): (r: nat)
    ensures SearchLeft(keys, x) <= r <= |keys|
    ensures forall k :: 0 <= k < r ==> keys[k] <= x
    ensures r < |keys| ==> keys[r] > x
    decreases |keys|
  {
    if keys == [] || keys[0] > x then 0 else 1 + SearchRight(keys[1..], x)
  }

  /** On sorted keys the two searches delimit exactly the rows of id x, and
      that block is non-empty when x occurs. */
  lemma SeriesBlock(keys: seq<int>, x: int)
    requires NonDecreasing(keys)
    ensures forall k :: 0 <= k < |keys| ==> (SearchLeft(keys, x) <= k < SearchRight(keys, x) <==> keys[k] == x)
    ensures x in keys ==> SearchLeft(keys, x) < SearchRight(keys, x)
  {
    var lo := SearchLeft(keys, x);
    var hi := SearchRight(keys, x);
    forall k | 0 <= k < |keys| ensures lo <= k < hi <==> keys[k] == x {
      if k >= hi {
        assert keys[hi] > x;
      } else if k >= lo {
        assert keys[lo] >= x;
      }
    }
  }

  /** The rows of series x, as `panel_to_tsobject` slices them. */
  function Block(rows: seq<Row>, x: int): seq<Row>
  {
    var keys := Keys(rows);
    rows[SearchLeft(keys, x)..SearchRight(keys, x)]
  }

  /** The record of series x with dense id i. */
  function SeriesOf(cfg: ModelConfig, rows: seq<Row>, x: int, i: nat): Result<SeriesRecord>
  {
    var block := Block(rows, x);
    NewSeries(cfg, Values(block), Timestamps(block), i)
  }

  /** The outcome of building every series record, in `ids` order. */
  function RecordResults(cfg: ModelConfig, rows: seq<Row>, ids: seq<int>): (results: seq<Result<SeriesRecord>>)
    ensures |results| == |ids|
  {
    seq(|ids|, i requires 0 <= i < |ids| => SeriesOf(cfg, rows, ids[i], i))
  }

  /** The records of a panel give series i the dense id i. */
  lemma PanelRecordsIndexed(cfg: ModelConfig, rows: seq<Row>, ids: seq<int>)
    requires Collect(RecordResults(cfg, rows, ids)).Ok?
    ensures var records := Collect(RecordResults(cfg, rows, ids)).value;
            && |records| == |ids|
            && forall i :: 0 <= i < |ids| ==> records[i].id == i
  {
    var results := RecordResults(cfg, rows, ids);
    forall i | 0 <= i < |ids| ensures Collect(results).value[i].id == i {
      assert results[i] == SeriesOf(cfg, rows, ids[i], i);
    }
  }

  /** A sorted panel has sorted keys. */
  lemma SortedPanelKeys(rows: seq<Row>)
    requires SortedPanel(rows)
    ensures NonDecreasing(Keys(rows))
  {
    var keys := Keys(rows);
    forall a, b | 0 <= a < b < |keys| ensures keys[a] <= keys[b] {
      assert keys[a] == rows[a].uniqueId && keys[b] == rows[b].uniqueId;
    }
  }

  /** On sorted keys the block of an id that occurs is non-empty and holds
      exactly the rows of that id. */
  lemma BlockOfSortedKeys(rows: seq<Row>, x: int)
    requires NonDecreasing(Keys(rows)) && x in Keys(rows)
    ensures var lo := SearchLeft(Keys(rows), x);
            var hi := SearchRight(Keys(rows), x);
            && lo < hi
            && Block(rows, x) == rows[lo..hi]
            && forall k :: 0 <= k < |rows| ==> (rows[k].uniqueId == x <==> lo <= k < hi)
  {
    var keys := Keys(rows);
    SeriesBlock(keys, x);
    forall k | 0 <= k < |rows| ensures rows[k].uniqueId == keys[k] {
    }
  }

  /** t is the latest timestamp among the rows of id x. */
  predicate LatestTimestamp(rows: seq<Row>, x: int, t: int)
  {
    && (forall k :: 0 <= k < |rows| && rows[k].uniqueId == x ==> rows[k].ds <= t)
    && (exists k :: 0 <= k < |rows| && rows[k].uniqueId == x && rows[k].ds == t)
  }

  /** On a sorted panel the block of an id that occurs is non-empty, holds
      only rows of that id, and ends with the row of its latest timestamp. */
  lemma BlockOfSortedPanel(rows: seq<Row>, x: int)
    requires SortedPanel(rows) && x in Keys(rows)
    ensures var block := Block(rows, x);
            && |block| > 0
            && (forall k :: 0 <= k < |block| ==> block[k].uniqueId == x)
            && LatestTimestamp(rows, x, block[|block| - 1].ds)
  {
    SortedPanelKeys(rows);
    BlockOfSortedKeys(rows, x);
    var lo := SearchLeft(Keys(rows), x);
    var hi := SearchRight(Keys(rows), x);
    LatestRowOfBlock(rows, lo, hi);
    SliceRows(rows, lo, hi, x);
  }

  /** The rows from lo to hi, all of id x, end with row hi - 1. */
  lemma SliceRows(rows: seq<Row>, lo: nat, hi: nat, x: int)
    requires lo < hi <= |rows|
    requires forall k :: lo <= k < hi ==> rows[k].uniqueId == x
    ensures var block := rows[lo..hi];
            && |block| > 0
            && (forall k :: 0 <= k < |block| ==> block[k].uniqueId == x)
            && block[|block| - 1] == rows[hi - 1]
  {
  }

  /** In a sorted panel, the last row of a block of one id has the latest
      timestamp of that id. */
  lemma LatestRowOfBlock(rows: seq<Row>, lo: nat, hi: nat)
    requires SortedPanel(rows) && lo < hi <= |rows|
    requires forall k :: 0 <= k < |rows| ==> (rows[k].uniqueId == rows[hi - 1].uniqueId <==> lo <= k < hi)
    ensures forall k :: lo <= k < hi ==> rows[k].ds <= rows[hi - 1].ds
  {
  }

  /** On a sorted panel, the record of an id that occurs in the panel holds
      the timestamp of that series' last row, which no row of the series
      exceeds. */
  lemma PanelRecordsLastTimestamp(cfg: ModelConfig, rows: seq<Row>, ids: seq<int>, i: nat)
    requires SortedPanel(rows) && i < |ids| && ids[i] in Keys(rows)
    requires Collect(RecordResults(cfg, rows, ids)).Ok?
    ensures LatestTimestamp(rows, ids[i], Collect(RecordResults(cfg, rows, ids)).value[i].lastDs)
  {
    RecordIsSeriesOf(cfg, rows, ids, i);
    SeriesRecordLastTimestamp(cfg, rows, ids[i], i);
  }

  lemma SeriesRecordLastTimestamp(cfg: ModelConfig, rows: seq<Row>, x: int, i: nat)
    requires SortedPanel(rows) && x in Keys(rows) && SeriesOf(cfg, rows, x, i).Ok?
    ensures LatestTimestamp(rows, x, SeriesOf(cfg, rows, x, i).value.lastDs)
  {
    SeriesOfLastTimestamp(cfg, rows, x, i);
    BlockOfSortedPanel(rows, x);
  }

  /** The i-th built record is the record of the i-th id. */
  lemma RecordIsSeriesOf(cfg: ModelConfig, rows: seq<Row>, ids: seq<int>, i: nat)
    requires i < |ids| && Collect(RecordResults(cfg, rows, ids)).Ok?
    ensures SeriesOf(cfg, rows, ids[i], i).Ok?
    ensures Collect(RecordResults(cfg, rows, ids)).value[i] == SeriesOf(cfg, rows, ids[i], i).value
  {
    assert RecordResults(cfg, rows, ids)[i] == SeriesOf(cfg, rows, ids[i], i);
  }

  /** A built record holds the timestamp of the last row of its block. */
  lemma SeriesOfLastTimestamp(cfg: ModelConfig, rows: seq<Row>, x: int, i: nat)
    requires SeriesOf(cfg, rows, x, i).Ok?
    ensures var block := Block(rows, x);
            |block| > 0 && SeriesOf(cfg, rows, x, i).value.lastDs == block[|block| - 1].ds
  {
    RowsRecordLastTimestamp(cfg, Block(rows, x), i);
  }

  lemma RowsRecordLastTimestamp(cfg: ModelConfig, block: seq<Row>, i: nat)
    requires NewSeries(cfg, Values(block), Timestamps(block), i).Ok?
    ensures |block| > 0 && NewSeries(cfg, Values(block), Timestamps(block), i).value.lastDs == block[|block| - 1].ds
  {
    var ds := Timestamps(block);
    assert ds[|ds| - 1] == block[|block| - 1].ds;
  }

  /** `ES.__init__`: one row of the smoothing table per series, every raw
      value 0.5, with one initial seasonal value per season. */
  function InitialSmoothing(count: nat, seasonality: nat): (table: seq<RawSmoothing>)
    ensures |table| == count
    ensures forall j :: 0 <= j < count ==> |table[j].initSeasRaw| == seasonality
  {
    seq(count, _ => RawSmoothing(0.5, 0.5, seq(seasonality, _ => 0.5)))
  }

  /** The smoothing table serves the records: one row per series, looked up
      by the series' dense id, each with a non-empty initial seasonal vector. */
  predicate TableFits(records: seq<SeriesRecord>, smoothing: seq<RawSmoothing>)
  {
    && |smoothing| == |records|
    && (forall j :: 0 <= j < |records| ==> records[j].id == j)
    && (forall j :: 0 <= j < |smoothing| ==> |smoothing[j].initSeasRaw| > 0)
  }

  /** `ES.declare_expr`: the squashed parameters of the j-th series. */
  function ParamsOf(records: seq<SeriesRecord>, smoothing: seq<RawSmoothing>, num: Numerics, j: nat): (sp: SmoothingParams)
    requires TableFits(records, smoothing) && j < |records|
    ensures |sp.initSeas| == |smoothing[j].initSeasRaw| > 0
  {
    Squash(smoothing[records[j].id], num.logistic, num.exp)
  }

  /** The loss of every series of one epoch, in record order. */
  function EpochResults(cfg: ModelConfig, records: seq<SeriesRecord>, smoothing: seq<RawSmoothing>, num: Numerics)
    : (results: seq<Result<SeriesLosses>>)
    requires ForwardSizes(cfg) && TableFits(records, smoothing)
    ensures |results| == |records|
  {
    seq(|records|, j requires 0 <= j < |records| =>
      SeriesLoss(cfg, ParamsOf(records, smoothing, num, j), records[j].y, num.rnn, num.log))
  }

  /** One epoch of `train`: the losses of every series, or the first failure.
      An epoch over no series fails at its closing log line, which reads the
      loss of the last series. */
  function Epoch(cfg: ModelConfig, records: seq<SeriesRecord>, smoothing: seq<RawSmoothing>, num: Numerics)
    : Result<seq<SeriesLosses>>
    requires ForwardSizes(cfg) && TableFits(records, smoothing)
  {
    if |records| == 0 then Err(NoSeriesTrained) else Collect(EpochResults(cfg, records, smoothing, num))
  }

  /** The losses of every epoch of `train`. The optimiser is not modelled, so
      every epoch sees the same parameters. */
  function TrainingLosses(cfg: ModelConfig, records: seq<SeriesRecord>, smoothing: seq<RawSmoothing>, num: Numerics)
    : Result<seq<seq<SeriesLosses>>>
    requires ForwardSizes(cfg) && TableFits(records, smoothing)
  {
    if cfg.maxEpochs == 0 then Ok([])
    else
      match Epoch(cfg, records, smoothing, num)
      case Err(e) => Err(e)
      case Ok(losses) => Ok(seq(cfg.maxEpochs, _ => losses))
  }

  /** A series can be trained on: it holds one full training window and, with
      the level-variability penalty on, at least three points. */
  predicate Trainable(cfg: ModelConfig, y: seq<real>)
  {
    |y| >= cfg.inputSize + cfg.outputSize && (cfg.levelVariabilityPenalty > 0.0 ==> |y| >= 3)
  }

  /** With a network of the configured output size, an epoch completes
      exactly when there is a series and every series can be trained on. */
  lemma EpochSucceeds(cfg: ModelConfig, records: seq<SeriesRecord>, smoothing: seq<RawSmoothing>, num: Numerics)
    requires ForwardSizes(cfg) && TableFits(records, smoothing)
    requires ProducesHorizon(num.rnn, cfg.outputSize)
    ensures Epoch(cfg, records, smoothing, num).Ok? <==>
              |records| > 0 && forall j :: 0 <= j < |records| ==> Trainable(cfg, records[j].y)
  {
    var results := EpochResults(cfg, records, smoothing, num);
    forall j | 0 <= j < |records| ensures results[j].Ok? <==> Trainable(cfg, records[j].y) {
      var sp := ParamsOf(records, smoothing, num, j);
      if |records[j].y| > 0 {
        SeriesLossSucceeds(cfg, sp, records[j].y, num.rnn, num.log);
      }
    }
  }

  /** Every forecast loss of a completed epoch is non-negative, and so is
      the level-variability term added to it when the penalty is. */
  lemma EpochLossesNonNegative(cfg: ModelConfig, records: seq<SeriesRecord>, smoothing: seq<RawSmoothing>, num: Numerics)
    requires ForwardSizes(cfg) && TableFits(records, smoothing)
    requires ProducesHorizon(num.rnn, cfg.outputSize) && cfg.levelVariabilityPenalty >= 0.0
    requires Epoch(cfg, records, smoothing, num).Ok?
    ensures var losses := Epoch(cfg, records, smoothing, num).value;
            forall j :: 0 <= j < |losses| ==> 0.0 <= losses[j].forecast <= Total(losses[j])
  {
    var results := EpochResults(cfg, records, smoothing, num);
    forall j | 0 <= j < |records|
      ensures 0.0 <= results[j].value.forecast <= Total(results[j].value)
    {
      assert results[j].Ok? && results[j] == SeriesLoss(cfg, ParamsOf(records, smoothing, num, j), records[j].y, num.rnn, num.log);
      SeriesLossNonNegative(cfg, ParamsOf(records, smoothing, num, j), records[j].y, num.rnn, num.log);
    }
  }

  /** Training runs through every epoch exactly when there is nothing to run
      or the epoch completes; it then yields one list of losses per epoch,
      one loss per series. */
  lemma TrainingSucceeds(cfg: ModelConfig, records: seq<SeriesRecord>, smoothing: seq<RawSmoothing>, num: Numerics)
    requires ForwardSizes(cfg) && TableFits(records, smoothing)
    requires ProducesHorizon(num.rnn, cfg.outputSize)
    ensures TrainingLosses(cfg, records, smoothing, num).Ok? <==>
              cfg.maxEpochs == 0 || (|records| > 0 && forall j :: 0 <= j < |records| ==> Trainable(cfg, records[j].y))
    ensures TrainingLosses(cfg, records, smoothing, num).Ok? ==>
              var epochs := TrainingLosses(cfg, records, smoothing, num).value;
              |epochs| == cfg.maxEpochs && forall e :: 0 <= e < |epochs| ==> |epochs[e]| == |records|
  {
    EpochSucceeds(cfg, records, smoothing, num);
  }

  /** The k-th future timestamp after `lastDs`, `step` apart: element k + 1
      of `date_range(start=lastDs, periods=h + 1)`. */
  function FutureTimestamp(lastDs: int, step: int, k: nat): int
  {
    lastDs + (k + 1) * step
  }

  /** The forecast rows of one series. */
  function SeriesRows(uniqueId: int, lastDs: int, step: int, yHat: seq<real>): (rows: seq<ForecastRow>)
    ensures |rows| == |yHat|
  {
    seq(|yHat|, k requires 0 <= k < |yHat| => ForecastRow(uniqueId, FutureTimestamp(lastDs, step, k), yHat[k]))
  }

  /** With a positive step, the forecast timestamps of a series come after its
      last timestamp, in strictly increasing order. */
  lemma SeriesRowsTimestamps(uniqueId: int, lastDs: int, step: int, yHat: seq<real>)
    requires step > 0
    ensures var rows := SeriesRows(uniqueId, lastDs, step, yHat);
            && (forall k :: 0 <= k < |rows| ==> rows[k].ds > lastDs && rows[k].uniqueId == uniqueId)
            && (forall a, b :: 0 <= a < b < |rows| ==> rows[a].ds < rows[b].ds)
  {
    var rows := SeriesRows(uniqueId, lastDs, step, yHat);
    forall k | 0 <= k < |rows| ensures rows[k].ds > lastDs {
      ProductOfPositives((k + 1) as real, step as real, ((k + 1) * step) as real);
    }
    forall a, b | 0 <= a < b < |rows| ensures rows[a].ds < rows[b].ds {
      assert rows[b].ds - rows[a].ds == (b - a) * step;
      ProductOfPositives((b - a) as real, step as real, ((b - a) * step) as real);
    }
  }

  /** The body of the loop of `predict` for the i-th id: the i-th stored
      series (an index error when there is none) forecast and labelled. */
  function SeriesForecast(cfg: ModelConfig, ids: seq<int>, records: seq<SeriesRecord>, smoothing: seq<RawSmoothing>, num: Numerics, i: nat)
    : Result<seq<ForecastRow>>
    requires i < |ids| && TableFits(records, smoothing)
  {
    if i >= |records| then Err(SeriesIndexOutOfRange)
    else
      match PredictSerie(cfg, ParamsOf(records, smoothing, num, i), records[i].y, num)
      case Err(e) => Err(e)
      case Ok(yHat) => Ok(SeriesRows(ids[i], records[i].lastDs, cfg.frequency, yHat))
  }

  function ForecastResults(cfg: ModelConfig, ids: seq<int>, records: seq<SeriesRecord>, smoothing: seq<RawSmoothing>, num: Numerics)
    : (results: seq<Result<seq<ForecastRow>>>)
    requires TableFits(records, smoothing)
    ensures |results| == |ids|
  {
    seq(|ids|, i requires 0 <= i < |ids| => SeriesForecast(cfg, ids, records, smoothing, num, i))
  }

  /** `predict`: the forecast rows of every id, in id order. Before any `fit`
      there are no ids, and before a successful one no stored series. */
  function PanelForecast(cfg: ModelConfig, ids: Option<seq<int>>, records: Option<seq<SeriesRecord>>, smoothing: seq<RawSmoothing>, num: Numerics)
    : Result<seq<ForecastRow>>
    requires records.Some? ==> TableFits(records.value, smoothing)
  {
    if ids.None? then Err(NotFitted)
    else if |ids.value| == 0 then Ok([])
    else if records.None? then Err(NotFitted)
    else
      match Collect(ForecastResults(cfg, ids.value, records.value, smoothing, num))
      case Err(e) => Err(e)
      case Ok(blocks) => Ok(Concat(blocks))
  }

  /** The position of element k of block i among blocks of h elements. */
  function Position(i: nat, h: nat, k: nat): nat
  {
    i * h + k
  }

  /** Element k of block i of uniform blocks of h elements is element
      i * h + k of their concatenation. */
  lemma {:induction false} ConcatUniformAt<T>(blocks: seq<seq<T>>, h: nat, i: nat, k: nat)
    requires forall j :: 0 <= j < |blocks| ==> |blocks[j]| == h
    requires i < |blocks| && k < h
    ensures Position(i, h, k) < |Concat(blocks)| && Concat(blocks)[Position(i, h, k)] == blocks[i][k]
    decreases |blocks|
  {
    var prefix := blocks[..|blocks| - 1];
    ConcatUniformLength(prefix, h);
    ConcatUniformLength(blocks, h);
    assert Concat(blocks) == Concat(prefix) + blocks[|blocks| - 1];
    if i < |blocks| - 1 {
      ConcatUniformAt(prefix, h, i, k);
      EarlierBlockPosition(i, |prefix|, h, k);
    } else {
      assert Position(i, h, k) == |prefix| * h + k;
    }
  }

  /** A position in block i lies before the end of any later block count. */
  lemma EarlierBlockPosition(i: nat, n: nat, h: nat, k: nat)
    requires i < n && k < h
    ensures Position(i, h, k) < n * h
  {
    assert (i + 1) * h == i * h + h;
    assert (i + 1) * h <= n * h;
  }

  /** A series forecast that succeeds labels the `outputSize` forecasts of
      the i-th stored series. */
  lemma SeriesForecastRows(cfg: ModelConfig, ids: seq<int>, records: seq<SeriesRecord>, smoothing: seq<RawSmoothing>, num: Numerics, i: nat)
    requires i < |ids| && TableFits(records, smoothing)
    requires SeriesForecast(cfg, ids, records, smoothing, num, i).Ok?
    ensures i < |records| && PredictSerie(cfg, ParamsOf(records, smoothing, num, i), records[i].y, num).Ok?
    ensures var yHat := PredictSerie(cfg, ParamsOf(records, smoothing, num, i), records[i].y, num).value;
            && |yHat| == cfg.outputSize
            && SeriesForecast(cfg, ids, records, smoothing, num, i).value == SeriesRows(ids[i], records[i].lastDs, cfg.frequency, yHat)
  {
    PredictSerieLength(cfg, ParamsOf(records, smoothing, num, i), records[i].y, num);
  }

  /** The blocks of a complete forecast: one per id, each of `outputSize` rows. */
  lemma ForecastBlocks(cfg: ModelConfig, ids: seq<int>, records: seq<SeriesRecord>, smoothing: seq<RawSmoothing>, num: Numerics)
    requires TableFits(records, smoothing) && |ids| > 0
    requires PanelForecast(cfg, Some(ids), Some(records), smoothing, num).Ok?
    ensures Collect(ForecastResults(cfg, ids, records, smoothing, num)).Ok?
    ensures var blocks := Collect(ForecastResults(cfg, ids, records, smoothing, num)).value;
            && |blocks| == |ids|
            && PanelForecast(cfg, Some(ids), Some(records), smoothing, num).value == Concat(blocks)
            && forall j :: 0 <= j < |blocks| ==> |blocks[j]| == cfg.outputSize
  {
    var results := ForecastResults(cfg, ids, records, smoothing, num);
    assert Collect(results).Ok?;
    forall j | 0 <= j < |ids| ensures |Collect(results).value[j]| == cfg.outputSize {
      assert results[j].Ok? && results[j] == SeriesForecast(cfg, ids, records, smoothing, num, j);
      SeriesForecastRows(cfg, ids, records, smoothing, num, j);
    }
  }

  /** A complete forecast has `outputSize` rows per id, and one series per id
      is stored. */
  lemma PanelForecastLength(cfg: ModelConfig, ids: seq<int>, records: seq<SeriesRecord>, smoothing: seq<RawSmoothing>, num: Numerics)
    requires TableFits(records, smoothing)
    requires PanelForecast(cfg, Some(ids), Some(records), smoothing, num).Ok?
    ensures |PanelForecast(cfg, Some(ids), Some(records), smoothing, num).value| == |ids| * cfg.outputSize
    ensures |ids| <= |records|
  {
    if |ids| > 0 {
      ForecastBlocks(cfg, ids, records, smoothing, num);
      ConcatUniformLength(Collect(ForecastResults(cfg, ids, records, smoothing, num)).value, cfg.outputSize);
      SeriesForecastRows(cfg, ids, records, smoothing, num, |ids| - 1);
    }
  }

  /** Row i * h + k of a complete forecast (h the horizon) is step k of
      series i, in id order, labelled with the id and the k-th timestamp after the series'
      last one. */
  lemma PanelForecastRow(cfg: ModelConfig, ids: seq<int>, records: seq<SeriesRecord>, smoothing: seq<RawSmoothing>, num: Numerics, i: nat, k: nat)
    requires TableFits(records, smoothing)
    requires PanelForecast(cfg, Some(ids), Some(records), smoothing, num).Ok?
    requires i < |ids| && k < cfg.outputSize
    ensures i < |records|
    ensures PredictSerie(cfg, ParamsOf(records, smoothing, num, i), records[i].y, num).Ok?
    ensures var rows := PanelForecast(cfg, Some(ids), Some(records), smoothing, num).value;
            var yHat := PredictSerie(cfg, ParamsOf(records, smoothing, num, i), records[i].y, num).value;
            && k < |yHat|
            && Position(i, cfg.outputSize, k) < |rows|
            && rows[Position(i, cfg.outputSize, k)] == ForecastRow(ids[i], FutureTimestamp(records[i].lastDs, cfg.frequency, k), yHat[k])
  {
    ForecastBlocks(cfg, ids, records, smoothing, num);
    var results := ForecastResults(cfg, ids, records, smoothing, num);
    var blocks := Collect(results).value;
    assert results[i].Ok? && results[i] == SeriesForecast(cfg, ids, records, smoothing, num, i);
    SeriesForecastRows(cfg, ids, records, smoothing, num, i);
    assert blocks[i] == SeriesForecast(cfg, ids, records, smoothing, num, i).value;
    var yHat := PredictSerie(cfg, ParamsOf(records, smoothing, num, i), records[i].y, num).value;
    var row := ForecastRow(ids[i], FutureTimestamp(records[i].lastDs, cfg.frequency, k), yHat[k]);
    assert blocks[i][k] == SeriesRows(ids[i], records[i].lastDs, cfg.frequency, yHat)[k] == row;
    ConcatRowAt(PanelForecast(cfg, Some(ids), Some(records), smoothing, num).value, blocks, cfg.outputSize, i, k, row);
  }

  lemma ConcatRowAt<T>(rows: seq<T>, blocks: seq<seq<T>>, h: nat, i: nat, k: nat, row: T)
    requires rows == Concat(blocks) && forall j :: 0 <= j < |blocks| ==> |blocks[j]| == h
    requires i < |blocks| && k < h && blocks[i][k] == row
    ensures Position(i, h, k) < |rows| && rows[Position(i, h, k)] == row
  {
    ConcatUniformAt(blocks, h, i, k);
  }

  /** A stored series can be forecast: it holds one input window and the
      horizon is at most two seasonal periods of its smoothing row. */
  predicate Forecastable(cfg: ModelConfig, y: seq<real>, seasonality: nat)
  {
    0 < |y| && cfg.inputSize <= |y| && cfg.outputSize <= 2 * seasonality
  }

  /** With a network of the configured output size, a fitted forecaster
      forecasts every id exactly when a series is stored for each id and
      every one of them can be forecast. */
  lemma PanelForecastSucceeds(cfg: ModelConfig, ids: seq<int>, records: seq<SeriesRecord>, smoothing: seq<RawSmoothing>, num: Numerics)
    requires TableFits(records, smoothing) && ProducesHorizon(num.rnn, cfg.outputSize)
    ensures PanelForecast(cfg, Some(ids), Some(records), smoothing, num).Ok? <==>
              && |ids| <= |records|
              && forall i :: 0 <= i < |ids| ==> Forecastable(cfg, records[i].y, |smoothing[i].initSeasRaw|)
  {
    var results := ForecastResults(cfg, ids, records, smoothing, num);
    forall i | 0 <= i < |ids| && i < |records|
      ensures results[i].Ok? <==> Forecastable(cfg, records[i].y, |smoothing[i].initSeasRaw|)
    {
      assert results[i] == SeriesForecast(cfg, ids, records, smoothing, num, i);
      if |records[i].y| > 0 {
        PredictSerieSucceeds(cfg, ParamsOf(records, smoothing, num, i), records[i].y, num);
      }
    }
    if |ids| > |records| {
      assert results[|records|] == SeriesForecast(cfg, ids, records, smoothing, num, |records|);
    }
  }

  /** A positive exponential and a logistic function into (0, 1) make every
      forecast of positive series positive. */
  lemma PanelForecastPositive(cfg: ModelConfig, ids: seq<int>, records: seq<SeriesRecord>, smoothing: seq<RawSmoothing>, num: Numerics)
    requires TableFits(records, smoothing)
    requires PanelForecast(cfg, Some(ids), Some(records), smoothing, num).Ok?
    requires ExpPositive(num.exp) && forall x :: 0.0 < num.logistic(x) < 1.0
    requires forall j, t :: 0 <= j < |records| && 0 <= t < |records[j].y| ==> records[j].y[t] > 0.0
    ensures var rows := PanelForecast(cfg, Some(ids), Some(records), smoothing, num).value;
            forall n :: 0 <= n < |rows| ==> rows[n].yHat > 0.0
  {
    if |ids| > 0 {
      ForecastBlocks(cfg, ids, records, smoothing, num);
      var results := ForecastResults(cfg, ids, records, smoothing, num);
      var blocks: seq<seq<ForecastRow>> := Collect(results).value;
      forall i, k | 0 <= i < |blocks| && 0 <= k < |blocks[i]| ensures blocks[i][k].yHat > 0.0 {
        assert results[i].Ok? && results[i] == SeriesForecast(cfg, ids, records, smoothing, num, i);
        SeriesForecastRows(cfg, ids, records, smoothing, num, i);
        var sp := ParamsOf(records, smoothing, num, i);
        SquashIsSquashed(smoothing[i], num.logistic, num.exp);
        assert forall x :: num.exp(x) > 0.0;
        PredictSeriePositive(cfg, sp, records[i].y, num);
      }
      ConcatPositive(blocks);
    }
  }

  /** Joining blocks of positive forecasts gives positive forecasts. */
  lemma {:induction false} ConcatPositive(blocks: seq<seq<ForecastRow>>)
    requires forall i, k :: 0 <= i < |blocks| && 0 <= k < |blocks[i]| ==> blocks[i][k].yHat > 0.0
    ensures forall n :: 0 <= n < |Concat(blocks)| ==> Concat(blocks)[n].yHat > 0.0
    decreases |blocks|
  {
    if blocks != [] {
      ConcatPositive(blocks[..|blocks| - 1]);
      assert Concat(blocks) == Concat(blocks[..|blocks| - 1]) + blocks[|blocks| - 1];
    }
  }

  /** Records built from a panel serve a fresh smoothing table: their ids are
      dense, and a record exists only for a supported, hence non-zero,
      seasonality. */
  lemma RecordsFitInitialTable(cfg: ModelConfig, rows: seq<Row>, ids: seq<int>)
    requires cfg.maxSeriesLength == MaxSeriesLength(cfg.seasonality, cfg.minSeriesLength)
    requires Collect(RecordResults(cfg, rows, ids)).Ok?
    ensures var records := Collect(RecordResults(cfg, rows, ids)).value;
            TableFits(records, InitialSmoothing(|records|, cfg.seasonality))
  {
    PanelRecordsIndexed(cfg, rows, ids);
    var results := RecordResults(cfg, rows, ids);
    if |ids| > 0 {
      assert results[0].Ok? && results[0] == SeriesOf(cfg, rows, ids[0], 0);
      assert cfg.maxSeriesLength.Some?;
    }
  }

  /** A worked case: two series of 40 points with weekly seasonality and
      input and output windows of 7, on a fresh smoothing table and a network
      of the configured output size. An epoch trains both series and the
      forecast has 7 rows for each of the two ids. */
  lemma TwoWeeklySeries(cfg: ModelConfig, ids: seq<int>, records: seq<SeriesRecord>, num: Numerics)
    requires cfg.seasonality == 7 && cfg.inputSize == 7 && cfg.outputSize == 7
    requires |ids| == 2 && |records| == 2
    requires forall j :: 0 <= j < 2 ==> records[j].id == j && |records[j].y| == 40
    requires ProducesHorizon(num.rnn, 7)
    ensures var table := InitialSmoothing(2, 7);
            && Epoch(cfg, records, table, num).Ok?
            && |Epoch(cfg, records, table, num).value| == 2
            && PanelForecast(cfg, Some(ids), Some(records), table, num).Ok?
            && |PanelForecast(cfg, Some(ids), Some(records), table, num).value| == 14
  {
    var table := InitialSmoothing(2, 7);
    assert TableFits(records, table);
    EpochSucceeds(cfg, records, table, num);
    assert Trainable(cfg, records[0].y) && Trainable(cfg, records[1].y);
    PanelForecastSucceeds(cfg, ids, records, table, num);
    assert Forecastable(cfg, records[0].y, |table[0].initSeasRaw|);
    assert Forecastable(cfg, records[1].y, |table[1].initSeasRaw|);
    PanelForecastLength(cfg, ids, records, table, num);
  }

  /** The forecaster object (`ESRNN`): its configuration, the sorted panel
      and the ids of the last `fit`, the stored series records and the
      smoothing table. `None` stands for an attribute no `fit` has assigned. */
  class Esrnn {
    var config: ModelConfig
    var panel: seq<Row>
    var uniqueIds: Option<seq<int>>
    var records: Option<seq<SeriesRecord>>
    var smoothing: seq<RawSmoothing>

    /** The configuration keeps its derived maximum length, and stored
        records always come with a smoothing table that serves them. */
    ghost predicate Valid()
      reads this
    {
      && config.maxSeriesLength == MaxSeriesLength(config.seasonality, config.minSeriesLength)
      && (records.Some? ==> TableFits(records.value, smoothing))
    }

    /** `ESRNN.__init__`: the configuration of the given document with root
        directory "./" and copy 1; nothing fitted yet. */
    constructor(doc: ConfigDocument)
      ensures Valid()
      ensures config == NewModelConfig(doc, "./", 1)
      ensures panel == [] && uniqueIds == None && records == None && smoothing == []
    {
      config := NewModelConfig(doc, "./", 1);
      panel := [];
      uniqueIds := None;
      records := None;
      smoothing := [];
    }

    /** `panel_to_tsobject`: one record per id, in id order, built from the
        id's block of the sorted panel and given the id's position as its id. */
    method PanelToSeries() returns (r: Result<seq<SeriesRecord>>)
      requires uniqueIds.Some?
      ensures r == Collect(RecordResults(config, panel, uniqueIds.value))
    {
      var ids := uniqueIds.value;
      ghost var results := RecordResults(config, panel, ids);
      var list: seq<SeriesRecord> := [];
      var keys := Keys(panel);
      var i := 0;
      while i < |ids|
        invariant 0 <= i <= |ids|
        invariant Collect(results[..i]) == Ok(list)
      {
        var top := SearchLeft(keys, ids[i]);
        var bottom := SearchRight(keys, ids[i]);
        var block := panel[top..bottom];
        var record := NewSeries(config, Values(block), Timestamps(block), i);
        assert record == results[i];
        CollectStep(results, i);
        if record.Err? {
          CollectErrorPersists(results, i + 1, |results|);
          assert results[..|results|] == results;
          return Err(record.error);
        }
        list := list + [record.value];
        i := i + 1;
      }
      assert results[..i] == results;
      return Ok(list);
    }

    /** One pass of the epoch loop of `train`: the losses of every stored
        series, in order, stopping at the first failure; an epoch over no
        series fails at its closing log line. */
    method RunEpoch(num: Numerics) returns (r: Result<seq<SeriesLosses>>)
      requires Valid() && records.Some? && ForwardSizes(config)
      ensures r == Epoch(config, records.value, smoothing, num)
    {
      var series := records.value;
      ghost var results := EpochResults(config, series, smoothing, num);
      var losses: seq<SeriesLosses> := [];
      var j := 0;
      while j < |series|
        invariant 0 <= j <= |series|
        invariant Collect(results[..j]) == Ok(losses)
      {
        var sp := Squash(smoothing[series[j].id], num.logistic, num.exp);
        var loss := TrainSeries(config, sp, series[j].y, num.rnn, num.log);
        assert loss == results[j];
        CollectStep(results, j);
        if loss.Err? {
          CollectErrorPersists(results, j + 1, |results|);
          assert results[..|results|] == results;
          return Err(loss.error);
        }
        losses := losses + [loss.value];
        j := j + 1;
      }
      if |series| == 0 {
        return Err(NoSeriesTrained);
      }
      assert results[..j] == results;
      return Ok(losses);
    }

    /** `train`: `maxEpochs` passes over the stored series. */
    method Train(num: Numerics) returns (r: Result<seq<seq<SeriesLosses>>>)
      requires Valid() && records.Some? && ForwardSizes(config)
      ensures r == TrainingLosses(config, records.value, smoothing, num)
    {
      ghost var epoch := Epoch(config, records.value, smoothing, num);
      var epochs: seq<seq<SeriesLosses>> := [];
      for e := 0 to config.maxEpochs
        invariant |epochs| == e
        invariant e > 0 ==> epoch.Ok?
        invariant forall k :: 0 <= k < e ==> epochs[k] == epoch.value
      {
        var losses := RunEpoch(num);
        if losses.Err? {
          return Err(losses.error);
        }
        epochs := epochs + [losses.value];
      }
      if config.maxEpochs > 0 {
        ghost var losses := epoch.value;
        assert epochs == seq(config.maxEpochs, _ => losses);
      }
      return Ok(epochs);
    }

    /** `fit`: stores the sorted panel and its ids, builds the records, then
        sizes a fresh smoothing table to the number of series and trains.
        `sorted` is the panel ordered by id and timestamp; the filter by
        trainable ids keeps every row (`TrainableIdsKeepEveryRow`). A record
        that cannot be built stops `fit` before the table is replaced. */
    method Fit(rows: seq<Row>, sorted: seq<Row>, num: Numerics) returns (r: Result<seq<seq<SeriesLosses>>>)
      requires Valid() && ForwardSizes(config)
      requires SortedPanel(sorted) && multiset(sorted) == multiset(rows)
      modifies this
      ensures Valid()
      ensures panel == sorted && uniqueIds == Some(UniqueIds(Keys(sorted)))
      ensures var built := Collect(RecordResults(old(config), sorted, UniqueIds(Keys(sorted))));
              built.Err? ==>
                r == Err(built.error) && config == old(config) && records == old(records) && smoothing == old(smoothing)
      ensures var built := Collect(RecordResults(old(config), sorted, UniqueIds(Keys(sorted))));
              built.Ok? ==>
                && records == Some(built.value)
                && config == old(config).(maxNumSeries := |built.value|)
                && smoothing == InitialSmoothing(|built.value|, config.seasonality)
                && ForwardSizes(config)
                && r == TrainingLosses(config, built.value, smoothing, num)
    {
      ghost var cfg := config;
      var ids := UniqueIds(Keys(sorted));
      panel := sorted;
      uniqueIds := Some(ids);
      var built := PanelToSeries();
      assert config == cfg == old(config) && panel == sorted && uniqueIds.value == ids;
      if built.Err? {
        return Err(built.error);
      }
      RecordsFitInitialTable(config, sorted, uniqueIds.value);
      var count := |uniqueIds.value|;
      records := Some(built.value);
      config := config.(maxNumSeries := count);
      smoothing := InitialSmoothing(count, config.seasonality);
      r := Train(num);
    }

    /** `predict`: the forecast rows of every id, in id order. */
    method Predict(num: Numerics) returns (r: Result<seq<ForecastRow>>)
      requires Valid()
      ensures r == PanelForecast(config, uniqueIds, records, smoothing, num)
    {
      if uniqueIds.None? {
        return Err(NotFitted);
      }
      var ids := uniqueIds.value;
      if |ids| == 0 {
        return Ok([]);
      }
      if records.None? {
        return Err(NotFitted);
      }
      var series := records.value;
      var cfg := config;
      var table := smoothing;
      ghost var results := ForecastResults(cfg, ids, series, table, num);
      ghost var blocks: seq<seq<ForecastRow>> := [];
      var panelRows: seq<ForecastRow> := [];
      for i := 0 to |ids|
        invariant Collect(results[..i]) == Ok(blocks)
        invariant panelRows == Concat(blocks)
      {
        var outcome: Result<seq<ForecastRow>>;
        if i >= |series| {
          outcome := Err(SeriesIndexOutOfRange);
        } else {
          assert series[i].id == i;
          var sp := Squash(table[series[i].id], num.logistic, num.exp);
          assert sp == ParamsOf(series, table, num, i);
          var yHat := PredictSerie(cfg, sp, series[i].y, num);
          if yHat.Err? {
            outcome := Err(yHat.error);
          } else {
            outcome := Ok(SeriesRows(ids[i], series[i].lastDs, cfg.frequency, yHat.value));
          }
        }
        assert results[i] == SeriesForecast(cfg, ids, series, table, num, i);
        assert outcome == results[i];
        CollectStep(results, i);
        if outcome.Err? {
          CollectErrorPersists(results, i + 1, |results|);
          assert results[..|results|] == results;
          return Err(outcome.error);
        }
        ConcatAppend(blocks, outcome.value);
        blocks := blocks + [outcome.value];
        panelRows := panelRows + outcome.value;
      }
      assert results[..|ids|] == results;
      return Ok(panelRows);
    }
  }
}
