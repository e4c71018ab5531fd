/** The per-series record (`M4TS` in esrnn/contrib/esrnn.py): the split of a
    series into its training part and, with a lookback, a held-out block, and
    the truncation of the training part to the most recent points. */
module Series {
  import opened Base
  import opened Config

  /** One series as the forecaster keeps it: its dense id, the retained training
      values, the held-out block (only when a lookback is configured and the
      series is long enough) and its last timestamp. */
  datatype SeriesRecord = SeriesRecord(id: nat, y: seq<real>, yTest: Option<seq<real>>, lastDs: int)

  /** The number of trailing points reserved for backtesting: `lback` output windows. */
  function LookbackLength(cfg: ModelConfig): nat
  {
    cfg.lback * cfg.outputSize
  }

  /** Whether the source assigns the training values at all. */
  predicate TrainingPartAssigned(cfg: ModelConfig, n: nat)
  {
    cfg.lback == 0 || n > LookbackLength(cfg)
  }

  /** `pastLast - first` in the source is one output window. */
  lemma PastLastIsOneWindowLater(lback: nat, h: nat)
    requires lback > 0
    ensures (lback - 1) * h == lback * h - h
  {
  }

  /** The split performed before truncation: the training part and the
      held-out block, or `None` when the source never assigns the training part. */
  function Split(cfg: ModelConfig, y: seq<real>): (s: Option<(seq<real>, Option<seq<real>>)>)
    ensures s.Some? <==> TrainingPartAssigned(cfg, |y|)
    ensures s.Some? && cfg.lback == 0 ==> s.value == (y, None)
    ensures s.Some? && cfg.lback > 0 ==>
              var first := |y| - LookbackLength(cfg);
              s.value == (y[..first], Some(y[first..first + cfg.outputSize]))
  {
    var n := |y|;
    if cfg.lback > 0 then
      if n - cfg.lback * cfg.outputSize > 0 then
        var first := n - cfg.lback * cfg.outputSize;
        PastLastIsOneWindowLater(cfg.lback, cfg.outputSize);
        var pastLast := n - (cfg.lback - 1) * cfg.outputSize;
        Some((y[..first], Some(y[first..pastLast])))
      else None
    else Some((y, None))
  }

  /** Builds the record of series `id` from its values `y` and timestamps `ds`.
      With a lookback the training part is `y` before the held-out start and the
      held-out block is the following output window; without one the training
      part is all of `y`. The training part is then cut to the last
      `maxSeriesLength` points of the WHOLE input `y`, as the source does. */
  function NewSeries(cfg: ModelConfig, y: seq<real>, ds: seq<int>, id: nat): (r: Result<SeriesRecord>)
    ensures r.Ok? <==> TrainingPartAssigned(cfg, |y|) && cfg.maxSeriesLength.Some? && |ds| > 0
    ensures !TrainingPartAssigned(cfg, |y|) ==> r == Err(UnassignedTrainingSeries)
    ensures TrainingPartAssigned(cfg, |y|) && cfg.maxSeriesLength.None? ==> r == Err(UndefinedMaxSeriesLength)
    ensures r.Ok? ==> r.value.id == id && r.value.lastDs == ds[|ds| - 1]
    ensures r.Ok? ==> |r.value.y| <= |y|
    ensures r.Ok? && cfg.maxSeriesLength.value > 0 ==> |r.value.y| <= cfg.maxSeriesLength.value
    ensures r.Ok? ==> (r.value.yTest.Some? <==> cfg.lback > 0)
  {
    var split := Split(cfg, y);
    if split.None? then Err(UnassignedTrainingSeries)
    else if cfg.maxSeriesLength.None? then Err(UndefinedMaxSeriesLength)
    else
      var trainY := split.value.0;
      var m := cfg.maxSeriesLength.value;
      var kept := if |trainY| > m then PySlice(y, -(m as int), |y|) else trainY;
      if |ds| == 0 then Err(EmptyTimestamps)
      else Ok(SeriesRecord(id, kept, split.value.1, ds[|ds| - 1]))
  }

  /** Without a lookback the record keeps the last min(n, maxSeriesLength)
      points of the input and has no held-out block. */
  lemma RecordWithoutLookback(cfg: ModelConfig, y: seq<real>, ds: seq<int>, id: nat)
    requires cfg.lback == 0 && cfg.maxSeriesLength.Some? && cfg.maxSeriesLength.value > 0 && |ds| > 0
    ensures NewSeries(cfg, y, ds, id).Ok?
    ensures NewSeries(cfg, y, ds, id).value.y == y[|y| - Min(|y|, cfg.maxSeriesLength.value)..]
    ensures NewSeries(cfg, y, ds, id).value.yTest == None
  {
    if |y| <= cfg.maxSeriesLength.value {
      assert y[|y| - Min(|y|, cfg.maxSeriesLength.value)..] == y;
    }
  }

  /** With a lookback on a long enough series the held-out block is the output
      window starting `lback * outputSize` points before the end, and the
      training part is the prefix before it unless that prefix is too long, in
      which case it is the last `maxSeriesLength` points of the whole input. */
  lemma RecordWithLookback(cfg: ModelConfig, y: seq<real>, ds: seq<int>, id: nat)
    requires cfg.lback > 0 && |y| > LookbackLength(cfg)
    requires cfg.maxSeriesLength.Some? && cfg.maxSeriesLength.value > 0 && |ds| > 0
    ensures var first := |y| - LookbackLength(cfg);
            var m := cfg.maxSeriesLength.value;
            var r := NewSeries(cfg, y, ds, id);
            && r.Ok?
            && r.value.yTest == Some(y[first..first + cfg.outputSize])
            && |r.value.yTest.value| == cfg.outputSize
            && r.value.y == (if first > m then y[|y| - m..] else y[..first])
  {
  }

  /** With a lookback on a series of at most `lback * outputSize` points the
      training part is never assigned and construction fails. */
  lemma ShortSeriesWithLookbackFails(cfg: ModelConfig, y: seq<real>, ds: seq<int>, id: nat)
    requires cfg.lback > 0 && |y| <= LookbackLength(cfg)
    ensures NewSeries(cfg, y, ds, id) == Err(UnassignedTrainingSeries)
  {
  }

  /** Because the truncation slices the whole input, a long series with a
      lookback keeps its held-out points in the training part: when the kept
      length covers the lookback tail, the record's values end with every
      point from the held-out start on, so `yTest` is also training data. */
  lemma TruncationKeepsHeldOutPoints(cfg: ModelConfig, y: seq<real>, ds: seq<int>, id: nat)
    requires cfg.lback > 0 && cfg.maxSeriesLength.Some? && |ds| > 0
    requires 0 < LookbackLength(cfg) <= cfg.maxSeriesLength.value < |y| - LookbackLength(cfg)
    ensures NewSeries(cfg, y, ds, id).Ok?
    ensures var kept := NewSeries(cfg, y, ds, id).value.y;
            kept[|kept| - LookbackLength(cfg)..] == y[|y| - LookbackLength(cfg)..]
    ensures var rec := NewSeries(cfg, y, ds, id).value;
            forall k :: 0 <= k < cfg.outputSize ==>
              rec.yTest.value[k] == rec.y[|rec.y| - LookbackLength(cfg) + k]
  {
    var tail := LookbackLength(cfg);
    var m := cfg.maxSeriesLength.value;
    var first := |y| - tail;
    TruncatedRecord(cfg, y, ds, id);
    PastLastIsOneWindowLater(cfg.lback, cfg.outputSize);
    KeptTail(y, m, tail, y[first..first + cfg.outputSize]);
  }

  /** The last `m` points of `y` end with its last `tail` points, and the
      window at the start of that tail sits at the same place in both. */
  lemma KeptTail(y: seq<real>, m: nat, tail: nat, window: seq<real>)
    requires |window| <= tail <= m <= |y|
    requires window == y[|y| - tail..|y| - tail + |window|]
    ensures var kept := y[|y| - m..];
            kept[|kept| - tail..] == y[|y| - tail..]
            && forall k :: 0 <= k < |window| ==> window[k] == kept[|kept| - tail + k]
  {
  }

  /** The record of a series whose training part is longer than the kept
      length: the last `maxSeriesLength` points of the whole input and the
      held-out window. */
  lemma TruncatedRecord(cfg: ModelConfig, y: seq<real>, ds: seq<int>, id: nat)
    requires cfg.lback > 0 && cfg.maxSeriesLength.Some? && |ds| > 0
    requires 0 < cfg.maxSeriesLength.value < |y| - LookbackLength(cfg)
    ensures var m := cfg.maxSeriesLength.value;
            var first := |y| - LookbackLength(cfg);
            NewSeries(cfg, y, ds, id)
            == Ok(SeriesRecord(id, y[|y| - m..], Some(y[first..first + cfg.outputSize]), ds[|ds| - 1]))
  {
    var first := |y| - LookbackLength(cfg);
    var m := cfg.maxSeriesLength.value;
    assert Split(cfg, y).value.0 == y[..first];
    assert PySlice(y, -(m as int), |y|) == y[|y| - m..];
  }

  /** A record built from a non-empty series holds at least one point. */
  lemma RecordOfNonEmptySeries(cfg: ModelConfig, y: seq<real>, ds: seq<int>, id: nat)
    requires |y| > 0 && NewSeries(cfg, y, ds, id).Ok?
    ensures 0 < |NewSeries(cfg, y, ds, id).value.y|
  {
  }
}
