/** The per-series exponential smoothing (`ES` in esrnn/contrib/esrnn.py):
    the level and seasonality recurrences, the log-differences of the levels,
    and the naive extension of the seasonalities past the observed data. */
module Smoothing {
  import opened Base

  /** One row of the smoothing parameter table as stored: the raw level and
      seasonality coefficients and the raw initial seasonal vector. */
  datatype RawSmoothing = RawSmoothing(levRaw: real, seasRaw: real, initSeasRaw: seq<real>)

  /** The parameters of one series after squashing: the level coefficient, the
      seasonality coefficient and one initial seasonal factor per season. */
  datatype SmoothingParams = SmoothingParams(levSms: real, seasSms: real, initSeas: seq<real>)

  /** What the squashing guarantees: both coefficients in (0, 1) and positive
      initial seasonal factors. */
  predicate Squashed(sp: SmoothingParams)
  {
    && 0.0 < sp.levSms < 1.0
    && 0.0 < sp.seasSms < 1.0
    && |sp.initSeas| > 0
    && forall k :: 0 <= k < |sp.initSeas| ==> sp.initSeas[k] > 0.0
  }

  /** The lookup of one series' parameters: the logistic function squashes the
      coefficients and the exponential the initial seasonal factors. */
  function Squash(raw: RawSmoothing, logistic: real -> real, exp: real -> real): (sp: SmoothingParams)
    ensures |sp.initSeas| == |raw.initSeasRaw|
  {
    SmoothingParams(logistic(raw.levRaw), logistic(raw.seasRaw),
                    seq(|raw.initSeasRaw|, k requires 0 <= k < |raw.initSeasRaw| => exp(raw.initSeasRaw[k])))
  }

  lemma PositiveAt(f: real -> real, z: real)
    requires forall x :: f(x) > 0.0
    ensures f(z) > 0.0
  {
  }

  /** A logistic function into (0, 1) and a positive exponential make every
      looked-up parameter row satisfy `Squashed`. */
  lemma SquashIsSquashed(raw: RawSmoothing, logistic: real -> real, exp: real -> real)
    requires forall x :: 0.0 < logistic(x) < 1.0
    requires forall x :: exp(x) > 0.0
    requires |raw.initSeasRaw| > 0
    ensures Squashed(Squash(raw, logistic, exp))
  {
    var sp := Squash(raw, logistic, exp);
    forall k | 0 <= k < |sp.initSeas| ensures sp.initSeas[k] > 0.0 {
      assert sp.initSeas[k] == exp(raw.initSeasRaw[k]);
      PositiveAt(exp, raw.initSeasRaw[k]);
    }
  }

  /** The level update (line 156 of esrnn/contrib/esrnn.py): the observation divided by its
      seasonal factor, weighted by the level coefficient, plus the discounted
      previous level. */
  function LevelUpdate(levSms: real, yt: real, season: real, prevLevel: real): real
  {
    yt * Div(levSms, season) + (1.0 - levSms) * prevLevel
  }

  /** The seasonality update (line 158 of esrnn/contrib/esrnn.py). */
  function SeasonUpdate(seasSms: real, yt: real, level: real, prevSeason: real): real
  {
    yt * Div(seasSms, level) + (1.0 - seasSms) * prevSeason
  }

  /** The level after observation `t`. The first level deseasonalises the first
      observation; each later one blends the deseasonalised observation with
      the previous level. */
  function Level(sp: SmoothingParams, y: seq<real>, t: nat): real
    requires |sp.initSeas| > 0 && t < |y|
    decreases 2 * t + 1
  {
    if t == 0 then Div(y[0], Season(sp, y, 0))
    else LevelUpdate(sp.levSms, y[t], Season(sp, y, t), Level(sp, y, t - 1))
  }

  /** Entry `j` of the seasonality sequence. The first period is the initial
      vector, entry p repeats its first factor, and entry p + i (i >= 1) blends
      observation i relative to its level with the factor one period back. */
  function Season(sp: SmoothingParams, y: seq<real>, j: nat): real
    requires |sp.initSeas| > 0 && j < |sp.initSeas| + |y|
    decreases 2 * j
  {
    var p := |sp.initSeas|;
    if j < p then sp.initSeas[j]
    else if j == p then sp.initSeas[0]
    else SeasonUpdate(sp.seasSms, y[j - p], Level(sp, y, j - p), Season(sp, y, j - p))
  }

  /** All levels of a series, one per observation. */
  function Levels(sp: SmoothingParams, y: seq<real>): (levels: seq<real>)
    requires |sp.initSeas| > 0
    ensures |levels| == |y|
  {
    seq(|y|, t requires 0 <= t < |y| => Level(sp, y, t))
  }

  /** The seasonality sequence before extension: p + n entries. */
  function BaseSeasonalities(sp: SmoothingParams, y: seq<real>): (s: seq<real>)
    requires |sp.initSeas| > 0
    ensures |s| == |sp.initSeas| + |y|
  {
    seq(|sp.initSeas| + |y|, j requires 0 <= j < |sp.initSeas| + |y| => Season(sp, y, j))
  }

  /** The naive continuation used when the horizon is longer than the period:
      the Python slice starting one period before the end, as long as the
      horizon exceeds the period (the slice stops at the end of the sequence). */
  function NaiveExtension(s: seq<real>, p: nat, h: nat): seq<real>
  {
    if h > p then
      var start := |s| - p;
      s + PySlice(s, start, start + h - p)
    else s
  }

  /** The seasonality sequence the forecaster works with. */
  function Seasonalities(sp: SmoothingParams, y: seq<real>, h: nat): (s: seq<real>)
    requires |sp.initSeas| > 0
    ensures |s| >= |sp.initSeas| + |y|
  {
    NaiveExtension(BaseSeasonalities(sp, y), |sp.initSeas|, h)
  }

  /** The step-to-step differences of the logged levels. */
  function LogDiffs(levels: seq<real>, log: real -> real): (d: seq<real>)
    requires |levels| > 0
    ensures |d| == |levels| - 1
  {
    seq(|levels| - 1, t requires 0 <= t < |levels| - 1 => log(levels[t + 1]) - log(levels[t]))
  }

  /** Appending a level appends its log-difference with the previous one. */
  lemma LogDiffsAppend(levels: seq<real>, level: real, log: real -> real)
    requires |levels| > 0
    ensures LogDiffs(levels + [level], log) == LogDiffs(levels, log) + [log(level) - log(levels[|levels| - 1])]
  {
    var longer := levels + [level];
    assert longer[..|levels|] == levels;
  }

  /** Unfolds one step of the level recurrence. */
  lemma LevelStep(sp: SmoothingParams, y: seq<real>, i: nat)
    requires |sp.initSeas| > 0 && 0 < i < |y|
    ensures Level(sp, y, i) == LevelUpdate(sp.levSms, y[i], Season(sp, y, i), Level(sp, y, i - 1))
  {
  }

  /** Unfolds one step of the seasonality recurrence. */
  lemma SeasonStep(sp: SmoothingParams, y: seq<real>, i: nat)
    requires |sp.initSeas| > 0 && 0 < i < |y|
    ensures Season(sp, y, |sp.initSeas| + i) == SeasonUpdate(sp.seasSms, y[i], Level(sp, y, i), Season(sp, y, i))
  {
  }

  /** `compute_levels_seasons`: builds the three sequences by appending, one
      observation at a time, then extends the seasonalities. */
  method ComputeLevelsSeasons(sp: SmoothingParams, y: seq<real>, outputSize: nat, log: real -> real)
    returns (levels: seq<real>, seasonalities: seq<real>, logDiffs: seq<real>)
    requires |sp.initSeas| > 0 && |y| > 0
    ensures levels == Levels(sp, y)
    ensures seasonalities == Seasonalities(sp, y, outputSize)
    ensures logDiffs == LogDiffs(levels, log)
  {
    var p := |sp.initSeas|;
    levels, seasonalities, logDiffs := RunRecurrences(sp, y, log);
    if outputSize > p {
      var start := |seasonalities| - p;
      var end := start + outputSize - p;
      seasonalities := seasonalities + PySlice(seasonalities, start, end);
    }
  }

  /** One iteration of the loop of `compute_levels_seasons` extends the
      levels and seasonalities computed so far by the next entries of the
      recurrences. */
  lemma {:induction false} IterationAgrees(sp: SmoothingParams, y: seq<real>, i: nat, levels: seq<real>, seasonalities: seq<real>)
    requires |sp.initSeas| > 0 && 0 < i < |y|
    requires levels == Levels(sp, y)[..i]
    requires seasonalities == BaseSeasonalities(sp, y)[..|sp.initSeas| + i]
    ensures var newLevel := LevelUpdate(sp.levSms, y[i], seasonalities[i], levels[i - 1]);
            && levels + [newLevel] == Levels(sp, y)[..i + 1]
            && seasonalities + [SeasonUpdate(sp.seasSms, y[i], newLevel, seasonalities[i])]
               == BaseSeasonalities(sp, y)[..|sp.initSeas| + i + 1]
  {
    var p := |sp.initSeas|;
    assert seasonalities[i] == Season(sp, y, i);
    assert levels[i - 1] == Level(sp, y, i - 1);
    LevelStep(sp, y, i);
    SeasonStep(sp, y, i);
    assert Levels(sp, y)[..i + 1] == Levels(sp, y)[..i] + [Level(sp, y, i)];
    assert BaseSeasonalities(sp, y)[..p + i + 1] == BaseSeasonalities(sp, y)[..p + i] + [Season(sp, y, p + i)];
  }

  /** The seasonalities before the first observation: the initial vector
      followed by its first factor again. */
  method InitialSeasonalities(sp: SmoothingParams) returns (seasonalities: seq<real>)
    requires |sp.initSeas| > 0
    ensures seasonalities == sp.initSeas + [sp.initSeas[0]]
  {
    var p := |sp.initSeas|;
    seasonalities := [];
    for k := 0 to p
      invariant seasonalities == sp.initSeas[..k]
    {
      seasonalities := seasonalities + [sp.initSeas[k]];
    }
    seasonalities := seasonalities + [sp.initSeas[0]];
  }

  /** The loop of `compute_levels_seasons`, before the extension. */
  method RunRecurrences(sp: SmoothingParams, y: seq<real>, log: real -> real)
    returns (levels: seq<real>, seasonalities: seq<real>, logDiffs: seq<real>)
    requires |sp.initSeas| > 0 && |y| > 0
    ensures levels == Levels(sp, y)
    ensures seasonalities == BaseSeasonalities(sp, y)
    ensures logDiffs == LogDiffs(levels, log)
  {
    var p := |sp.initSeas|;
    ghost var allLevels := Levels(sp, y);
    ghost var allSeasons := BaseSeasonalities(sp, y);
    seasonalities := InitialSeasonalities(sp);
    assert seasonalities == allSeasons[..p + 1];
    levels := [Div(y[0], seasonalities[0])];
    assert levels == allLevels[..1];
    logDiffs := [];
    for i := 1 to |y|
      invariant levels == allLevels[..i]
      invariant seasonalities == allSeasons[..p + i]
      invariant logDiffs == LogDiffs(levels, log)
    {
      IterationAgrees(sp, y, i, levels, seasonalities);
      var newLevel := LevelUpdate(sp.levSms, y[i], seasonalities[i], levels[i - 1]);
      var newSeason := SeasonUpdate(sp.seasSms, y[i], newLevel, seasonalities[i]);
      var diff := log(newLevel) - log(levels[i - 1]);
      LogDiffsAppend(levels, newLevel, log);
      levels := levels + [newLevel];
      logDiffs := logDiffs + [diff];
      seasonalities := seasonalities + [newSeason];
    }
    assert levels == allLevels;
    assert seasonalities == allSeasons;
  }

  /** One smoothing step keeps positivity: a positive observation scaled by a
      positive weight, plus a (0, 1)-discounted positive previous value. */
  lemma PositiveBlend(x: real, w: real, alpha: real, prev: real)
    requires x > 0.0 && w > 0.0 && 0.0 < alpha < 1.0 && prev > 0.0
    ensures x * w + (1.0 - alpha) * prev > 0.0
  {
    assert x * w > 0.0;
    assert (1.0 - alpha) * prev > 0.0;
  }

  lemma LevelUpdatePositive(levSms: real, yt: real, season: real, prevLevel: real)
    requires 0.0 < levSms < 1.0 && yt > 0.0 && season > 0.0 && prevLevel > 0.0
    ensures LevelUpdate(levSms, yt, season, prevLevel) > 0.0
  {
    QuotientPositive(levSms, season);
    PositiveBlend(yt, Div(levSms, season), levSms, prevLevel);
  }

  lemma SeasonUpdatePositive(seasSms: real, yt: real, level: real, prevSeason: real)
    requires 0.0 < seasSms < 1.0 && yt > 0.0 && level > 0.0 && prevSeason > 0.0
    ensures SeasonUpdate(seasSms, yt, level, prevSeason) > 0.0
  {
    QuotientPositive(seasSms, level);
    PositiveBlend(yt, Div(seasSms, level), seasSms, prevSeason);
  }

  /** With squashed parameters and a positive series every level is positive. */
  lemma {:induction false} LevelPositive(sp: SmoothingParams, y: seq<real>, t: nat)
    requires Squashed(sp) && t < |y|
    requires forall k :: 0 <= k < |y| ==> y[k] > 0.0
    ensures Level(sp, y, t) > 0.0
    decreases 2 * t + 1
  {
    SeasonPositive(sp, y, t);
    var s := Season(sp, y, t);
    if t == 0 {
      QuotientPositive(y[0], s);
    } else {
      var prev := Level(sp, y, t - 1);
      LevelPositive(sp, y, t - 1);
      assert Level(sp, y, t) == LevelUpdate(sp.levSms, y[t], s, prev);
      LevelUpdatePositive(sp.levSms, y[t], s, prev);
    }
  }

  /** With squashed parameters and a positive series every seasonal factor is positive. */
  lemma {:induction false} SeasonPositive(sp: SmoothingParams, y: seq<real>, j: nat)
    requires Squashed(sp) && j < |sp.initSeas| + |y|
    requires forall k :: 0 <= k < |y| ==> y[k] > 0.0
    ensures Season(sp, y, j) > 0.0
    decreases 2 * j
  {
    var p := |sp.initSeas|;
    if j > p {
      var i := j - p;
      var level := Level(sp, y, i);
      var prev := Season(sp, y, i);
      LevelPositive(sp, y, i);
      SeasonPositive(sp, y, i);
      assert Season(sp, y, j) == SeasonUpdate(sp.seasSms, y[i], level, prev);
      SeasonUpdatePositive(sp.seasSms, y[i], level, prev);
    } else if j < p {
      assert Season(sp, y, j) == sp.initSeas[j];
    } else {
      assert Season(sp, y, j) == sp.initSeas[0];
    }
  }

  /** Positivity of the whole output of the smoothing for a positive series. */
  lemma SmoothingPositive(sp: SmoothingParams, y: seq<real>, h: nat)
    requires Squashed(sp)
    requires forall k :: 0 <= k < |y| ==> y[k] > 0.0
    ensures forall t :: 0 <= t < |y| ==> Levels(sp, y)[t] > 0.0
    ensures forall j :: 0 <= j < |Seasonalities(sp, y, h)| ==> Seasonalities(sp, y, h)[j] > 0.0
  {
    var base := BaseSeasonalities(sp, y);
    forall t | 0 <= t < |y| ensures Levels(sp, y)[t] > 0.0 {
      LevelPositive(sp, y, t);
    }
    forall j | 0 <= j < |base| ensures base[j] > 0.0 {
      SeasonPositive(sp, y, j);
    }
  }

  /** The shape of the smoothing output for a series of n >= 1 points and
      period p: n levels, n - 1 log-differences, a seasonality sequence that
      starts with the initial vector followed by its first factor, and a first
      level that is the first observation over the first seasonal factor. */
  lemma SmoothingShape(sp: SmoothingParams, y: seq<real>, h: nat, log: real -> real)
    requires |sp.initSeas| > 0 && |y| > 0
    ensures |Levels(sp, y)| == |y| && |LogDiffs(Levels(sp, y), log)| == |y| - 1
    ensures var s := Seasonalities(sp, y, h);
            && |s| >= |sp.initSeas| + 1
            && s[..|sp.initSeas|] == sp.initSeas
            && s[|sp.initSeas|] == sp.initSeas[0]
    ensures Levels(sp, y)[0] == Div(y[0], Seasonalities(sp, y, h)[0])
  {
    var s := Seasonalities(sp, y, h);
    var base := BaseSeasonalities(sp, y);
    assert s[..|base|] == base;
    assert s[..|sp.initSeas|] == base[..|sp.initSeas|];
  }

  /** The length of the seasonality sequence: p + n without extension, and
      n + p + min(h - p, p) with it, because the extension slice stops at the
      end of the sequence. */
  lemma SeasonalitiesLength(sp: SmoothingParams, y: seq<real>, h: nat)
    requires |sp.initSeas| > 0
    ensures var p := |sp.initSeas|;
            |Seasonalities(sp, y, h)| == if h > p then |y| + p + Min(h - p, p) else |y| + p
  {
  }

  /** The naive continuation: each appended factor equals the factor one period
      earlier, which is the base sequence from index n on. */
  lemma {:induction false} NaiveExtensionRepeatsLastPeriod(sp: SmoothingParams, y: seq<real>, h: nat)
    requires |sp.initSeas| > 0 && h > |sp.initSeas|
    ensures var p := |sp.initSeas|;
            var n := |y|;
            var s := Seasonalities(sp, y, h);
            && s[..n + p] == BaseSeasonalities(sp, y)
            && s[n + p..] == BaseSeasonalities(sp, y)[n..n + Min(h - p, p)]
            && forall k :: n + p <= k < |s| ==> s[k] == s[k - p]
  {
    NaiveExtensionShape(BaseSeasonalities(sp, y), |sp.initSeas|, h, |y|);
  }

  /** The same fact for any sequence of n + p factors. */
  lemma NaiveExtensionShape(base: seq<real>, p: nat, h: nat, n: nat)
    requires p > 0 && h > p && |base| == n + p
    ensures var s := NaiveExtension(base, p, h);
            && s[..n + p] == base
            && s[n + p..] == base[n..n + Min(h - p, p)]
            && forall k :: n + p <= k < |s| ==> s[k] == s[k - p]
  {
    var ext := PySlice(base, n, n + h - p);
    assert ext == base[n..n + Min(h - p, p)];
    assert NaiveExtension(base, p, h) == base + ext;
    AppendedPeriod(base, ext, p);
  }

  /** Appending the first |ext| factors of the last period repeats them. */
  lemma AppendedPeriod(base: seq<real>, ext: seq<real>, p: nat)
    requires |ext| <= p <= |base| && ext == base[|base| - p..|base| - p + |ext|]
    ensures var s := base + ext;
            && s[..|base|] == base && s[|base|..] == ext
            && forall k :: |base| <= k < |s| ==> s[k] == s[k - p]
  {
    var s := base + ext;
    forall k | |base| <= k < |s| ensures s[k] == s[k - p] {
      assert s[k] == ext[k - |base|] == base[k - p];
    }
  }

  /** The seasonal factors for the h steps after the data exist exactly when
      the horizon is at most two periods; longer horizons find fewer factors. */
  lemma ForecastSeasonsAvailable(sp: SmoothingParams, y: seq<real>, h: nat)
    requires |sp.initSeas| > 0
    ensures |Seasonalities(sp, y, h)| >= |y| + h <==> h <= 2 * |sp.initSeas|
  {
    SeasonalitiesLength(sp, y, h);
  }
}
