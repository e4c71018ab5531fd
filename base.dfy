/** Shared vocabulary of the model: the exceptions the forecaster can raise,
    a Result type for them, Python's slicing rules, and sums over reals. */
module Base {

  datatype Option<T> = None | Some(value: T)

  /** The failures of the modelled code, each named after what Python raises. */
  datatype Error =
    | UnassignedTrainingSeries   // AttributeError: the series record never received its `y`
    | UndefinedMaxSeriesLength   // AttributeError: `max_series_length` was never assigned
    | EmptyTimestamps            // IndexError: `ds[-1]` of a series without timestamps
    | EmptySeries                // IndexError: `y[0]` of a series without points
    | EmptyAverage               // dynet refuses to average an empty list of losses
    | NoSeriesTrained            // UnboundLocalError: an epoch over no series leaves `forecloss_ex` unbound
    | WindowMismatch             // a forecast window whose slices do not have the expected size
    | NotFitted                  // AttributeError: `predict` before `fit` assigned `unique_ids`
    | SeriesIndexOutOfRange      // IndexError: more unique ids than series records

  datatype Result<T> = Ok(value: T) | Err(error: Error)

  function Min(a: int, b: int): int { if a <= b then a else b }

  function Max(a: int, b: int): int { if a <= b then b else a }

  function MaxReal(a: real, b: real): real { if a <= b then b else a }

  function Abs(x: real): real { if x < 0.0 then -x else x }

  /** Division of reals as the model uses it: a zero divisor, for which the
      floating-point code produces an infinity or NaN, gives 0 here. */
  function Div(a: real, b: real): (r: real)
    ensures b != 0.0 ==> r * b == a
  {
    if b == 0.0 then 0.0 else a / b
  }

  /** The quotient of positive reals is positive. */
  lemma QuotientPositive(a: real, b: real)
    requires a > 0.0 && b > 0.0
    ensures Div(a, b) > 0.0
  {
  }

  /** A constant factor moves out of a quotient. */
  lemma QuotientOfScaled(c: real, a: real, n: real)
    requires n > 0.0
    ensures (c * a) / n == c * (a / n)
  {
  }

  /** Python's normalisation of one slice bound against a sequence of length n:
      a negative bound counts from the end, and the result is clamped to [0, n]. */
  function SliceBound(i: int, n: nat): (r: nat)
    ensures r <= n
    ensures 0 <= i <= n ==> r == i
    ensures i > n ==> r == n
  {
    if i < 0 then (if n + i < 0 then 0 else n + i)
    else if i > n then n
    else i
  }

  /** Python's `s[lo:hi]`. */
  function PySlice<T>(s: seq<T>, lo: int, hi: int): (r: seq<T>)
    ensures |r| <= |s|
    ensures 0 <= lo <= hi <= |s| ==> r == s[lo..hi]
    ensures 0 <= lo <= |s| && lo <= hi ==> r == s[lo..Min(hi, |s|)]
    ensures 0 < -lo <= |s| && hi == |s| ==> r == s[|s| + lo..]
  {
    var a := SliceBound(lo, |s|);
    var b := SliceBound(hi, |s|);
    if a <= b then s[a..b] else []
  }

  /** The values of a list of results, in order, or the first error among them. */
  function Collect<T>(results: seq<Result<T>>): (r: Result<seq<T>>)
    ensures r.Ok? <==> forall k :: 0 <= k < |results| ==> results[k].Ok?
    ensures r.Ok? ==> |r.value| == |results| && forall k :: 0 <= k < |results| ==> r.value[k] == results[k].value
    decreases |results|
  {
    if results == [] then Ok([])
    else
      var last := results[|results| - 1];
      match Collect(results[..|results| - 1])
      case Err(e) => Err(e)
      case Ok(values) => if last.Err? then Err(last.error) else Ok(values + [last.value])
  }

  /** Collecting one more result appends its value or stops at its error. */
  lemma CollectStep<T>(results: seq<Result<T>>, k: nat)
    requires k < |results| && Collect(results[..k]).Ok?
    ensures Collect(results[..k + 1])
            == if results[k].Err? then Err(results[k].error) else Ok(Collect(results[..k]).value + [results[k].value])
  {
    assert results[..k + 1][..k] == results[..k];
  }

  /** Once a prefix has failed, every longer prefix fails with the same error. */
  lemma {:induction false} CollectErrorPersists<T>(results: seq<Result<T>>, k: nat, j: nat)
    requires k <= j <= |results| && Collect(results[..k]).Err?
    ensures Collect(results[..j]) == Collect(results[..k])
    decreases j - k
  {
    if k < j {
      CollectErrorPersists(results, k, j - 1);
      assert results[..j][..j - 1] == results[..j - 1];
    }
  }

  /** A failed collection reports the error of the first failing result:
      every result before it succeeded. */
  lemma {:induction false} CollectFirstError<T>(results: seq<Result<T>>)
    requires Collect(results).Err?
    ensures exists i :: 0 <= i < |results| && results[i] == Err(Collect(results).error)
                        && forall j :: 0 <= j < i ==> results[j].Ok?
    decreases |results|
  {
    var prefix := results[..|results| - 1];
    var last := results[|results| - 1];
    if Collect(prefix).Err? {
      CollectFirstError(prefix);
      var i :| 0 <= i < |prefix| && prefix[i] == Err(Collect(prefix).error)
                && forall j :: 0 <= j < i ==> prefix[j].Ok?;
      assert results[i] == prefix[i];
    } else {
      assert last == Err(Collect(results).error);
      assert forall j :: 0 <= j < |results| - 1 ==> results[j] == prefix[j];
    }
  }

  /** The blocks joined end to end. */
  function Concat<T>(blocks: seq<seq<T>>): seq<T>
    decreases |blocks|
  {
    if blocks == [] then [] else Concat(blocks[..|blocks| - 1]) + blocks[|blocks| - 1]
  }

  lemma ConcatAppend<T>(blocks: seq<seq<T>>, block: seq<T>)
    ensures Concat(blocks + [block]) == Concat(blocks) + block
  {
    assert (blocks + [block])[..|blocks|] == blocks;
  }

  /** Blocks of h elements each join into |blocks| * h elements. */
  lemma {:induction false} ConcatUniformLength<T>(blocks: seq<seq<T>>, h: nat)
    requires forall i :: 0 <= i < |blocks| ==> |blocks[i]| == h
    ensures |Concat(blocks)| == |blocks| * h
    decreases |blocks|
  {
    if blocks != [] {
      ConcatUniformLength(blocks[..|blocks| - 1], h);
      assert |blocks| * h == (|blocks| - 1) * h + h;
    }
  }

  /** Python's `range(lo, hi)`. */
  function PyRange(lo: int, hi: int): (r: seq<int>)
    ensures |r| == Max(0, hi - lo)
    ensures forall k :: 0 <= k < |r| ==> r[k] == lo + k
    decreases hi - lo
  {
    if lo >= hi then [] else [lo] + PyRange(lo + 1, hi)
  }

  function Sum(s: seq<real>): real
  {
    if s == [] then 0.0 else s[0] + Sum(s[1..])
  }

  function Mean(s: seq<real>): real
    requires |s| > 0
  {
    Sum(s) / (|s| as real)
  }

  lemma {:induction false} SumNonNegative(s: seq<real>)
    requires forall k :: 0 <= k < |s| ==> s[k] >= 0.0
    ensures Sum(s) >= 0.0
  {
    if s != [] {
      SumNonNegative(s[1..]);
    }
  }

  lemma {:induction false} SumOfZeros(s: seq<real>)
    requires forall k :: 0 <= k < |s| ==> s[k] == 0.0
    ensures Sum(s) == 0.0
  {
    if s != [] {
      SumOfZeros(s[1..]);
    }
  }

  /** A sum of non-negative terms is zero only when every term is. */
  lemma {:induction false} ZeroSumOfNonNegative(s: seq<real>)
    requires forall k :: 0 <= k < |s| ==> s[k] >= 0.0
    requires Sum(s) == 0.0
    ensures forall k :: 0 <= k < |s| ==> s[k] == 0.0
  {
    if s != [] {
      SumNonNegative(s[1..]);
      ZeroSumOfNonNegative(s[1..]);
      assert forall k :: 1 <= k < |s| ==> s[k] == s[1..][k - 1];
    }
  }

  /** Scaling every term scales the sum. */
  lemma {:induction false} SumScaled(s: seq<real>, t: seq<real>, c: real)
    requires |s| == |t|
    requires forall k :: 0 <= k < |s| ==> s[k] == c * t[k]
    ensures Sum(s) == c * Sum(t)
  {
    if s != [] {
      SumScaled(s[1..], t[1..], c);
    }
  }

  lemma MeanNonNegative(s: seq<real>)
    requires |s| > 0
    requires forall k :: 0 <= k < |s| ==> s[k] >= 0.0
    ensures Mean(s) >= 0.0
  {
    SumNonNegative(s);
  }
}
