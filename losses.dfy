/** The two training losses of the forecaster (`pinball_loss` and
    `level_variability_loss` in esrnn/contrib/esrnn.py), over reals. */
module Losses {
  import opened Base

  /** The pinball term of one difference `d = y - yHat`. */
  function PinballTerm(d: real, tau: real): real
  {
    MaxReal(tau * d, (tau - 1.0) * d)
  }

  /** The element-wise pinball terms of the differences `y - yHat`. */
  function PinballTerms(y: seq<real>, yHat: seq<real>, tau: real): (terms: seq<real>)
    requires |y| == |yHat|
    ensures |terms| == |y|
  {
    seq(|y|, k requires 0 <= k < |y| => PinballTerm(y[k] - yHat[k], tau))
  }

  /** The pinball (quantile) loss: the mean of the pinball terms. The two
      vectors have the same, non-zero dimension. */
  function Pinball(y: seq<real>, yHat: seq<real>, tau: real): real
    requires |y| == |yHat| > 0
  {
    Mean(PinballTerms(y, yHat, tau))
  }

  /** One pinball term weighs an under-forecast by tau and an over-forecast
      by 1 - tau. */
  lemma PinballTermCases(y: seq<real>, yHat: seq<real>, tau: real, k: nat)
    requires |y| == |yHat| && k < |y| && 0.0 <= tau <= 1.0
    ensures y[k] >= yHat[k] ==> PinballTerms(y, yHat, tau)[k] == tau * (y[k] - yHat[k])
    ensures y[k] < yHat[k] ==> PinballTerms(y, yHat, tau)[k] == (1.0 - tau) * (yHat[k] - y[k])
  {
    var d := y[k] - yHat[k];
    assert PinballTerms(y, yHat, tau)[k] == PinballTerm(d, tau);
    assert (tau - 1.0) * d == (1.0 - tau) * (yHat[k] - y[k]);
    if d >= 0.0 {
      NonNegativeProduct(tau, d);
      NonNegativeProduct(1.0 - tau, d);
      assert (tau - 1.0) * d == -((1.0 - tau) * d);
    } else {
      NonNegativeProduct(tau, -d);
      NonNegativeProduct(1.0 - tau, -d);
      assert tau * d == -(tau * -d);
    }
  }

  lemma NonNegativeProduct(a: real, b: real)
    requires a >= 0.0 && b >= 0.0
    ensures a * b >= 0.0
  {
  }

  /** For tau in [0, 1] the pinball loss is never negative. */
  lemma PinballNonNegative(y: seq<real>, yHat: seq<real>, tau: real)
    requires |y| == |yHat| > 0 && 0.0 <= tau <= 1.0
    ensures Pinball(y, yHat, tau) >= 0.0
  {
    var terms := PinballTerms(y, yHat, tau);
    forall k | 0 <= k < |terms| ensures terms[k] >= 0.0 {
      PinballTermCases(y, yHat, tau, k);
      if y[k] >= yHat[k] {
        NonNegativeProduct(tau, y[k] - yHat[k]);
      } else {
        NonNegativeProduct(1.0 - tau, yHat[k] - y[k]);
      }
    }
    MeanNonNegative(terms);
  }

  /** A forecast equal to the actual values has zero pinball loss. */
  lemma PinballZeroOnExactForecast(y: seq<real>, tau: real)
    requires |y| > 0
    ensures Pinball(y, y, tau) == 0.0
  {
    var terms := PinballTerms(y, y, tau);
    forall k | 0 <= k < |terms| ensures terms[k] == 0.0 {
      assert terms[k] == PinballTerm(y[k] - y[k], tau);
      assert y[k] - y[k] == 0.0;
      assert tau * 0.0 == 0.0 && (tau - 1.0) * 0.0 == 0.0;
    }
    SumOfZeros(terms);
  }

  /** The absolute errors `|y - yHat|`. */
  function AbsoluteErrors(y: seq<real>, yHat: seq<real>): (e: seq<real>)
    requires |y| == |yHat|
    ensures |e| == |y|
  {
    seq(|y|, k requires 0 <= k < |y| => Abs(y[k] - yHat[k]))
  }

  /** At tau = 0.5 the pinball loss is half the mean absolute error. */
  lemma PinballMedianIsHalfMeanAbsoluteError(y: seq<real>, yHat: seq<real>)
    requires |y| == |yHat| > 0
    ensures Pinball(y, yHat, 0.5) == 0.5 * Mean(AbsoluteErrors(y, yHat))
  {
    var terms := PinballTerms(y, yHat, 0.5);
    var errors := AbsoluteErrors(y, yHat);
    forall k | 0 <= k < |terms| ensures terms[k] == 0.5 * errors[k] {
      PinballTermCases(y, yHat, 0.5, k);
    }
    SumScaled(terms, errors, 0.5);
    var n := |y| as real;
    assert Sum(terms) == 0.5 * Sum(errors);
    QuotientOfScaled(0.5, Sum(errors), n);
  }

  /** The squared consecutive differences `(x[i] - x[i-1])^2` for i >= 1. */
  function SquaredDiffs(x: seq<real>): (d: seq<real>)
    ensures |d| == if |x| < 2 then 0 else |x| - 1
  {
    if |x| < 2 then []
    else seq(|x| - 1, i requires 0 <= i < |x| - 1 => Square(x[i + 1] - x[i]))
  }

  /** `d * d`. */
  function Square(a: real): real
  {
    a * a
  }

  /** The level-variability penalty term: the average of the squared
      consecutive differences, times the penalty; fewer than two values leave
      nothing to average. */
  function LevelVariability(x: seq<real>, penalty: real): (r: Result<real>)
  {
    if |x| < 2 then Err(EmptyAverage) else Ok(Scale(Mean(SquaredDiffs(x)), penalty))
  }

  /** `loss *= penalty`. */
  function Scale(loss: real, penalty: real): real
  {
    loss * penalty
  }

  /** `level_variability_loss`: accumulates the squared differences in a loop,
      then averages them and applies the penalty. */
  method LevelVariabilityLoss(x: seq<real>, penalty: real) returns (r: Result<real>)
    ensures r == LevelVariability(x, penalty)
    ensures r.Err? <==> |x| < 2
  {
    var terms: seq<real> := [];
    var i := 1;
    while i < |x|
      invariant 1 <= i <= if |x| == 0 then 1 else |x|
      invariant |terms| == i - 1
      invariant forall k :: 0 <= k < i - 1 ==> terms[k] == Square(x[k + 1] - x[k])
    {
      var diff := x[i] - x[i - 1];
      terms := terms + [Square(diff)];
      i := i + 1;
    }
    if |terms| == 0 {
      assert |x| < 2;
      return Err(EmptyAverage);
    }
    assert forall k :: 0 <= k < |terms| ==> terms[k] == SquaredDiffs(x)[k];
    assert |x| >= 2;
    assert terms == SquaredDiffs(x);
    var average := Mean(terms);
    assert average == Mean(SquaredDiffs(x));
    r := Ok(Scale(average, penalty));
  }

  /** With a non-negative penalty the level-variability term is non-negative. */
  lemma LevelVariabilityNonNegative(x: seq<real>, penalty: real)
    requires |x| >= 2 && penalty >= 0.0
    ensures LevelVariability(x, penalty).Ok?
    ensures LevelVariability(x, penalty).value >= 0.0
  {
    var d := SquaredDiffs(x);
    forall k | 0 <= k < |d| ensures d[k] >= 0.0 {
      assert d[k] == Square(x[k + 1] - x[k]);
      SquareSign(x[k + 1] - x[k]);
    }
    MeanNonNegative(d);
    NonNegativeProduct(Mean(d), penalty);
    assert Scale(Mean(d), penalty) == Mean(d) * penalty;
  }

  /** With a positive penalty the level-variability term is zero exactly when
      no step of the trajectory changes its value. */
  lemma LevelVariabilityZeroIffFlat(x: seq<real>, penalty: real)
    requires |x| >= 2 && penalty > 0.0
    ensures LevelVariability(x, penalty).Ok?
    ensures LevelVariability(x, penalty).value == 0.0 <==> forall i :: 0 < i < |x| ==> x[i] == x[i - 1]
  {
    var d := SquaredDiffs(x);
    SquaredDiffsNonNegative(x);
    ScaledMeanZero(d, penalty);
    if forall i :: 0 < i < |x| ==> x[i] == x[i - 1] {
      forall k | 0 <= k < |d| ensures d[k] == 0.0 {
        assert x[k + 1] == x[k];
      }
      SumOfZeros(d);
    }
    if Sum(d) == 0.0 {
      ZeroSumOfNonNegative(d);
      forall i | 0 < i < |x| ensures x[i] == x[i - 1] {
        assert d[i - 1] == Square(x[i] - x[i - 1]) == 0.0;
        SquareSign(x[i] - x[i - 1]);
      }
    }
  }

  /** Every squared difference is non-negative. */
  lemma SquaredDiffsNonNegative(x: seq<real>)
    ensures forall k :: 0 <= k < |SquaredDiffs(x)| ==> SquaredDiffs(x)[k] >= 0.0
  {
    var d := SquaredDiffs(x);
    forall k | 0 <= k < |d| ensures d[k] >= 0.0 {
      assert d[k] == Square(x[k + 1] - x[k]);
      SquareSign(x[k + 1] - x[k]);
    }
  }

  /** With a positive penalty the scaled average vanishes exactly when the sum does. */
  lemma ScaledMeanZero(d: seq<real>, penalty: real)
    requires |d| > 0 && penalty > 0.0
    ensures Scale(Mean(d), penalty) == 0.0 <==> Sum(d) == 0.0
  {
    var n := |d| as real;
    assert Mean(d) * n == Sum(d);
    if Mean(d) != 0.0 {
      assert Mean(d) * penalty != 0.0;
    }
  }

  lemma SquareSign(a: real)
    ensures Square(a) >= 0.0
    ensures a != 0.0 ==> Square(a) > 0.0
  {
    if a > 0.0 {
      ProductOfPositives(a, a, Square(a));
    } else if a < 0.0 {
      assert Square(a) == (-a) * (-a);
      ProductOfPositives(-a, -a, Square(a));
    }
  }

  lemma ProductOfPositives(a: real, b: real, p: real)
    requires p == a * b && a > 0.0 && b > 0.0
    ensures p > 0.0
  {
  }
}
