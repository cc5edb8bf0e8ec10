/**
 * What `ForecastEngine.predict_keyword_trends` computes from a keyword's ranking
 * history: nothing below five rankings; otherwise an ordinary least-squares line
 * through (timestamp, position), evaluated `days_ahead` days after now, with the
 * predicted position floored at 1 and the R^2 confidence clamped to [0, 1].
 */
module Forecasting {
  import opened Common
  import opened Models

  /** Fewer rankings than this give no forecast. */
  const MinHistory: nat := 5

  /** The position assumed for a ranking whose position is missing or 0. */
  const AbsentPosition: int := 100

  const SecondsPerDay: real := 86400.0

  /** The default `days_ahead`. */
  const DefaultDaysAhead: int := 30

  /** The dictionary returned on success; `forecastDate` in seconds since the epoch. */
  datatype ForecastData = ForecastData(predictedPosition: int, confidenceScore: real, forecastDate: real)

  /** A fitted line and its coefficient of determination. */
  datatype LinearModel = LinearModel(slope: real, intercept: real, r2: real)

  /** `r.position if r.position else 100`: `None` and 0 are both falsy. */
  function EffectivePosition(position: Option<int>): int
  {
    if position.None? || position.value == 0 then AbsentPosition else position.value
  }

  function Timestamps(history: seq<Ranking>): (xs: seq<real>)
    ensures |xs| == |history|
    ensures forall i :: 0 <= i < |history| ==> xs[i] == history[i].timestamp
  {
    seq(|history|, i requires 0 <= i < |history| => history[i].timestamp)
  }

  function Positions(history: seq<Ranking>): (ys: seq<real>)
    ensures |ys| == |history|
    ensures forall i :: 0 <= i < |history| ==> ys[i] == EffectivePosition(history[i].position) as real
  {
    seq(|history|, i requires 0 <= i < |history| => EffectivePosition(history[i].position) as real)
  }

  function Sum(xs: seq<real>): real
  {
    if xs == [] then 0.0 else Sum(xs[..|xs| - 1]) + xs[|xs| - 1]
  }

  function Mean(xs: seq<real>): real
    requires |xs| > 0
  {
    Sum(xs) / (|xs| as real)
  }

  /** The sum of `(x - mx) * (y - my)` over the pairs. */
  function SumProducts(xs: seq<real>, ys: seq<real>, mx: real, my: real): real
    requires |xs| == |ys|
  {
    if xs == [] then 0.0
    else
      var n := |xs| - 1;
      SumProducts(xs[..n], ys[..n], mx, my) + Times(xs[n] - mx, ys[n] - my)
  }

  /** The sum of squared residuals of the line `intercept + slope * x`. */
  function SumSquaredResiduals(xs: seq<real>, ys: seq<real>, slope: real, intercept: real): real
    requires |xs| == |ys|
  {
    if xs == [] then 0.0
    else
      var n := |xs| - 1;
      var e := ys[n] - (intercept + slope * xs[n]);
      SumSquaredResiduals(xs[..n], ys[..n], slope, intercept) + Times(e, e)
  }

  /** The least-squares slope; 0 when all x are equal. */
  function Slope(xs: seq<real>, ys: seq<real>): real
    requires |xs| == |ys| > 0
  {
    var mx := Mean(xs);
    var sxx := SumProducts(xs, xs, mx, mx);
    if sxx == 0.0 then 0.0 else SumProducts(xs, ys, mx, Mean(ys)) / sxx
  }

  /** The least-squares intercept: the line passes through the means. */
  function Intercept(xs: seq<real>, ys: seq<real>): real
    requires |xs| == |ys| > 0
  {
    Mean(ys) - Slope(xs, ys) * Mean(xs)
  }

  /** `score(X, y)`: 1 - SSres / SStot; for constant y, 1 on a perfect fit and 0 otherwise. */
  function RSquared(xs: seq<real>, ys: seq<real>): real
    requires |xs| == |ys| > 0
  {
    var ssRes := SumSquaredResiduals(xs, ys, Slope(xs, ys), Intercept(xs, ys));
    var ssTot := SumProducts(ys, ys, Mean(ys), Mean(ys));
    if ssTot == 0.0 then (if ssRes == 0.0 then 1.0 else 0.0) else 1.0 - ssRes / ssTot
  }

  /** `LinearRegression().fit(X, y)` with its `score(X, y)`, in closed form. */
  function FitLine(xs: seq<real>, ys: seq<real>): LinearModel
    requires |xs| == |ys| > 0
  {
    LinearModel(Slope(xs, ys), Intercept(xs, ys), RSquared(xs, ys))
  }

  /** Python's `int(x)`: truncation toward zero. */
  function Trunc(x: real): int
  {
    if x >= 0.0 then x.Floor else -((-x).Floor)
  }

  function MaxInt(a: int, b: int): int
  {
    if a >= b then a else b
  }

  /** The forecast for `history`, or `None` when there are fewer than five rankings. */
  function Predict(history: seq<Ranking>, now: real, daysAhead: int): (r: Option<ForecastData>)
    ensures r.None? <==> |history| < MinHistory
    ensures r.Some? ==> r.value.predictedPosition >= 1
    ensures r.Some? ==> 0.0 <= r.value.confidenceScore <= 1.0
    ensures r.Some? ==> r.value.forecastDate == now + daysAhead as real * SecondsPerDay
  {
    if |history| < MinHistory then None
    else Some(Extrapolate(FitLine(Timestamps(history), Positions(history)), now + daysAhead as real * SecondsPerDay))
  }

  /** `model.predict` at `future`, floored at 1 by `max(1, int(...))`, with the R^2 clamped to [0, 1]. */
  function Extrapolate(model: LinearModel, future: real): (f: ForecastData)
    ensures f.predictedPosition >= 1 && 0.0 <= f.confidenceScore <= 1.0 && f.forecastDate == future
  {
    ForecastData(MaxInt(1, Trunc(model.intercept + model.slope * future)), MaxReal(0.0, MinReal(1.0, model.r2)), future)
  }

  /** `max(1, int(x))` equals `max(1, floor(x))`: truncation and flooring differ only below 0. */
  lemma TruncAgreesWithFloorAboveOne(x: real)
    ensures MaxInt(1, Trunc(x)) == MaxInt(1, x.Floor)
  {
    if x < 0.0 {
      assert (-x).Floor >= 0;
      assert x.Floor < 0;
    }
  }

  lemma {:induction false} SumOfConstant(ys: seq<real>, c: real)
    requires forall i :: 0 <= i < |ys| ==> ys[i] == c
    ensures Sum(ys) == |ys| as real * c
  {
    if ys != [] {
      SumOfConstant(ys[..|ys| - 1], c);
    }
  }

  lemma {:induction false} SumProductsZeroWhenFlat(xs: seq<real>, ys: seq<real>, mx: real, my: real)
    requires |xs| == |ys|
    requires forall i :: 0 <= i < |ys| ==> ys[i] == my
    ensures SumProducts(xs, ys, mx, my) == 0.0
  {
    if xs != [] {
      var n := |xs| - 1;
      SumProductsZeroWhenFlat(xs[..n], ys[..n], mx, my);
    }
  }

  lemma {:induction false} ResidualsZeroOnLine(xs: seq<real>, ys: seq<real>, slope: real, intercept: real)
    requires |xs| == |ys|
    requires forall i :: 0 <= i < |ys| ==> ys[i] == intercept + slope * xs[i]
    ensures SumSquaredResiduals(xs, ys, slope, intercept) == 0.0
  {
    if xs != [] {
      var n := |xs| - 1;
      ResidualsZeroOnLine(xs[..n], ys[..n], slope, intercept);
    }
  }

  /** Sum of `a + b * x` is `n * a + b * Sum(xs)`. */
  lemma {:induction false} SumOfAffine(xs: seq<real>, ys: seq<real>, a: real, b: real)
    requires |xs| == |ys|
    requires forall i :: 0 <= i < |ys| ==> ys[i] == a + b * xs[i]
    ensures Sum(ys) == |ys| as real * a + b * Sum(xs)
  {
    if xs != [] {
      var n := |xs| - 1;
      SumOfAffine(xs[..n], ys[..n], a, b);
    }
  }

  /** On points of a line with slope `b`, the cross sum is `b` times the spread of x. */
  lemma {:induction false} SumProductsOfAffine(xs: seq<real>, ys: seq<real>, a: real, b: real, mx: real, my: real)
    requires |xs| == |ys|
    requires forall i :: 0 <= i < |ys| ==> ys[i] == a + b * xs[i]
    requires my == a + b * mx
    ensures SumProducts(xs, ys, mx, my) == b * SumProducts(xs, xs, mx, mx)
  {
    if xs != [] {
      var n := |xs| - 1;
      SumProductsOfAffine(xs[..n], ys[..n], a, b, mx, my);
      var d := xs[n] - mx;
      AffineTerm(a, b, xs[n], ys[n], mx, my);
      Distribute(b, SumProducts(xs[..n], xs[..n], mx, mx), Times(d, d));
    }
  }

  /** The spread of x is never negative. */
  lemma {:induction false} SpreadNonNegative(xs: seq<real>, m: real)
    ensures SumProducts(xs, xs, m, m) >= 0.0
  {
    if xs != [] {
      var n := |xs| - 1;
      SpreadNonNegative(xs[..n], m);
      SquareNonNegative(xs[n] - m);
    }
  }

  /** The spread of x is positive as soon as one x differs from the centre. */
  lemma {:induction false} SpreadPositive(xs: seq<real>, m: real, i: nat)
    requires i < |xs| && xs[i] != m
    ensures SumProducts(xs, xs, m, m) > 0.0
  {
    var n := |xs| - 1;
    if i == n {
      SpreadNonNegative(xs[..n], m);
      SquarePositive(xs[n] - m);
    } else {
      assert xs[..n][i] == xs[i];
      SpreadPositive(xs[..n], m, i);
      SquareNonNegative(xs[n] - m);
    }
  }

  lemma ProductPositive(a: real, b: real)
    requires a > 0.0 && b > 0.0
    ensures Times(a, b) > 0.0
  {
  }

  lemma SquarePositive(d: real)
    requires d != 0.0
    ensures Times(d, d) > 0.0
  {
    if d < 0.0 {
      ProductPositive(-d, -d);
      assert Times(d, d) == Times(-d, -d);
    } else {
      ProductPositive(d, d);
    }
  }

  lemma SquareNonNegative(d: real)
    ensures Times(d, d) >= 0.0
  {
    if d != 0.0 {
      SquarePositive(d);
    }
  }

  lemma TimesScaled(d: real, b: real)
    ensures Times(d, b * d) == b * Times(d, d)
  {
  }

  /** For a point and a centre on a line with slope `b`, the cross term is `b` times the squared term. */
  lemma AffineTerm(a: real, b: real, x: real, y: real, mx: real, my: real)
    requires y == a + b * x && my == a + b * mx
    ensures Times(x - mx, y - my) == b * Times(x - mx, x - mx)
  {
    assert y - my == b * (x - mx);
    TimesScaled(x - mx, b);
  }

  lemma Distribute(b: real, p: real, q: real)
    ensures b * p + b * q == b * (p + q)
  {
  }

  /** `(b * s) / s == b` for non-zero `s`. */
  lemma CancelFactor(b: real, s: real)
    requires s != 0.0
    ensures (b * s) / s == b
  {
  }

  /** A flat series is fitted by the flat line through it, with R^2 = 1. */
  lemma FitLineOnConstant(xs: seq<real>, ys: seq<real>, c: real)
    requires |xs| == |ys| > 0
    requires forall i :: 0 <= i < |ys| ==> ys[i] == c
    ensures FitLine(xs, ys) == LinearModel(0.0, c, 1.0)
  {
    SumOfConstant(ys, c);
    var mx := Mean(xs);
    assert Mean(ys) == c;
    SumProductsZeroWhenFlat(xs, ys, mx, c);
    assert Slope(xs, ys) == 0.0;
    assert Intercept(xs, ys) == c;
    SumProductsZeroWhenFlat(ys, ys, c, c);
    ResidualsZeroOnLine(xs, ys, 0.0, c);
  }

  /** The mean of `a + b * x` is `a + b` times the mean of x. */
  lemma MeanOfAffine(xs: seq<real>, ys: seq<real>, a: real, b: real)
    requires |xs| == |ys| > 0
    requires forall k :: 0 <= k < |ys| ==> ys[k] == a + b * xs[k]
    ensures Mean(ys) == a + b * Mean(xs)
  {
    var n := |xs| as real;
    var mx := Mean(xs);
    SumOfAffine(xs, ys, a, b);
    assert Sum(xs) == n * mx;
    assert b * (n * mx) == n * (b * mx);
    assert Sum(ys) == n * (a + b * mx);
  }

  /** Points on a line of slope `b`, with at least two distinct x, have least-squares slope `b`. */
  lemma SlopeOnLine(xs: seq<real>, ys: seq<real>, a: real, b: real, i: nat, j: nat)
    requires |xs| == |ys| > 0
    requires forall k :: 0 <= k < |ys| ==> ys[k] == a + b * xs[k]
    requires i < |xs| && j < |xs| && xs[i] != xs[j]
    ensures Slope(xs, ys) == b
  {
    var mx, my := Mean(xs), Mean(ys);
    MeanOfAffine(xs, ys, a, b);
    var sxx := SumProducts(xs, xs, mx, mx);
    if xs[i] != mx {
      SpreadPositive(xs, mx, i);
    } else {
      SpreadPositive(xs, mx, j);
    }
    SumProductsOfAffine(xs, ys, a, b, mx, my);
    CancelFactor(b, sxx);
  }

  /**
   * Points lying exactly on `a + b * x`, with at least two distinct x, are fitted by that
   * very line, with R^2 = 1.
   */
  lemma FitLineOnExactLine(xs: seq<real>, ys: seq<real>, a: real, b: real, i: nat, j: nat)
    requires |xs| == |ys| > 0
    requires forall k :: 0 <= k < |ys| ==> ys[k] == a + b * xs[k]
    requires i < |xs| && j < |xs| && xs[i] != xs[j]
    ensures FitLine(xs, ys) == LinearModel(b, a, 1.0)
  {
    SlopeOnLine(xs, ys, a, b, i, j);
    MeanOfAffine(xs, ys, a, b);
    assert Intercept(xs, ys) == a;
    ResidualsZeroOnLine(xs, ys, b, a);
  }

  /** A keyword seen at the same effective position `c` every time is forecast at `max(1, c)`, with confidence 1. */
  lemma ConstantHistoryForecast(history: seq<Ranking>, now: real, daysAhead: int, c: int)
    requires |history| >= MinHistory
    requires forall i :: 0 <= i < |history| ==> EffectivePosition(history[i].position) == c
    ensures Predict(history, now, daysAhead) ==
      Some(ForecastData(MaxInt(1, c), 1.0, now + daysAhead as real * SecondsPerDay))
  {
    FitLineOnConstant(Timestamps(history), Positions(history), c as real);
    assert Trunc(c as real) == c;
  }

  /** Five or more rankings that were never found (or at position 0) forecast position 100 with confidence 1. */
  lemma NeverFoundForecastsHundred(history: seq<Ranking>, now: real, daysAhead: int)
    requires |history| >= MinHistory
    requires forall i :: 0 <= i < |history| ==> history[i].position.None? || history[i].position == Some(0)
    ensures Predict(history, now, daysAhead) ==
      Some(ForecastData(AbsentPosition, 1.0, now + daysAhead as real * SecondsPerDay))
  {
    ConstantHistoryForecast(history, now, daysAhead, AbsentPosition);
  }

  /**
   * When the effective positions lie exactly on `a + b * t` over at least two distinct
   * timestamps, the forecast is that line extended to the forecast date, with confidence 1.
   */
  lemma LinearHistoryForecast(history: seq<Ranking>, now: real, daysAhead: int, a: real, b: real, i: nat, j: nat)
    requires |history| >= MinHistory
    requires forall k :: 0 <= k < |history| ==>
      EffectivePosition(history[k].position) as real == a + b * history[k].timestamp
    requires i < |history| && j < |history| && history[i].timestamp != history[j].timestamp
    ensures Predict(history, now, daysAhead) ==
      Some(Extrapolate(LinearModel(b, a, 1.0), now + daysAhead as real * SecondsPerDay))
  {
    var xs, ys := Timestamps(history), Positions(history);
    assert forall k :: 0 <= k < |ys| ==> ys[k] == a + b * xs[k] by {
      forall k | 0 <= k < |ys|
        ensures ys[k] == a + b * xs[k]
      {
        assert ys[k] == EffectivePosition(history[k].position) as real;
        assert xs[k] == history[k].timestamp;
      }
    }
    FitLineOnExactLine(xs, ys, a, b, i, j);
  }

  /** A perfect fit `a + b * t` forecasts `max(1, int(a + b * t))` with confidence 1. */
  lemma ExtrapolatePerfectFit(a: real, b: real, future: real)
    ensures Extrapolate(LinearModel(b, a, 1.0), future) == ForecastData(MaxInt(1, Trunc(a + b * future)), 1.0, future)
  {
    assert MaxReal(0.0, MinReal(1.0, 1.0)) == 1.0;
  }
}
