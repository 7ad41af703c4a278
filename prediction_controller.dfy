/**
  The cost forecast: a least-squares slope over the daily costs (x = 0, 1,
  ..., n - 1), thirty daily predictions `max(0, mean + slope * (n + i))` on
  the days after the last one, their sum, a trend from the slope's sign and
  an R-squared confidence. A `NaN` of the source (the slope of a single day,
  an R-squared over constant costs) is `None`.
*/
module PredictionController {
  import opened Wrappers
  import opened Models
  import opened Usage

  /** `reduce((a, b) => a + b, 0)`. */
  function Sum(ys: seq<real>): real {
    if ys == [] then 0.0 else Sum(ys[..|ys| - 1]) + ys[|ys| - 1]
  }

  /** The sum of the x values 0 .. n - 1. */
  function SumX(n: nat): real {
    if n == 0 then 0.0 else SumX(n - 1) + (n - 1) as real
  }

  /** The sum of their squares. */
  function SumXX(n: nat): real {
    if n == 0 then 0.0 else SumXX(n - 1) + (n - 1) as real * (n - 1) as real
  }

  /** The sum of x times y. */
  function SumXY(ys: seq<real>): real {
    if ys == [] then 0.0 else SumXY(ys[..|ys| - 1]) + (|ys| - 1) as real * ys[|ys| - 1]
  }

  lemma {:induction false} SumXClosed(n: nat)
    ensures 2.0 * SumX(n) == n as real * (n as real - 1.0)
  {
    if n > 0 {
      SumXClosed(n - 1);
    }
  }

  lemma {:induction false} SumXXNonNegative(n: nat)
    ensures SumXX(n) >= 0.0
  {
    if n > 0 {
      SumXXNonNegative(n - 1);
      SquareNonNegative((n - 1) as real);
    }
  }

  /** `n * sumXX - sumX * sumX`. */
  function SlopeDenominator(n: nat): real {
    n as real * SumXX(n) - SumX(n) * SumX(n)
  }

  lemma DenominatorAlgebra(n: real, sx: real, sxx: real)
    requires 2.0 * sx == n * (n - 1.0)
    ensures (n + 1.0) * (sxx + n * n) - (sx + n) * (sx + n) == n * sxx - sx * sx + sxx + n * n
  {
    assert (n + 1.0) * (sxx + n * n) == n * sxx + sxx + n * n * n + n * n;
    assert (sx + n) * (sx + n) == sx * sx + 2.0 * n * sx + n * n;
    assert 2.0 * n * sx == n * (n * (n - 1.0));
    assert n * (n * (n - 1.0)) == n * n * n - n * n;
  }

  /** One more day adds SumXX(n) + n² to the denominator. */
  lemma DenominatorStep(n: nat)
    ensures SlopeDenominator(n + 1) == SlopeDenominator(n) + SumXX(n) + n as real * n as real
  {
    SumXClosed(n);
    var r := n as real;
    assert (n + 1) as real == r + 1.0;
    assert SumX(n + 1) == SumX(n) + r && SumXX(n + 1) == SumXX(n) + r * r;
    DenominatorAlgebra(r, SumX(n), SumXX(n));
  }

  /** The denominator is zero for at most one day and positive otherwise. */
  lemma {:induction false} DenominatorPositive(n: nat)
    ensures SlopeDenominator(n) == 0.0 <==> n <= 1
    ensures SlopeDenominator(n) >= 0.0
  {
    if n >= 1 {
      DenominatorPositive(n - 1);
      DenominatorStep(n - 1);
      SumXXNonNegative(n - 1);
      var m := (n - 1) as real;
      if n >= 2 {
        assert m * m > 0.0 by {
          assert m >= 1.0;
          assert m * m >= m;
        }
      } else {
        assert m == 0.0;
      }
    }
  }

  /** The five sums `calculateSlope` reduces the points to. */
  datatype Sums = Sums(n: real, sumX: real, sumXX: real, sumY: real, sumXY: real)

  function SumsOf(ys: seq<real>): Sums {
    Sums(|ys| as real, SumX(|ys|), SumXX(|ys|), Sum(ys), SumXY(ys))
  }

  /** `n * sumXY - sumX * sumY`. */
  function Numerator(s: Sums): real {
    s.n * s.sumXY - s.sumX * s.sumY
  }

  /** `n * sumXX - sumX * sumX`. */
  function Denominator(s: Sums): real {
    s.n * s.sumXX - s.sumX * s.sumX
  }

  lemma DenominatorOfSums(ys: seq<real>)
    ensures Denominator(SumsOf(ys)) == SlopeDenominator(|ys|)
  {
  }

  /** `calculateSlope`: the least-squares slope; `NaN` (None) when the denominator is 0. */
  function CalculateSlope(ys: seq<real>): (r: Option<real>)
    ensures r.None? <==> |ys| <= 1
  {
    DenominatorPositive(|ys|);
    DenominatorOfSums(ys);
    var s := SumsOf(ys);
    if Denominator(s) == 0.0 then None else Some(Numerator(s) / Denominator(s))
  }

  /** Costs on a line a + b·x. */
  predicate OnLine(ys: seq<real>, a: real, b: real) {
    forall i :: 0 <= i < |ys| ==> ys[i] == a + b * i as real
  }

  /** The sums of points on the line a + b·x. */
  predicate LineFit(s: Sums, a: real, b: real) {
    s.sumY == s.n * a + b * s.sumX && s.sumXY == a * s.sumX + b * s.sumXX
  }

  /** Adding the point (n, y) to the sums `p` of n points gives `s`. */
  predicate NextSums(p: Sums, y: real, s: Sums) {
    && s.n == p.n + 1.0 && s.sumX == p.sumX + p.n && s.sumXX == p.sumXX + p.n * p.n
    && s.sumY == p.sumY + y && s.sumXY == p.sumXY + p.n * y
  }

  lemma SumsStep(ys: seq<real>)
    requires ys != []
    ensures NextSums(SumsOf(ys[..|ys| - 1]), ys[|ys| - 1], SumsOf(ys))
  {
    var prefix := ys[..|ys| - 1];
    assert |prefix| == |ys| - 1;
    assert (|ys| - 1) as real == |prefix| as real;
  }

  lemma LineStep(p: Sums, y: real, s: Sums, a: real, b: real)
    requires LineFit(p, a, b) && NextSums(p, y, s) && y == a + b * p.n
    ensures LineFit(s, a, b)
  {
    LineAlgebra(p.n, p.sumX, p.sumXX, p.sumY, p.sumXY, y, a, b);
  }

  lemma LineAlgebra(n: real, sx: real, sxx: real, sy: real, sxy: real, y: real, a: real, b: real)
    requires sy == n * a + b * sx && sxy == a * sx + b * sxx && y == a + b * n
    ensures sy + y == (n + 1.0) * a + b * (sx + n)
    ensures sxy + n * y == a * (sx + n) + b * (sxx + n * n)
  {
    assert n * y == a * n + b * (n * n);
  }

  lemma {:induction false} LineSums(ys: seq<real>, a: real, b: real)
    requires OnLine(ys, a, b)
    ensures LineFit(SumsOf(ys), a, b)
  {
    if ys != [] {
      var m := |ys| - 1;
      var prefix := ys[..m];
      assert OnLine(prefix, a, b) by {
        forall i | 0 <= i < |prefix|
          ensures prefix[i] == a + b * i as real
        {
          assert prefix[i] == ys[i];
        }
      }
      LineSums(prefix, a, b);
      SumsStep(ys);
      assert |prefix| == m;
      LineStep(SumsOf(prefix), ys[m], SumsOf(ys), a, b);
    }
  }

  lemma SlopeAlgebra(s: Sums, a: real, b: real)
    requires LineFit(s, a, b)
    ensures Numerator(s) == b * Denominator(s)
  {
    assert s.n * s.sumXY == s.n * (a * s.sumX) + s.n * (b * s.sumXX);
    assert s.sumX * s.sumY == s.sumX * (s.n * a) + s.sumX * (b * s.sumX);
  }

  lemma ExactQuotient(num: real, d: real, b: real)
    requires d != 0.0 && num == b * d
    ensures num / d == b
  {
  }

  /** On costs that lie on a line, the slope is the line's slope. */
  lemma SlopeOfLine(ys: seq<real>, a: real, b: real)
    requires |ys| >= 2 && OnLine(ys, a, b)
    ensures CalculateSlope(ys) == Some(b)
  {
    DenominatorPositive(|ys|);
    DenominatorOfSums(ys);
    LineSums(ys, a, b);
    SlopeAlgebra(SumsOf(ys), a, b);
    ExactQuotient(Numerator(SumsOf(ys)), Denominator(SumsOf(ys)), b);
  }

  // ----- calculatePrediction ----------------------------------------------

  datatype Trend = Increasing | Decreasing | Stable

  /** `slope > 0 ? "increasing" : slope < 0 ? "decreasing" : "stable"`; `NaN` fails both tests. */
  function TrendOf(slope: Option<real>): (t: Trend)
    ensures t == Increasing <==> slope.Some? && slope.value > 0.0
    ensures t == Decreasing <==> slope.Some? && slope.value < 0.0
    ensures t == Stable <==> slope.None? || slope.value == 0.0
  {
    if slope.Some? && slope.value > 0.0 then Increasing
    else if slope.Some? && slope.value < 0.0 then Decreasing
    else Stable
  }

  function Max0(x: real): real {
    if x > 0.0 then x else 0.0
  }

  /** `Math.max(0, average + slope * k)`; `NaN` (None) with a `NaN` slope. */
  function PredictedCost(mean: real, slope: Option<real>, k: int): (r: Option<real>)
    ensures r.Some? <==> slope.Some?
    ensures r.Some? ==> r.value >= 0.0 && r.value >= mean + slope.value * k as real
    ensures r.Some? && mean + slope.value * k as real >= 0.0 ==> r.value == mean + slope.value * k as real
  {
    if slope.None? then None else Some(Max0(mean + slope.value * k as real))
  }

  datatype DailyPrediction = DailyPrediction(day: int, predictedCost: Option<real>)

  /** The number of days forecast. */
  const Horizon: nat := 30

  /** `reduce((sum, day) => sum + day.predicted_cost, 0)`; one `NaN` makes the total `NaN`. */
  function SumPredictions(ps: seq<DailyPrediction>): (r: Option<real>)
    ensures r.Some? <==> forall i :: 0 <= i < |ps| ==> ps[i].predictedCost.Some?
  {
    if ps == [] then Some(0.0)
    else
      var last := ps[|ps| - 1];
      match SumPredictions(ps[..|ps| - 1])
      case None => None
      case Some(s) => if last.predictedCost.Some? then Some(s + last.predictedCost.value) else None
  }

  /** A total of non-negative predictions is non-negative. */
  lemma {:induction false} SumPredictionsNonNegative(ps: seq<DailyPrediction>)
    requires forall i :: 0 <= i < |ps| ==> ps[i].predictedCost.Some? ==> ps[i].predictedCost.value >= 0.0
    ensures SumPredictions(ps).Some? ==> SumPredictions(ps).value >= 0.0
  {
    if ps != [] {
      SumPredictionsNonNegative(ps[..|ps| - 1]);
    }
  }

  function Costs(history: seq<DailyCost>): (ys: seq<real>)
    ensures |ys| == |history| && forall i :: 0 <= i < |ys| ==> ys[i] == history[i].cost
  {
    seq(|history|, i requires 0 <= i < |history| => history[i].cost)
  }

  function Mean(ys: seq<real>): real
    requires ys != []
  {
    Sum(ys) / |ys| as real
  }

  /** `calculateRSquared`: 1 - ssRes / ssTot; `NaN` (None) without a slope or when every cost is the mean. */
  function SquaredResiduals(ys: seq<real>, slope: real, mean: real): real {
    if ys == [] then 0.0
    else
      var e := ys[|ys| - 1] - (mean + slope * (|ys| - 1) as real);
      SquaredResiduals(ys[..|ys| - 1], slope, mean) + e * e
  }

  function SquaredDeviations(ys: seq<real>, mean: real): real {
    if ys == [] then 0.0
    else
      var e := ys[|ys| - 1] - mean;
      SquaredDeviations(ys[..|ys| - 1], mean) + e * e
  }

  lemma SquareNonNegative(e: real)
    ensures e * e >= 0.0
  {
    if e < 0.0 {
      assert e * e == (-e) * (-e);
    }
  }

  lemma {:induction false} SquaredResidualsNonNegative(ys: seq<real>, slope: real, mean: real)
    ensures SquaredResiduals(ys, slope, mean) >= 0.0
  {
    if ys != [] {
      SquaredResidualsNonNegative(ys[..|ys| - 1], slope, mean);
      var e := ys[|ys| - 1] - (mean + slope * (|ys| - 1) as real);
      SquareNonNegative(e);
      assert SquaredResiduals(ys, slope, mean) == SquaredResiduals(ys[..|ys| - 1], slope, mean) + e * e;
    }
  }

  function RSquared(ys: seq<real>, slope: Option<real>, mean: real): (r: Option<real>)
    ensures r.Some? ==> r.value <= 1.0
    ensures r.Some? <==> slope.Some? && SquaredDeviations(ys, mean) != 0.0
  {
    if slope.None? then None
    else
      var total := SquaredDeviations(ys, mean);
      if total == 0.0 then None
      else
        SquaredResidualsNonNegative(ys, slope.value, mean);
        SquaredDeviationsNonNegative(ys, mean);
        Some(1.0 - SquaredResiduals(ys, slope.value, mean) / total)
  }

  lemma {:induction false} SquaredDeviationsNonNegative(ys: seq<real>, mean: real)
    ensures SquaredDeviations(ys, mean) >= 0.0
  {
    if ys != [] {
      SquaredDeviationsNonNegative(ys[..|ys| - 1], mean);
      SquareNonNegative(ys[|ys| - 1] - mean);
    }
  }

  // ----- the fitted line's intercept ---------------------------------------

  /**
    As written, the predictions and the residuals use `average + slope * x`,
    a line through (0, mean) rather than through the mean point. For daily
    costs 0 and 1 the third day is predicted at 2.5 and the exact fit
    scores 0.
  */
  lemma MeanOffsetAsWritten()
    ensures PredictedCost(Mean([0.0, 1.0]), CalculateSlope([0.0, 1.0]), 2) == Some(2.5)
    ensures RSquared([0.0, 1.0], CalculateSlope([0.0, 1.0]), Mean([0.0, 1.0])) == Some(0.0)
  {
    var ys := [0.0, 1.0];
    SlopeOfLine(ys, 0.0, 1.0);
    assert ys[..1] == [0.0] && [0.0][..0] == [];
    assert Mean(ys) == 0.5;
    assert SquaredResiduals(ys, 1.0, 0.5) == 0.5;
    assert SquaredDeviations(ys, 0.5) == 0.5;
  }

  /** The least-squares intercept: the line through the mean point (mean x = (n - 1) / 2). */
  function Intercept(ys: seq<real>, slope: real): real
    requires ys != []
  {
    Mean(ys) - slope * ((|ys| - 1) as real / 2.0)
  }

  /** The prediction for day k on the fitted line, floored at 0. */
  function FittedCost(ys: seq<real>, slope: Option<real>, k: int): (r: Option<real>)
    requires ys != []
    ensures r.Some? <==> slope.Some?
    ensures r.Some? ==> r.value >= 0.0 && r.value >= Intercept(ys, slope.value) + slope.value * k as real
  {
    if slope.None? then None else PredictedCost(Intercept(ys, slope.value), slope, k)
  }

  /** R-squared of the fitted line: 1 - ssRes / ssTot with the residuals taken from the intercept. */
  function FittedRSquared(ys: seq<real>, slope: Option<real>): (r: Option<real>)
    requires ys != []
    ensures r.Some? ==> r.value <= 1.0
    ensures r.Some? <==> slope.Some? && SquaredDeviations(ys, Mean(ys)) != 0.0
  {
    if slope.None? then None
    else
      var total := SquaredDeviations(ys, Mean(ys));
      if total == 0.0 then None
      else
        SquaredResidualsNonNegative(ys, slope.value, Intercept(ys, slope.value));
        SquaredDeviationsNonNegative(ys, Mean(ys));
        Some(1.0 - SquaredResiduals(ys, slope.value, Intercept(ys, slope.value)) / total)
  }

  lemma MeanAlgebra(n: real, sx: real, sy: real, a: real, b: real)
    requires n > 0.0 && sy == n * a + b * sx && 2.0 * sx == n * (n - 1.0)
    ensures sy / n == a + b * ((n - 1.0) / 2.0)
  {
    assert b * sx == n * (b * ((n - 1.0) / 2.0));
    assert sy == (a + b * ((n - 1.0) / 2.0)) * n;
    ExactQuotient(sy, n, a + b * ((n - 1.0) / 2.0));
  }

  /** On costs that lie on a line a + b·x, the mean is the line's value halfway along. */
  lemma MeanOfLine(ys: seq<real>, a: real, b: real)
    requires ys != [] && OnLine(ys, a, b)
    ensures Mean(ys) == a + b * ((|ys| - 1) as real / 2.0)
  {
    LineSums(ys, a, b);
    SumXClosed(|ys|);
    assert (|ys| - 1) as real == |ys| as real - 1.0;
    MeanAlgebra(|ys| as real, SumX(|ys|), Sum(ys), a, b);
  }

  /** On costs that lie on a line a + b·x, the intercept is a. */
  lemma InterceptOfLine(ys: seq<real>, a: real, b: real)
    requires ys != [] && OnLine(ys, a, b)
    ensures Intercept(ys, b) == a
  {
    MeanOfLine(ys, a, b);
  }

  /** Costs on a line leave no residual from that line. */
  lemma {:induction false} ResidualsOnLine(ys: seq<real>, a: real, b: real)
    requires OnLine(ys, a, b)
    ensures SquaredResiduals(ys, b, a) == 0.0
  {
    if ys != [] {
      var prefix := ys[..|ys| - 1];
      assert OnLine(prefix, a, b) by {
        forall i | 0 <= i < |prefix|
          ensures prefix[i] == a + b * i as real
        {
          assert prefix[i] == ys[i];
        }
      }
      ResidualsOnLine(prefix, a, b);
    }
  }

  lemma HalfwayGap(m: real, a: real, b: real)
    requires m >= 1.0 && b != 0.0
    ensures (a + b * m) - (a + b * (m / 2.0)) != 0.0
  {
    assert (a + b * m) - (a + b * (m / 2.0)) == b * (m / 2.0);
  }

  lemma AddSquare(p: real, e: real)
    requires p >= 0.0 && e != 0.0
    ensures p + e * e > 0.0
  {
    var square := e * e;
    assert square / e == e;
  }

  /** A last cost away from the mean makes the squared deviations positive. */
  lemma LastDeviates(ys: seq<real>, mean: real)
    requires ys != [] && ys[|ys| - 1] != mean
    ensures SquaredDeviations(ys, mean) > 0.0
  {
    var prefix := ys[..|ys| - 1];
    SquaredDeviationsNonNegative(prefix, mean);
    AddSquare(SquaredDeviations(prefix, mean), ys[|ys| - 1] - mean);
  }

  /** Costs on a line that is not flat vary: their squared deviations from the mean are not 0. */
  lemma LineVaries(ys: seq<real>, a: real, b: real)
    requires |ys| >= 2 && OnLine(ys, a, b) && b != 0.0
    ensures SquaredDeviations(ys, Mean(ys)) != 0.0
  {
    var m := (|ys| - 1) as real;
    MeanOfLine(ys, a, b);
    HalfwayGap(m, a, b);
    LastDeviates(ys, Mean(ys));
  }

  /**
    With the intercept, costs on a line a + b·x are forecast on that line,
    and a line that is not flat is a perfect fit.
  */
  lemma FittedLineExact(ys: seq<real>, a: real, b: real, k: int)
    requires |ys| >= 2 && OnLine(ys, a, b)
    ensures FittedCost(ys, CalculateSlope(ys), k) == PredictedCost(a, Some(b), k)
    ensures b != 0.0 ==> FittedRSquared(ys, CalculateSlope(ys)) == Some(1.0)
  {
    SlopeOfLine(ys, a, b);
    InterceptOfLine(ys, a, b);
    FittedCostOnLine(ys, a, b, k);
    if b != 0.0 {
      PerfectFit(ys, a, b);
    }
  }

  lemma FittedCostOnLine(ys: seq<real>, a: real, b: real, k: int)
    requires ys != [] && Intercept(ys, b) == a
    ensures FittedCost(ys, Some(b), k) == PredictedCost(a, Some(b), k)
  {
    assert FittedCost(ys, Some(b), k) == PredictedCost(Intercept(ys, b), Some(b), k);
    assert PredictedCost(Intercept(ys, b), Some(b), k) == PredictedCost(a, Some(b), k);
  }

  lemma PerfectFit(ys: seq<real>, a: real, b: real)
    requires |ys| >= 2 && OnLine(ys, a, b) && b != 0.0
    requires Intercept(ys, b) == a
    ensures FittedRSquared(ys, Some(b)) == Some(1.0)
  {
    ResidualsOnLine(ys, a, b);
    LineVaries(ys, a, b);
  }

  /** The two response shapes: the empty-history answer and the forecast. */
  datatype Prediction =
    | NoData
    | Forecast(monthlyCost: Option<real>, trend: Trend, confidence: Option<real>,
               daily: seq<DailyPrediction>, history: seq<DailyCost>)

  /** The thirty predictions after the last historical day. */
  function DailyPredictions(history: seq<DailyCost>): (ps: seq<DailyPrediction>)
    requires history != []
    ensures |ps| == Horizon
    ensures forall i :: 0 <= i < Horizon ==> ps[i].day == history[|history| - 1].day + i + 1
    ensures forall i :: 0 <= i < Horizon ==>
              ps[i].predictedCost == PredictedCost(Mean(Costs(history)), CalculateSlope(Costs(history)), |history| + i)
  {
    var ys := Costs(history);
    var last := history[|history| - 1].day;
    seq(Horizon, i requires 0 <= i < Horizon =>
      DailyPrediction(last + i + 1, PredictedCost(Mean(ys), CalculateSlope(ys), |history| + i)))
  }

  /** `calculatePrediction` over the per-day documents, oldest first. */
  function CalculatePrediction(history: seq<DailyCost>): (r: Prediction)
    ensures history == [] <==> r == NoData
    ensures r.Forecast? ==>
              && r.history == history
              && r.daily == DailyPredictions(history)
              && r.trend == TrendOf(CalculateSlope(Costs(history)))
              && r.monthlyCost == SumPredictions(r.daily)
              && r.confidence == RSquared(Costs(history), CalculateSlope(Costs(history)), Mean(Costs(history)))
  {
    if history == [] then NoData
    else
      var ys := Costs(history);
      var slope := CalculateSlope(ys);
      var daily := DailyPredictions(history);
      Forecast(SumPredictions(daily), TrendOf(slope), RSquared(ys, slope, Mean(ys)), daily, history)
  }

  /**
    The forecast's shape: thirty non-negative predictions on consecutive
    days after the history, summing to the monthly cost; all of them are
    defined exactly when there are at least two days of history.
  */
  lemma ForecastShape(history: seq<DailyCost>)
    requires history != []
    ensures var r := CalculatePrediction(history);
            && |r.daily| == Horizon
            && (forall i :: 0 <= i < Horizon ==> r.daily[i].day == history[|history| - 1].day + i + 1)
            && (forall i :: 0 <= i < Horizon ==> (r.daily[i].predictedCost.Some? <==> |history| >= 2))
            && (forall i :: 0 <= i < Horizon && r.daily[i].predictedCost.Some? ==> r.daily[i].predictedCost.value >= 0.0)
            && (r.monthlyCost.Some? <==> |history| >= 2)
            && (r.monthlyCost.Some? ==> r.monthlyCost.value >= 0.0)
  {
    var r := CalculatePrediction(history);
    SumPredictionsNonNegative(r.daily);
    if |history| < 2 {
      assert r.daily[0].predictedCost.None?;
    }
  }

  /** With a rising slope each day's prediction is at least the one before; with a falling one at most. */
  lemma ForecastFollowsTrend(history: seq<DailyCost>, i: nat)
    requires history != [] && i + 1 < Horizon
    ensures var r := CalculatePrediction(history);
            && (r.trend == Increasing ==> r.daily[i].predictedCost.value <= r.daily[i + 1].predictedCost.value)
            && (r.trend == Decreasing ==> r.daily[i + 1].predictedCost.value <= r.daily[i].predictedCost.value)
  {
    var ys := Costs(history);
    var slope := CalculateSlope(ys);
    var m := Mean(ys);
    var k := |history| + i;
    if slope.Some? {
      PredictionsFollowSlope(m, slope.value, k);
    }
  }

  /** One step further along the forecast moves the prediction in the slope's direction (or not below 0). */
  lemma PredictionsFollowSlope(m: real, s: real, k: int)
    ensures s >= 0.0 ==> PredictedCost(m, Some(s), k).value <= PredictedCost(m, Some(s), k + 1).value
    ensures s <= 0.0 ==> PredictedCost(m, Some(s), k + 1).value <= PredictedCost(m, Some(s), k).value
  {
    assert s * (k + 1) as real == s * k as real + s;
  }

  /** Daily costs on a line rise, fall or stay level with the line. */
  lemma LinearHistoryTrend(history: seq<DailyCost>, a: real, b: real)
    requires |history| >= 2 && OnLine(Costs(history), a, b)
    ensures CalculatePrediction(history).trend == (if b > 0.0 then Increasing else if b < 0.0 then Decreasing else Stable)
  {
    SlopeOfLine(Costs(history), a, b);
  }

  /** A single day of history has no slope, so its trend is "stable" and its forecast is `NaN`. */
  lemma SingleDayIsStable(history: seq<DailyCost>)
    requires |history| == 1
    ensures CalculatePrediction(history).trend == Stable
    ensures CalculatePrediction(history).monthlyCost.None?
  {
    ForecastShape(history);
  }

  // ----- predictCosts -----------------------------------------------------

  /** Grouping by day leaves no day only when there is no record. */
  lemma HistoryEmptyIff(rs: seq<CostRecord>)
    ensures DailyCosts(rs) == [] <==> rs == []
  {
    if rs != [] {
      DailyCostsCoverRecords(rs, 0);
    }
  }

  /**
    `predictCosts`: the caller's records of one service and project from
    `days` days back, grouped by day and sorted, then forecast. A project
    header that is not an id matches no record.
  */
  function PredictCosts(costs: seq<CostRecord>, company: Id, project: Option<Id>, service: string,
                        days: int, now: Time): (r: Prediction)
    ensures project.None? ==> r == NoData
    ensures project.Some? ==>
      var history := DailyCosts(ServiceRecords(Scope(costs, Some(company), project.value, now - days * DayMs), service));
      r == CalculatePrediction(history)
    ensures r == NoData <==>
      (project.None? || forall i :: 0 <= i < |costs| ==>
         !(InScope(costs[i], Some(company), project.value, now - days * DayMs) && costs[i].serviceName == service))
  {
    if project.None? then CalculatePrediction([])
    else
      var matched := ServiceRecords(Scope(costs, Some(company), project.value, now - days * DayMs), service);
      HistoryEmptyIff(matched);
      CalculatePrediction(DailyCosts(matched))
  }
}
