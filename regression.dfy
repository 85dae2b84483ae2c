/**
 * Ordinary least squares of one variable, the fit and prediction the battery policy
 * obtains from a linear regression over (timestamp, voltage) points.
 *
 * When all abscissae coincide the normal equations do not fix a slope; the model then
 * returns the horizontal line through the mean, which is the minimum-norm least-squares
 * solution a linear-regression library returns for that case.
 */
module Regression {
  import opened Stats

  datatype Line = Line(slope: real, intercept: real)

  /** The value the line predicts at `x`. */
  function Predict(line: Line, x: real): real
  {
    line.slope * x + line.intercept
  }

  /** The sum of the products of the deviations of `xs` from `mx` and of `ys` from `my`. */
  function CrossDeviations(xs: seq<real>, ys: seq<real>, mx: real, my: real): real
    requires |xs| == |ys|
  {
    if |xs| == 0 then 0.0
    else Product(xs[0] - mx, ys[0] - my) + CrossDeviations(xs[1..], ys[1..], mx, my)
  }

  /**
   * The line the normal equations give for the deviation sums `sxx` (of x with itself)
   * and `sxy` (of x with y) of points whose means are `mx` and `my`.
   */
  function LineFromMoments(sxx: real, sxy: real, mx: real, my: real): Line
  {
    if sxx == 0.0 then
      Line(0.0, my)
    else
      var slope := sxy / sxx;
      Line(slope, my - slope * mx)
  }

  /** The least-squares line through the points (xs[i], ys[i]). */
  function Fit(xs: seq<real>, ys: seq<real>): Line
    requires |xs| == |ys| > 0
  {
    LineFromMoments(SquaredDeviations(xs, Mean(xs)), CrossDeviations(xs, ys, Mean(xs), Mean(ys)), Mean(xs), Mean(ys))
  }

  ghost predicate OnLine(xs: seq<real>, ys: seq<real>, line: Line)
    requires |xs| == |ys|
  {
    forall i :: 0 <= i < |xs| ==> ys[i] == Predict(line, xs[i])
  }

  /** The fitted line always passes through the centroid of the points. */
  lemma FitThroughCentroid(xs: seq<real>, ys: seq<real>)
    requires |xs| == |ys| > 0
    ensures Predict(Fit(xs, ys), Mean(xs)) == Mean(ys)
  {
  }

  lemma {:induction false} SumOnLine(xs: seq<real>, ys: seq<real>, line: Line)
    requires |xs| == |ys| && OnLine(xs, ys, line)
    ensures Sum(ys) == line.slope * Sum(xs) + |xs| as real * line.intercept
  {
    if |xs| > 0 {
      assert OnLine(xs[1..], ys[1..], line) by {
        forall i | 0 <= i < |xs| - 1 ensures ys[1..][i] == Predict(line, xs[1..][i]) {
          assert ys[1..][i] == ys[i + 1] && xs[1..][i] == xs[i + 1];
        }
      }
      SumOnLine(xs[1..], ys[1..], line);
      assert ys[0] == line.slope * xs[0] + line.intercept;
    }
  }

  lemma MeanOnLine(xs: seq<real>, ys: seq<real>, line: Line)
    requires |xs| == |ys| > 0 && OnLine(xs, ys, line)
    ensures Mean(ys) == Predict(line, Mean(xs))
  {
    SumOnLine(xs, ys, line);
  }

  lemma {:induction false} CrossDeviationsOnLine(xs: seq<real>, ys: seq<real>, line: Line, mx: real)
    requires |xs| == |ys| && OnLine(xs, ys, line)
    ensures CrossDeviations(xs, ys, mx, Predict(line, mx)) == line.slope * SquaredDeviations(xs, mx)
  {
    if |xs| > 0 {
      assert OnLine(xs[1..], ys[1..], line) by {
        forall i | 0 <= i < |xs| - 1 ensures ys[1..][i] == Predict(line, xs[1..][i]) {
          assert ys[1..][i] == ys[i + 1] && xs[1..][i] == xs[i + 1];
        }
      }
      CrossDeviationsOnLine(xs[1..], ys[1..], line, mx);
      CrossTermOnLine(xs[0], ys[0], line, mx);
    }
  }

  lemma CrossTermOnLine(x: real, y: real, line: Line, mx: real)
    requires y == Predict(line, x)
    ensures Product(x - mx, y - Predict(line, mx)) == line.slope * Square(x - mx)
  {
    var d := x - mx;
    assert y - Predict(line, mx) == line.slope * d;
    SquareIs(d);
  }

  /**
   * Points lying exactly on a line with at least two distinct abscissae are fitted by
   * that very line.
   */
  lemma FitRecoversLine(xs: seq<real>, ys: seq<real>, line: Line, i: int)
    requires |xs| == |ys| && 0 <= i < |xs| && OnLine(xs, ys, line)
    requires xs[i] != xs[0]
    ensures Fit(xs, ys) == line
  {
    DistinctAbscissaeDeviate(xs, i);
    MeanOnLine(xs, ys, line);
    CrossDeviationsOnLine(xs, ys, line, Mean(xs));
    FitOfNormalEquations(xs, ys, line);
  }

  /** Two distinct abscissae make the sum of squared deviations from their mean positive. */
  lemma DistinctAbscissaeDeviate(xs: seq<real>, i: int)
    requires 0 <= i < |xs| && xs[i] != xs[0]
    ensures SquaredDeviations(xs, Mean(xs)) > 0.0
  {
    if xs[i] != Mean(xs) {
      SquaredDeviationsPositive(xs, Mean(xs), i);
    } else {
      SquaredDeviationsPositive(xs, Mean(xs), 0);
    }
  }

  /** When the x deviations do not vanish, the fit is fixed by the cross deviations and the means. */
  lemma FitOfNormalEquations(xs: seq<real>, ys: seq<real>, line: Line)
    requires |xs| == |ys| > 0
    requires SquaredDeviations(xs, Mean(xs)) > 0.0
    requires Mean(ys) == Predict(line, Mean(xs))
    requires CrossDeviations(xs, ys, Mean(xs), Mean(ys)) == line.slope * SquaredDeviations(xs, Mean(xs))
    ensures Fit(xs, ys) == line
  {
    SolveNormalEquations(SquaredDeviations(xs, Mean(xs)), CrossDeviations(xs, ys, Mean(xs), Mean(ys)),
                         Mean(xs), Mean(ys), line);
  }

  /** The normal equations, over plain numbers, are solved by the line they were built from. */
  lemma SolveNormalEquations(sxx: real, sxy: real, mx: real, my: real, line: Line)
    requires sxx > 0.0 && sxy == line.slope * sxx && my == Predict(line, mx)
    ensures LineFromMoments(sxx, sxy, mx, my) == line
  {
  }

  /** Points that all share one abscissa are fitted by the horizontal line through their mean. */
  lemma {:induction false} FitFlatWhenAbscissaeEqual(xs: seq<real>, ys: seq<real>)
    requires |xs| == |ys| > 0 && Constant(xs, xs[0])
    ensures Fit(xs, ys) == Line(0.0, Mean(ys))
  {
    ConstantStatistics(xs, xs[0]);
    SquaredDeviationsConstant(xs, xs[0]);
  }
}
