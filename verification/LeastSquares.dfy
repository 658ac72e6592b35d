/** The straight line the clock recorder fits (examples/clock_recorder.py), over
    the reals. */
module LeastSquares {
  import opened Wrappers

  function Sum(xs: seq<real>): real {
    if xs == [] then 0.0 else xs[0] + Sum(xs[1..])
  }

  function Length(xs: seq<real>, ys: seq<real>): nat { if |xs| < |ys| then |xs| else |ys| }

  /** The sum of (x - mx) * (y - my) over the pairs both lists have. */
  function Moments(xs: seq<real>, ys: seq<real>, mx: real, my: real): real {
    if xs == [] || ys == [] then 0.0 else Times(xs[0] - mx, ys[0] - my) + Moments(xs[1..], ys[1..], mx, my)
  }

  datatype Line = Line(slope: real, intercept: real)

  /** The fitted line; no points is a division by zero. */
  function LinFit(xs: seq<real>, ys: seq<real>): Option<Line> {
    if |xs| == 0 then None
    else
      var n := |xs| as real;
      var mx, my := Sum(xs) / n, Sum(ys) / n;
      var variance := Moments(xs, xs, mx, mx);
      var covariance := Moments(xs, ys, mx, my);
      var slope := if variance != 0.0 then covariance / variance else 0.0;
      Some(Line(slope, my - slope * mx))
  }

  /** The sum of the squared residuals of a line. */
  function Residuals(xs: seq<real>, ys: seq<real>, l: Line): real
    requires |xs| == |ys|
  {
    if xs == [] then 0.0
    else Square(ys[0] - (l.slope * xs[0] + l.intercept)) + Residuals(xs[1..], ys[1..], l)
  }

  function Times(a: real, b: real): real { a * b }

  function Square(x: real): real { Times(x, x) }

  /** The sum of the squares of d * x + e: how far apart two lines are on the points. */
  function Apart(xs: seq<real>, d: real, e: real): real {
    if xs == [] then 0.0 else Square(d * xs[0] + e) + Apart(xs[1..], d, e)
  }

  // ---- sums of products about zero ----

  /** A sum of products about two means, from the one about zero. */
  function Shifted(zero: real, n: real, sx: real, sy: real, mx: real, my: real): real {
    zero - mx * sy - my * sx + n * mx * my
  }

  lemma {:induction false} MomentsAboutZero(xs: seq<real>, ys: seq<real>, mx: real, my: real)
    requires |xs| == |ys|
    ensures Moments(xs, ys, mx, my) == Shifted(Moments(xs, ys, 0.0, 0.0), |xs| as real, Sum(xs), Sum(ys), mx, my)
  {
    hide Times, Shifted;
    if xs == [] {
      ShiftedNothing(mx, my);
    } else {
      MomentsAboutZero(xs[1..], ys[1..], mx, my);
      MomentStep(xs[0], ys[0], Moments(xs[1..], ys[1..], 0.0, 0.0), |xs[1..]| as real, Sum(xs[1..]), Sum(ys[1..]), mx, my);
    }
  }

  lemma ShiftedNothing(mx: real, my: real)
    ensures Shifted(0.0, 0.0, 0.0, 0.0, mx, my) == 0.0
  {
  }

  lemma MomentStep(x: real, y: real, zero: real, n: real, sx: real, sy: real, mx: real, my: real)
    ensures Times(x - mx, y - my) + Shifted(zero, n, sx, sy, mx, my) ==
            Shifted(Times(x - 0.0, y - 0.0) + zero, n + 1.0, x + sx, y + sy, mx, my)
  {
    assert (x - mx) * (y - my) == x * y - mx * y - my * x + mx * my;
    assert mx * (y + sy) == mx * y + mx * sy;
    assert my * (x + sx) == my * x + my * sx;
    assert (n + 1.0) * mx * my == n * mx * my + mx * my;
  }

  /** The residual sum written out in the sums of products. */
  function Quadratic(n: real, sx: real, sy: real, sxx: real, sxy: real, syy: real, a: real, b: real): real {
    syy - 2.0 * a * sxy - 2.0 * b * sy + a * a * sxx + 2.0 * a * b * sx + n * b * b
  }

  lemma OneResidual(x: real, y: real, a: real, b: real)
    ensures Square(y - (a * x + b)) == y * y - 2.0 * a * (x * y) - 2.0 * b * y + a * a * (x * x) + 2.0 * a * b * x + b * b
  {
    var p := a * x;
    assert Square(y - (p + b)) == y * y - 2.0 * y * p - 2.0 * y * b + p * p + 2.0 * p * b + b * b;
    assert p * p == a * a * (x * x) && y * p == a * (x * y) && p * b == a * b * x;
  }

  lemma {:induction false} ResidualsQuadratic(xs: seq<real>, ys: seq<real>, l: Line)
    requires |xs| == |ys|
    ensures Residuals(xs, ys, l) ==
            Quadratic(|xs| as real, Sum(xs), Sum(ys), Moments(xs, xs, 0.0, 0.0), Moments(xs, ys, 0.0, 0.0),
                      Moments(ys, ys, 0.0, 0.0), l.slope, l.intercept)
  {
    hide Quadratic, Square;
    if xs == [] {
      NoQuadratic(l.slope, l.intercept);
    } else {
      ResidualsQuadratic(xs[1..], ys[1..], l);
      MomentsStep(xs, xs);
      MomentsStep(xs, ys);
      MomentsStep(ys, ys);
      hide Moments;
      OneResidual(xs[0], ys[0], l.slope, l.intercept);
      QuadraticAdds(|xs[1..]| as real, Sum(xs[1..]), Sum(ys[1..]), Moments(xs[1..], xs[1..], 0.0, 0.0),
                    Moments(xs[1..], ys[1..], 0.0, 0.0), Moments(ys[1..], ys[1..], 0.0, 0.0),
                    xs[0], ys[0], l.slope, l.intercept,
                    |xs| as real, Sum(xs), Sum(ys), Moments(xs, xs, 0.0, 0.0), Moments(xs, ys, 0.0, 0.0),
                    Moments(ys, ys, 0.0, 0.0));
    }
  }

  lemma MomentsStep(xs: seq<real>, ys: seq<real>)
    requires |xs| == |ys| > 0
    ensures Moments(xs, ys, 0.0, 0.0) == xs[0] * ys[0] + Moments(xs[1..], ys[1..], 0.0, 0.0)
    ensures |xs| as real == |xs[1..]| as real + 1.0
  {
    assert (xs[0] - 0.0) * (ys[0] - 0.0) == xs[0] * ys[0];
  }

  lemma NoQuadratic(a: real, b: real)
    ensures Quadratic(0.0, 0.0, 0.0, 0.0, 0.0, 0.0, a, b) == 0.0
  {
  }

  lemma QuadraticAdds(n: real, sx: real, sy: real, sxx: real, sxy: real, syy: real, x: real, y: real, a: real, b: real,
                      n': real, sx': real, sy': real, sxx': real, sxy': real, syy': real)
    requires n' == n + 1.0 && sx' == x + sx && sy' == y + sy
    requires sxx' == x * x + sxx && sxy' == x * y + sxy && syy' == y * y + syy
    ensures Quadratic(n', sx', sy', sxx', sxy', syy', a, b) ==
            Quadratic(n, sx, sy, sxx, sxy, syy, a, b)
            + (y * y - 2.0 * a * (x * y) - 2.0 * b * y + a * a * (x * x) + 2.0 * a * b * x + b * b)
  {
    var aa, ab, bb := a * a, a * b, b * b;
    assert 2.0 * a * (x * y + sxy) == 2.0 * a * (x * y) + 2.0 * a * sxy;
    assert 2.0 * b * (y + sy) == 2.0 * b * y + 2.0 * b * sy;
    assert aa * (x * x + sxx) == aa * (x * x) + aa * sxx;
    assert 2.0 * a * b * (x + sx) == 2.0 * a * b * x + 2.0 * a * b * sx;
    assert (n + 1.0) * b * b == n * b * b + bb;
  }

  /** How far apart two lines are, in the sums of the points. */
  function ApartSums(n: real, sx: real, sxx: real, d: real, e: real): real {
    d * d * sxx + 2.0 * d * e * sx + n * e * e
  }

  lemma NothingApart(d: real, e: real)
    ensures ApartSums(0.0, 0.0, 0.0, d, e) == 0.0
  {
  }

  lemma ApartAdds(x: real, m: real, sx: real, sxx: real, d: real, e: real, m': real, sx': real, sxx': real)
    requires m' == m + 1.0 && sx' == x + sx && sxx' == x * x + sxx
    ensures ApartSums(m', sx', sxx', d, e) == Square(d * x + e) + ApartSums(m, sx, sxx, d, e)
  {
    OneResidual(x, 0.0, d, e);
    assert Square(d * x + e) == Square(0.0 - (d * x + e));
    assert d * d * (x * x + sxx) == d * d * (x * x) + d * d * sxx;
    assert 2.0 * d * e * (x + sx) == 2.0 * d * e * x + 2.0 * d * e * sx;
    assert (m + 1.0) * e * e == m * e * e + e * e;
  }

  lemma {:induction false} ApartIs(xs: seq<real>, d: real, e: real)
    ensures Apart(xs, d, e) == ApartSums(|xs| as real, Sum(xs), Moments(xs, xs, 0.0, 0.0), d, e)
  {
    hide Square, ApartSums;
    if xs == [] {
      NothingApart(d, e);
    } else {
      ApartIs(xs[1..], d, e);
      MomentsStep(xs, xs);
      hide Moments;
      ApartAdds(xs[0], |xs[1..]| as real, Sum(xs[1..]), Moments(xs[1..], xs[1..], 0.0, 0.0), d, e,
                |xs| as real, Sum(xs), Moments(xs, xs, 0.0, 0.0));
    }
  }

  lemma {:induction false} ApartNonNegative(xs: seq<real>, d: real, e: real)
    ensures Apart(xs, d, e) >= 0.0
  {
    if xs != [] {
      ApartNonNegative(xs[1..], d, e);
      assert Square(d * xs[0] + e) >= 0.0;
    }
  }

  /** The normal equations of a line. */
  predicate Solves(n: real, sx: real, sy: real, sxx: real, sxy: real, s: real, i: real) {
    s * sxx + i * sx == sxy && s * sx + n * i == sy
  }

  /** About a line that satisfies the normal equations, the residual sum grows by
      exactly how far apart the lines are. */
  lemma AboutTheFit(n: real, sx: real, sy: real, sxx: real, sxy: real, syy: real, s: real, i: real, d: real, e: real,
                    a: real, b: real)
    requires Solves(n, sx, sy, sxx, sxy, s, i)
    requires a == s + d && b == i + e
    ensures Quadratic(n, sx, sy, sxx, sxy, syy, a, b) ==
            Quadratic(n, sx, sy, sxx, sxy, syy, s, i) + ApartSums(n, sx, sxx, d, e)
  {
    assert (s + d) * (s + d) * sxx == s * s * sxx + 2.0 * (d * (s * sxx)) + d * d * sxx;
    assert 2.0 * (s + d) * (i + e) * sx == 2.0 * s * i * sx + 2.0 * (e * (s * sx)) + 2.0 * (d * (i * sx)) + 2.0 * d * e * sx;
    assert n * (i + e) * (i + e) == n * i * i + 2.0 * (e * (n * i)) + n * e * e;
    assert 2.0 * (s + d) * sxy == 2.0 * s * sxy + 2.0 * (d * sxy);
    assert 2.0 * (i + e) * sy == 2.0 * i * sy + 2.0 * (e * sy);
    assert d * sxy == d * (s * sxx) + d * (i * sx);
    assert e * sy == e * (s * sx) + e * (n * i);
  }

  // ---- the fit ----

  predicate AllEqual(xs: seq<real>) { forall i :: 0 <= i < |xs| ==> xs[i] == xs[0] }

  lemma {:induction false} ApartZero(xs: seq<real>, d: real, e: real)
    requires Apart(xs, d, e) == 0.0
    ensures forall k :: 0 <= k < |xs| ==> d * xs[k] + e == 0.0
  {
    if xs != [] {
      ApartNonNegative(xs[1..], d, e);
      assert Square(d * xs[0] + e) >= 0.0;
      SquareZero(d * xs[0] + e);
      ApartZero(xs[1..], d, e);
      forall k | 0 <= k < |xs| ensures d * xs[k] + e == 0.0 {
        if k > 0 { assert xs[1..][k - 1] == xs[k]; }
      }
    }
  }

  lemma SquareZero(x: real)
    requires Square(x) <= 0.0
    ensures x == 0.0
  {
    hide Times;
    if x > 0.0 {
      SameSign(x, x);
    } else if x < 0.0 {
      SameSign(x, x);
    }
  }

  lemma SameSign(a: real, b: real)
    requires (a > 0.0 && b > 0.0) || (a < 0.0 && b < 0.0)
    ensures Times(a, b) > 0.0
  {
  }

  lemma {:induction false} VarianceApart(xs: seq<real>, m: real)
    ensures Moments(xs, xs, m, m) == Apart(xs, 1.0, -m)
  {
    if xs != [] {
      VarianceApart(xs[1..], m);
      assert Square(1.0 * xs[0] + -m) == (xs[0] - m) * (xs[0] - m);
    }
  }

  lemma {:induction false} SumOfEqual(xs: seq<real>, ys: seq<real>, x: real)
    requires |xs| == |ys| && forall k :: 0 <= k < |xs| ==> xs[k] == x
    ensures Sum(xs) == |xs| as real * x && Moments(xs, ys, 0.0, 0.0) == x * Sum(ys)
  {
    if xs != [] {
      SumOfEqual(xs[1..], ys[1..], x);
      assert (|xs[1..]| as real + 1.0) * x == |xs[1..]| as real * x + x;
      assert x * (ys[0] + Sum(ys[1..])) == x * ys[0] + x * Sum(ys[1..]);
    }
  }

  lemma Divide(a: real, b: real)
    requires b != 0.0
    ensures a / b * b == a
  {
  }

  lemma NormalAlgebra(n: real, sx: real, sy: real, sxx: real, sxy: real, mx: real, my: real, s: real)
    requires n * mx == sx && n * my == sy && s * (sxx - mx * sx) == sxy - my * sx
    ensures Solves(n, sx, sy, sxx, sxy, s, my - s * mx)
  {
    assert s * (sxx - mx * sx) == s * sxx - s * (mx * sx);
    assert (my - s * mx) * sx == my * sx - s * (mx * sx);
    assert n * (my - s * mx) == n * my - s * (n * mx);
  }

  /** The moments about the means, in the sums of products. */
  lemma CentredMoments(xs: seq<real>, ys: seq<real>, mx: real, my: real)
    requires |xs| == |ys| && |xs| as real * mx == Sum(xs) && |xs| as real * my == Sum(ys)
    ensures Moments(xs, ys, mx, my) == Moments(xs, ys, 0.0, 0.0) - my * Sum(xs)
  {
    hide Moments;
    MomentsAboutZero(xs, ys, mx, my);
    assert |xs| as real * mx * my == mx * (|xs| as real * my);
  }

  /** The fitted line satisfies the normal equations, whether or not its points
      have more than one x. */
  lemma Normal(xs: seq<real>, ys: seq<real>)
    requires |xs| == |ys| > 0
    ensures var l := LinFit(xs, ys).value;
            Solves(|xs| as real, Sum(xs), Sum(ys), Moments(xs, xs, 0.0, 0.0), Moments(xs, ys, 0.0, 0.0), l.slope, l.intercept)
  {
    hide Moments, Sum;
    var n := |xs| as real;
    var mx, my := Sum(xs) / n, Sum(ys) / n;
    var s := LinFit(xs, ys).value.slope;
    Divide(Sum(xs), n);
    Divide(Sum(ys), n);
    CentredMoments(xs, xs, mx, mx);
    CentredMoments(xs, ys, mx, my);
    var variance, covariance := Moments(xs, xs, mx, mx), Moments(xs, ys, mx, my);
    assert s * variance == covariance by {
      if variance != 0.0 {
        Divide(covariance, variance);
      } else {
        NoVariance(xs, ys, mx, my);
      }
    }
    NormalAlgebra(n, Sum(xs), Sum(ys), Moments(xs, xs, 0.0, 0.0), Moments(xs, ys, 0.0, 0.0), mx, my, s);
  }

  /** With every x at the mean, the covariance is zero too. */
  lemma NoVariance(xs: seq<real>, ys: seq<real>, mx: real, my: real)
    requires |xs| == |ys| > 0 && Moments(xs, xs, mx, mx) == 0.0
    requires |xs| as real * mx == Sum(xs) && |xs| as real * my == Sum(ys)
    ensures Moments(xs, ys, mx, my) == 0.0
  {
    VarianceApart(xs, mx);
    ApartZero(xs, 1.0, -mx);
    SumOfEqual(xs, ys, mx);
    MomentsAboutZero(xs, ys, mx, my);
    assert |xs| as real * mx * my == my * Sum(xs);
  }

  /** Any line's residual sum is the fitted line's and how far apart they are. */
  lemma ResidualsApart(xs: seq<real>, ys: seq<real>, other: Line)
    requires |xs| == |ys| > 0
    ensures var l := LinFit(xs, ys).value;
            Residuals(xs, ys, other) == Residuals(xs, ys, l) + Apart(xs, other.slope - l.slope, other.intercept - l.intercept)
  {
    assert LinFit(xs, ys).Some?;
    hide LinFit, Residuals, Quadratic, Apart, ApartSums, Moments, Sum, Solves;
    var l := LinFit(xs, ys).value;
    var d, e := other.slope - l.slope, other.intercept - l.intercept;
    Normal(xs, ys);
    ResidualsQuadratic(xs, ys, l);
    ResidualsQuadratic(xs, ys, other);
    AboutTheFit(|xs| as real, Sum(xs), Sum(ys), Moments(xs, xs, 0.0, 0.0), Moments(xs, ys, 0.0, 0.0),
                Moments(ys, ys, 0.0, 0.0), l.slope, l.intercept, d, e, other.slope, other.intercept);
    ApartIs(xs, d, e);
  }

  /** No line has a smaller sum of squared residuals than the fitted one, and when
      the points have more than one x every other line has a larger one. With a
      single x the fitted line is the mean, one of the best. */
  lemma FitIsBest(xs: seq<real>, ys: seq<real>, other: Line)
    requires |xs| == |ys| > 0
    ensures LinFit(xs, ys).Some?
    ensures Residuals(xs, ys, LinFit(xs, ys).value) <= Residuals(xs, ys, other)
    ensures !AllEqual(xs) && other != LinFit(xs, ys).value ==>
              Residuals(xs, ys, LinFit(xs, ys).value) < Residuals(xs, ys, other)
    ensures AllEqual(xs) ==> LinFit(xs, ys).value == Line(0.0, Sum(ys) / |ys| as real)
  {
    assert LinFit(xs, ys).Some?;
    hide LinFit, Residuals, Apart, Sum;
    var l := LinFit(xs, ys).value;
    var d, e := other.slope - l.slope, other.intercept - l.intercept;
    ResidualsApart(xs, ys, other);
    ApartNonNegative(xs, d, e);
    if !AllEqual(xs) && Apart(xs, d, e) == 0.0 {
      ApartZero(xs, d, e);
      OnlyZero(xs, d, e);
    }
    if AllEqual(xs) { SingleX(xs, ys); }
  }

  lemma OnlyZero(xs: seq<real>, d: real, e: real)
    requires !AllEqual(xs) && forall k :: 0 <= k < |xs| ==> d * xs[k] + e == 0.0
    ensures d == 0.0 && e == 0.0
  {
    var k :| 0 <= k < |xs| && xs[k] != xs[0];
    assert d * xs[k] + e == d * xs[0] + e;
    assert d * (xs[k] - xs[0]) == 0.0;
  }

  lemma SingleX(xs: seq<real>, ys: seq<real>)
    requires |xs| == |ys| > 0 && AllEqual(xs)
    ensures LinFit(xs, ys).value == Line(0.0, Sum(ys) / |ys| as real)
  {
    var n, mx := |xs| as real, Sum(xs) / |xs| as real;
    SumOfEqual(xs, xs, xs[0]);
    assert Sum(xs) == n * xs[0];
    assert mx == xs[0] by { Divide(Sum(xs), n); }
    MomentsAboutZero(xs, xs, mx, mx);
    assert n * mx * mx == mx * Sum(xs);
  }
}
