/**
 * The reliability-weighted trend score of a short per-game series
 * (`calculate_momentum_score`): the ordinary least-squares slope of value
 * against position, multiplied by the coefficient of determination r^2.
 *
 * Missing entries are dropped but every surviving entry keeps its original
 * position as its x-coordinate. The least-squares fit is written out with
 * centred sums: slope = Sxy / Sxx and r^2 = Sxy^2 / (Sxx * Syy), so a fit is
 * degenerate exactly when Sxx or Syy is zero.
 */
module MomentumScore {
  import opened Optional
  import opened RealSums

  /** A per-game series as the scorer receives it; None is a missing or NaN entry. */
  type Series = seq<Option<real>>

  /** An entry that survived filtering: its position in the series and its value. */
  datatype Point = Point(index: nat, value: real)

  /** Fewest points the scorer will fit a line through. */
  const MinPoints: nat := 3

  /** Number of present entries of `y`. */
  function PresentCount(y: Series): (n: nat)
    ensures n <= |y|
  {
    if y == [] then 0
    else PresentCount(y[..|y| - 1]) + (if y[|y| - 1].Some? then 1 else 0)
  }

  /** The present entries of `y`, in order, each paired with its original position. */
  function ValidPoints(y: Series): (ps: seq<Point>)
    ensures |ps| == PresentCount(y)
    ensures forall k :: 0 <= k < |ps| ==> ps[k].index < |y| && y[ps[k].index] == Some(ps[k].value)
    ensures forall k, l :: 0 <= k < l < |ps| ==> ps[k].index < ps[l].index
  {
    if y == [] then []
    else
      var front := ValidPoints(y[..|y| - 1]);
      match y[|y| - 1]
      case None => front
      case Some(v) => front + [Point(|y| - 1, v)]
  }

  /** No present entry is lost: every one of them becomes a point. */
  lemma {:induction false} ValidPointsComplete(y: Series, i: nat)
    requires i < |y| && y[i].Some?
    ensures exists k :: 0 <= k < |ValidPoints(y)| && ValidPoints(y)[k] == Point(i, y[i].value)
  {
    var ps := ValidPoints(y);
    var front := ValidPoints(y[..|y| - 1]);
    if i == |y| - 1 {
      assert ps[|ps| - 1] == Point(i, y[i].value);
    } else {
      assert y[..|y| - 1][i] == y[i];
      ValidPointsComplete(y[..|y| - 1], i);
      var k :| 0 <= k < |front| && front[k] == Point(i, y[i].value);
      assert ps[k] == front[k];
    }
  }

  /** A series in which every entry is present. */
  function AllPresent(vs: seq<real>): (y: Series)
    ensures |y| == |vs|
    ensures forall i :: 0 <= i < |vs| ==> y[i] == Some(vs[i])
  {
    seq(|vs|, i requires 0 <= i < |vs| => Some(vs[i]))
  }

  /** The x-coordinates (original positions) of the points. */
  function Xs(ps: seq<Point>): (xs: seq<real>)
    ensures |xs| == |ps|
    ensures forall k :: 0 <= k < |ps| ==> xs[k] == ps[k].index as real
  {
    seq(|ps|, k requires 0 <= k < |ps| => ps[k].index as real)
  }

  /** The y-coordinates (values) of the points. */
  function Ys(ps: seq<Point>): (ys: seq<real>)
    ensures |ys| == |ps|
    ensures forall k :: 0 <= k < |ps| ==> ys[k] == ps[k].value
  {
    seq(|ps|, k requires 0 <= k < |ps| => ps[k].value)
  }

  /** Sum of squared deviations of the positions from their mean. */
  function Sxx(ps: seq<Point>): real
    requires |ps| > 0
  {
    Covariance(Xs(ps), Xs(ps))
  }

  /** Sum of products of the deviations of positions and values. */
  function Sxy(ps: seq<Point>): real
    requires |ps| > 0
  {
    Covariance(Xs(ps), Ys(ps))
  }

  /** Sum of squared deviations of the values from their mean. */
  function Syy(ps: seq<Point>): real
    requires |ps| > 0
  {
    Covariance(Ys(ps), Ys(ps))
  }

  /** The ordinary least-squares slope of value against position. */
  function Slope(ps: seq<Point>): (b: real)
    requires |ps| > 0 && Sxx(ps) != 0.0
    ensures b * Sxx(ps) == Sxy(ps)
  {
    Sxy(ps) / Sxx(ps)
  }

  /**
   * Residual sum of squares of the line with slope `b` through the centroid
   * of the points.
   */
  function ResidualSS(ps: seq<Point>, b: real): real
    requires |ps| > 0
  {
    SquaredResiduals(Centered(Xs(ps)), Centered(Ys(ps)), b)
  }

  /**
   * The coefficient of determination, Sxy^2 / (Sxx * Syy): the square of the
   * correlation coefficient, so it lies in [0, 1].
   */
  function RSquared(ps: seq<Point>): (r2: real)
    requires |ps| > 0 && Sxx(ps) != 0.0 && Syy(ps) != 0.0
    ensures 0.0 <= r2 <= 1.0
    ensures Sxy(ps) != 0.0 ==> r2 > 0.0
  {
    var sxx, sxy, syy := Sxx(ps), Sxy(ps), Syy(ps);
    RSquaredBounds(ps);
    CorrelationArithmetic(sxx, sxy, syy);
    (sxy * sxy) / (sxx * syy)
  }

  /** r^2 * Syy = slope * Sxy: the spread of the values that the fitted line accounts for. */
  lemma RSquaredTimesSpread(ps: seq<Point>)
    requires |ps| > 0 && Sxx(ps) != 0.0 && Syy(ps) != 0.0
    ensures RSquared(ps) * Syy(ps) == Slope(ps) * Sxy(ps)
  {
    RSquaredBounds(ps);
    CorrelationArithmetic(Sxx(ps), Sxy(ps), Syy(ps));
  }

  /** The outcome of a non-degenerate fit. */
  datatype LineFit = LineFit(slope: real, rSquared: real)

  /**
   * Least-squares fit of value against position; None when the fit is
   * degenerate (no spread in the positions or in the values).
   */
  function Fit(ps: seq<Point>): (f: Option<LineFit>)
    requires |ps| > 0
    ensures f.Some? <==> Sxx(ps) != 0.0 && Syy(ps) != 0.0
    ensures f.Some? ==> f.value.slope == Slope(ps)
    ensures f.Some? ==> f.value.rSquared == RSquared(ps)
  {
    if Sxx(ps) == 0.0 || Syy(ps) == 0.0 then None
    else Some(LineFit(Slope(ps), RSquared(ps)))
  }

  /** Slope times r^2: steep and steady trends score high, noisy ones are shrunk. */
  function WeightedSlope(fit: LineFit): (s: real)
    ensures fit.rSquared == 1.0 ==> s == fit.slope
    ensures fit.rSquared == 0.0 || fit.slope == 0.0 ==> s == 0.0
  {
    fit.slope * fit.rSquared
  }

  /** The reliability-weighted slope: slope * r^2, or 0.0 when there is too little to fit. */
  function Score(y: Series): (r: real)
    ensures |y| < MinPoints ==> r == 0.0
    ensures PresentCount(y) < MinPoints ==> r == 0.0
  {
    if |y| < MinPoints then 0.0
    else
      var ps := ValidPoints(y);
      if |ps| < MinPoints then 0.0
      else
        match Fit(ps)
        case None => 0.0
        case Some(fit) => WeightedSlope(fit)
  }

  // ---------------------------------------------------------------------
  // Properties of the fit
  // ---------------------------------------------------------------------

  /** Sxx, Syy are sums of squares, and Sxy^2 <= Sxx * Syy (Cauchy-Schwarz). */
  lemma RSquaredBounds(ps: seq<Point>)
    requires |ps| > 0
    ensures Sxx(ps) >= 0.0 && Syy(ps) >= 0.0
    ensures Square(Sxy(ps)) <= Product(Sxx(ps), Syy(ps))
  {
    var cx, cy := Centered(Xs(ps)), Centered(Ys(ps));
    DotSelfNonnegative(cx);
    DotSelfNonnegative(cy);
    CauchySchwarz(cx, cy);
  }

  /**
   * The arithmetic behind r^2: for sums of squares with sxy^2 <= sxx * syy,
   * sxy^2 / (sxx * syy) lies in [0, 1] and is (sxy / sxx) * sxy / syy.
   */
  lemma CorrelationArithmetic(sxx: real, sxy: real, syy: real)
    requires sxx >= 0.0 && syy >= 0.0 && sxx != 0.0 && syy != 0.0
    requires Square(sxy) <= Product(sxx, syy)
    ensures sxx > 0.0 && syy > 0.0
    ensures 0.0 <= (sxy * sxy) / (sxx * syy) <= 1.0
    ensures sxy != 0.0 ==> (sxy * sxy) / (sxx * syy) > 0.0
    ensures (sxy * sxy) / (sxx * syy) * syy == (sxy / sxx) * sxy
  {
    var den := sxx * syy;
    ProductPositive(sxx, syy);
    assert den > 0.0;
    SquareNonnegative(sxy);
    assert sxy * sxy == Square(sxy);
  }

  /** The positions of the points strictly increase. */
  ghost predicate Ordered(ps: seq<Point>)
  {
    forall k, l :: 0 <= k < l < |ps| ==> ps[k].index < ps[l].index
  }

  /** Two or more distinct positions give the positions a positive spread. */
  lemma SxxPositive(ps: seq<Point>)
    requires |ps| >= 2 && Ordered(ps)
    ensures Sxx(ps) > 0.0
  {
    var xs := Xs(ps);
    var cx := Centered(xs);
    assert cx[0] + Mean(xs) == xs[0] && cx[1] + Mean(xs) == xs[1];
    assert xs[0] < xs[1];
    if cx[0] != 0.0 {
      DotSelfPositive(cx, 0);
    } else {
      DotSelfPositive(cx, 1);
    }
  }

  /** With no spread in the values there is no covariance either. */
  lemma NoSpreadNoCovariance(ps: seq<Point>)
    requires |ps| > 0 && Syy(ps) == 0.0
    ensures Sxy(ps) == 0.0
  {
    var cx, cy := Centered(Xs(ps)), Centered(Ys(ps));
    DotSelfZero(cy);
    DotSymmetric(cx, cy);
    DotZeroLeft(cy, cx);
  }

  /**
   * The fit is degenerate exactly when every value is the same: the positions
   * always have spread, so only the values can lack it.
   */
  lemma DegenerateIffConstant(ps: seq<Point>)
    requires |ps| >= 2 && Ordered(ps)
    ensures Fit(ps).None? <==> forall k :: 0 <= k < |ps| ==> ps[k].value == ps[0].value
  {
    SxxPositive(ps);
    var xs, ys := Xs(ps), Ys(ps);
    var cy := Centered(ys);
    if forall k :: 0 <= k < |ps| ==> ps[k].value == ps[0].value {
      CenteredAffine(xs, ys, ps[0].value, 0.0);
      DotZeroLeft(cy, cy);
    }
    if Syy(ps) == 0.0 {
      DotSelfZero(cy);
      forall k | 0 <= k < |ps| ensures ps[k].value == ps[0].value {
        assert cy[k] + Mean(ys) == ys[k];
        assert cy[0] + Mean(ys) == ys[0];
      }
    }
  }

  /**
   * Once three entries are present the score is slope * r^2; the positions
   * always have spread, and a series of equal values scores 0.0 because its
   * covariance vanishes with its spread.
   */
  lemma ScoreIsWeightedSlope(y: Series)
    requires PresentCount(y) >= MinPoints
    ensures var ps := ValidPoints(y);
      && Sxx(ps) > 0.0
      && (Syy(ps) == 0.0 ==> Score(y) == 0.0 && Sxy(ps) == 0.0 && Slope(ps) == 0.0)
      && (Syy(ps) != 0.0 ==> Score(y) == WeightedSlope(LineFit(Slope(ps), RSquared(ps))))
  {
    var ps := ValidPoints(y);
    SxxPositive(ps);
    if Syy(ps) == 0.0 {
      NoSpreadNoCovariance(ps);
      CancelFactor(Slope(ps), 0.0, Sxx(ps));
    } else {
      assert |y| >= MinPoints && |ps| >= MinPoints;
      assert Fit(ps) == Some(LineFit(Slope(ps), RSquared(ps)));
    }
  }

  /**
   * The score has the sign of the least-squares slope and is never larger
   * in magnitude: r^2 only shrinks a trend towards zero.
   */
  lemma ScoreBoundedBySlope(y: Series)
    requires PresentCount(y) >= MinPoints
    ensures var ps := ValidPoints(y);
      Sxx(ps) > 0.0 && ShrunkTowardsZero(Score(y), Slope(ps))
  {
    var ps := ValidPoints(y);
    ScoreIsWeightedSlope(y);
    if Syy(ps) != 0.0 {
      WeightedSlopeArithmetic(LineFit(Slope(ps), RSquared(ps)), Sxx(ps), Sxy(ps));
    }
  }

  /** `s` has the sign of `b` (zero only when `b` is) and is no larger in magnitude. */
  predicate ShrunkTowardsZero(s: real, b: real)
  {
    && (0.0 <= s <= b || b <= s <= 0.0)
    && (s > 0.0 <==> b > 0.0)
    && (s < 0.0 <==> b < 0.0)
  }

  /**
   * A slope b of positive spread scaled by an r^2 in [0, 1] that is positive
   * whenever the covariance is: same sign, no larger magnitude.
   */
  lemma WeightedSlopeArithmetic(fit: LineFit, sxx: real, sxy: real)
    requires sxx > 0.0 && fit.slope * sxx == sxy
    requires 0.0 <= fit.rSquared <= 1.0 && (sxy != 0.0 ==> fit.rSquared > 0.0)
    ensures ShrunkTowardsZero(WeightedSlope(fit), fit.slope)
  {
    var b, r2 := fit.slope, fit.rSquared;
    assert WeightedSlope(fit) == b * r2;
    ScaleByFraction(b, r2);
    if b != 0.0 {
      if sxy == 0.0 {
        CancelFactor(b, 0.0, sxx);
        assert false;
      }
      assert r2 > 0.0;
    }
  }

  /** The least-squares slope leaves no larger residual sum of squares than any other slope. */
  lemma SlopeMinimisesResiduals(ps: seq<Point>, b: real)
    requires |ps| > 0 && Sxx(ps) != 0.0
    ensures ResidualSS(ps, Slope(ps)) <= ResidualSS(ps, b)
  {
    ResidualIsQuadratic(ps, Slope(ps));
    ResidualIsQuadratic(ps, b);
    DotSelfNonnegative(Centered(Xs(ps)));
    QuadraticMinimum(Sxx(ps), Sxy(ps), Syy(ps), Slope(ps), b);
  }

  /** The residual sum of squares of slope b, in terms of the three sums. */
  lemma ResidualIsQuadratic(ps: seq<Point>, b: real)
    requires |ps| > 0
    ensures ResidualSS(ps, b) == Quadratic(Sxx(ps), Sxy(ps), Syy(ps), b)
  {
    ResidualExpansion(Centered(Xs(ps)), Centered(Ys(ps)), b);
  }

  /** A quadratic with a nonnegative leading coefficient is smallest at its vertex. */
  lemma QuadraticMinimum(sxx: real, sxy: real, syy: real, s: real, b: real)
    requires sxx >= 0.0 && s * sxx == sxy
    ensures Quadratic(sxx, sxy, syy, s) <= Quadratic(sxx, sxy, syy, b)
  {
    SquareNonnegative(b - s);
    assert (syy - 2.0 * b * sxy + b * b * sxx) - (syy - 2.0 * s * sxy + s * s * sxx)
      == sxx * Square(b - s);
    assert sxx * Square(b - s) >= 0.0;
  }

  /**
   * r^2 is the share of the values' spread that the fitted line explains:
   * the residual sum of squares is the fraction 1 - r^2 of the total one.
   */
  lemma RSquaredIsExplainedVariance(ps: seq<Point>)
    requires |ps| > 0 && Sxx(ps) != 0.0 && Syy(ps) != 0.0
    ensures ResidualSS(ps, Slope(ps)) == (1.0 - RSquared(ps)) * Syy(ps)
  {
    ResidualIsQuadratic(ps, Slope(ps));
    RSquaredTimesSpread(ps);
    ExplainedArithmetic(Sxx(ps), Sxy(ps), Syy(ps), Slope(ps), RSquared(ps));
  }

  lemma ExplainedArithmetic(sxx: real, sxy: real, syy: real, s: real, r2: real)
    requires s * sxx == sxy && r2 * syy == s * sxy
    ensures Quadratic(sxx, sxy, syy, s) == (1.0 - r2) * syy
  {
    assert s * s * sxx == s * sxy;
  }

  /** A series whose present values are all equal scores exactly 0.0. */
  lemma ConstantSeriesScoresZero(y: Series, c: real)
    requires forall i :: 0 <= i < |y| && y[i].Some? ==> y[i].value == c
    ensures Score(y) == 0.0
  {
    var ps := ValidPoints(y);
    if |y| >= MinPoints && |ps| >= MinPoints {
      forall k | 0 <= k < |ps| ensures ps[k].value == ps[0].value {
        assert y[ps[k].index] == Some(ps[k].value);
        assert y[ps[0].index] == Some(ps[0].value);
      }
      DegenerateIffConstant(ps);
    }
  }

  /** Points on the line a + b * position, as coordinates. */
  lemma CollinearCoordinates(ps: seq<Point>, a: real, b: real)
    requires forall k :: 0 <= k < |ps| ==> ps[k].value == a + b * (ps[k].index as real)
    ensures forall i :: 0 <= i < |Xs(ps)| ==> Ys(ps)[i] == a + b * Xs(ps)[i]
  {
    var xs, ys := Xs(ps), Ys(ps);
    forall i | 0 <= i < |xs| ensures ys[i] == a + b * xs[i] {
      assert ys[i] == ps[i].value && xs[i] == ps[i].index as real;
    }
  }

  /** Points lying exactly on a line of nonzero slope b are fitted with slope b and r^2 = 1. */
  lemma CollinearFit(ps: seq<Point>, a: real, b: real)
    requires |ps| >= 2 && Ordered(ps)
    requires forall k :: 0 <= k < |ps| ==> ps[k].value == a + b * (ps[k].index as real)
    ensures b == 0.0 ==> Fit(ps).None?
    ensures b != 0.0 ==> Fit(ps) == Some(LineFit(b, 1.0))
  {
    CollinearCoordinates(ps, a, b);
    CenteredAffine(Xs(ps), Ys(ps), a, b);
    ScaledCovariance(Xs(ps), Ys(ps), b);
    ScaledSpread(Xs(ps), Ys(ps), b);
    SxxPositive(ps);
    if b != 0.0 {
      PerfectFitArithmetic(Sxx(ps), Sxy(ps), Syy(ps), b);
      CancelFactor(Slope(ps), b, Sxx(ps));
      RSquaredTimesSpread(ps);
      CancelFactor(RSquared(ps), 1.0, Syy(ps));
    }
  }

  lemma PerfectFitArithmetic(sxx: real, sxy: real, syy: real, b: real)
    requires sxx > 0.0 && b != 0.0 && sxy == b * sxx && syy == b * sxy
    ensures syy > 0.0
    ensures b * sxy == 1.0 * syy
  {
    SquareNonnegative(b);
    ProductPositive(Square(b), sxx);
    assert syy == Product(Square(b), sxx);
  }

  /**
   * Present values lying exactly on a line a + b * position score exactly b,
   * whatever entries are missing between them.
   */
  lemma CollinearSeriesScoresSlope(y: Series, a: real, b: real)
    requires PresentCount(y) >= MinPoints
    requires forall i :: 0 <= i < |y| && y[i].Some? ==> y[i].value == a + b * (i as real)
    ensures Score(y) == b
  {
    var ps := ValidPoints(y);
    forall k | 0 <= k < |ps| ensures ps[k].value == a + b * (ps[k].index as real) {
      assert y[ps[k].index] == Some(ps[k].value);
    }
    CollinearFit(ps, a, b);
  }

  /** A gap-free series of at least three values on a line a + b * position scores exactly b. */
  lemma CollinearValuesScoreSlope(vs: seq<real>, a: real, b: real)
    requires |vs| >= MinPoints
    requires forall i :: 0 <= i < |vs| ==> vs[i] == a + b * (i as real)
    ensures Score(AllPresent(vs)) == b
  {
    AllPresentCount(vs);
    CollinearSeriesScoresSlope(AllPresent(vs), a, b);
  }

  lemma {:induction false} AllPresentCount(vs: seq<real>)
    ensures PresentCount(AllPresent(vs)) == |vs|
  {
    if vs != [] {
      var y := AllPresent(vs);
      assert y[..|y| - 1] == AllPresent(vs[..|vs| - 1]);
      AllPresentCount(vs[..|vs| - 1]);
    }
  }

  /** Three present entries are enough for the scorer to fit a line. */
  lemma ThreePresentEntries(y: Series, i: nat, j: nat, k: nat)
    requires i < j < k < |y| && y[i].Some? && y[j].Some? && y[k].Some?
    ensures PresentCount(y) >= MinPoints
  {
    var ps := ValidPoints(y);
    ValidPointsComplete(y, i);
    ValidPointsComplete(y, j);
    ValidPointsComplete(y, k);
    var ki :| 0 <= ki < |ps| && ps[ki] == Point(i, y[i].value);
    var kj :| 0 <= kj < |ps| && ps[kj] == Point(j, y[j].value);
    var kk :| 0 <= kk < |ps| && ps[kk] == Point(k, y[k].value);
    PositionOrderIsIndexOrder(ps, ki, kj);
    PositionOrderIsIndexOrder(ps, kj, kk);
  }

  /** In a sequence of points with increasing positions, a smaller position comes first. */
  lemma PositionOrderIsIndexOrder(ps: seq<Point>, k: nat, l: nat)
    requires Ordered(ps) && k < |ps| && l < |ps| && ps[k].index < ps[l].index
    ensures k < l
  {
  }

  /** A steadily rising series, as in the unit tests: score exactly 1.0. */
  lemma RisingSeriesScoresOne()
    ensures Score(AllPresent([1.0, 2.0, 3.0, 4.0, 5.0])) == 1.0
  {
    var up := [1.0, 2.0, 3.0, 4.0, 5.0];
    forall i | 0 <= i < |up| ensures up[i] == 1.0 + 1.0 * (i as real) {
      if i == 0 {} else if i == 1 {} else if i == 2 {} else if i == 3 {} else {}
    }
    CollinearValuesScoreSlope(up, 1.0, 1.0);
  }

  /** A steadily falling series: score exactly -1.0. */
  lemma FallingSeriesScoresMinusOne()
    ensures Score(AllPresent([5.0, 4.0, 3.0, 2.0, 1.0])) == -1.0
  {
    var down := [5.0, 4.0, 3.0, 2.0, 1.0];
    forall i | 0 <= i < |down| ensures down[i] == 5.0 + -1.0 * (i as real) {
      if i == 0 {} else if i == 1 {} else if i == 2 {} else if i == 3 {} else {}
    }
    CollinearValuesScoreSlope(down, 5.0, -1.0);
  }

  /** Flat, too short, empty and all-missing series all score exactly 0.0. */
  lemma NoTrendScoresZero()
    ensures Score(AllPresent([3.0, 3.0, 3.0, 3.0])) == 0.0
    ensures Score(AllPresent([5.0, 6.0])) == 0.0
    ensures Score([]) == 0.0
    ensures Score([None, None, None]) == 0.0
  {
    ConstantSeriesScoresZero(AllPresent([3.0, 3.0, 3.0, 3.0]), 3.0);
    ConstantSeriesScoresZero([None, None, None], 0.0);
  }

  /**
   * Missing entries keep their gaps: 1, 2, 3 at positions 0, 2, 4 rise by
   * 0.5 per position, not by 1.0.
   */
  lemma GapsKeepPositions()
    ensures Score([Some(1.0), None, Some(2.0), None, Some(3.0)]) == 0.5
  {
    var gaps := [Some(1.0), None, Some(2.0), None, Some(3.0)];
    ThreePresentEntries(gaps, 0, 2, 4);
    forall i | 0 <= i < |gaps| && gaps[i].Some? ensures gaps[i].value == 1.0 + 0.5 * (i as real) {
      if i == 0 {} else if i == 1 {} else if i == 2 {} else if i == 3 {} else {}
    }
    CollinearSeriesScoresSlope(gaps, 1.0, 0.5);
  }

  /** 1..5 with a missing entry between each pair: positive, exactly 0.5. */
  lemma AlternatingGapsScoreHalf()
    ensures Score([Some(1.0), None, Some(2.0), None, Some(3.0), None, Some(4.0), None, Some(5.0)]) == 0.5
  {
    var alternating := [Some(1.0), None, Some(2.0), None, Some(3.0), None, Some(4.0), None, Some(5.0)];
    ThreePresentEntries(alternating, 0, 2, 4);
    forall i | 0 <= i < |alternating| && alternating[i].Some?
      ensures alternating[i].value == 1.0 + 0.5 * (i as real)
    {
      if i == 0 {} else if i == 1 {} else if i == 2 {} else if i == 3 {} else if i == 4 {}
      else if i == 5 {} else if i == 6 {} else if i == 7 {} else {}
    }
    CollinearSeriesScoresSlope(alternating, 1.0, 0.5);
  }
}
