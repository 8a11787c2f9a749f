/**
 * Finite sums over sequences of reals: the arithmetic an ordinary
 * least-squares fit is made of. Everything is exact (Dafny `real` is the
 * rationals), so the fit needs no square root: the coefficient of
 * determination is stated directly as a ratio of sums.
 */
module RealSums {

  /** Sum of the elements, left to right. */
  function Sum(s: seq<real>): real
  {
    if s == [] then 0.0 else s[0] + Sum(s[1..])
  }

  /** Sum of the pairwise products of two sequences of equal length. */
  function Dot(a: seq<real>, b: seq<real>): real
    requires |a| == |b|
  {
    if a == [] then 0.0 else a[0] * b[0] + Dot(a[1..], b[1..])
  }

  /** Arithmetic mean. */
  function Mean(s: seq<real>): real
    requires |s| > 0
  {
    Sum(s) / (|s| as real)
  }

  /** The mean, characterised without the division: n copies of it make the sum. */
  lemma MeanTimesLength(s: seq<real>)
    requires |s| > 0
    ensures Mean(s) * (|s| as real) == Sum(s)
  {
  }

  /** Each element minus the mean: the deviations an OLS fit works on. */
  function Centered(s: seq<real>): (d: seq<real>)
    requires |s| > 0
    ensures |d| == |s|
    ensures forall i :: 0 <= i < |s| ==> d[i] + Mean(s) == s[i]
  {
    var m := Mean(s);
    seq(|s|, i requires 0 <= i < |s| => s[i] - m)
  }

  /** Sum of the products of the deviations of xs and ys from their means. */
  function Covariance(xs: seq<real>, ys: seq<real>): real
    requires |xs| == |ys| > 0
  {
    Dot(Centered(xs), Centered(ys))
  }

  /**
   * Sum of squared residuals of the line through the origin with slope `t`
   * fitted to the points (a[i], b[i]).
   */
  function SquaredResiduals(a: seq<real>, b: seq<real>, t: real): (r: real)
    requires |a| == |b|
    ensures r >= 0.0
  {
    if a == [] then 0.0
    else
      SquareNonnegative(b[0] - t * a[0]);
      Square(b[0] - t * a[0]) + SquaredResiduals(a[1..], b[1..], t)
  }

  /** A sum of squares is never negative. */
  lemma {:induction false} DotSelfNonnegative(a: seq<real>)
    ensures Dot(a, a) >= 0.0
  {
    if a != [] {
      DotSelfNonnegative(a[1..]);
      SquareNonnegative(a[0]);
    }
  }

  /** A sum of squares is positive as soon as one term is nonzero. */
  lemma {:induction false} DotSelfPositive(a: seq<real>, i: nat)
    requires i < |a| && a[i] != 0.0
    ensures Dot(a, a) > 0.0
  {
    DotSelfNonnegative(a[1..]);
    SquareNonnegative(a[0]);
    if i > 0 {
      DotSelfPositive(a[1..], i - 1);
    }
  }

  /** A sum of squares vanishes only when every term does. */
  lemma DotSelfZero(a: seq<real>)
    requires Dot(a, a) == 0.0
    ensures forall i :: 0 <= i < |a| ==> a[i] == 0.0
  {
    forall i | 0 <= i < |a| ensures a[i] == 0.0 {
      if a[i] != 0.0 {
        DotSelfPositive(a, i);
      }
    }
  }

  function Square(x: real): real { x * x }

  function Product(a: real, b: real): real { a * b }

  /** The product of two numbers of the same strict sign is positive. */
  lemma ProductPositive(a: real, b: real)
    requires (a > 0.0 && b > 0.0) || (a < 0.0 && b < 0.0)
    ensures Product(a, b) > 0.0
  {
    if a < 0.0 {
      assert a * b == (-a) * (-b);
      assert (-a) * (-b) > 0.0;
    }
  }

  /** A square is never negative, and positive unless its root is zero. */
  lemma SquareNonnegative(x: real)
    ensures Square(x) >= 0.0
    ensures x != 0.0 ==> Square(x) > 0.0
  {
    if x != 0.0 {
      ProductPositive(x, x);
    }
  }

  /** Pairing with an all-zero sequence gives zero. */
  lemma {:induction false} DotZeroLeft(a: seq<real>, b: seq<real>)
    requires |a| == |b|
    requires forall i :: 0 <= i < |a| ==> a[i] == 0.0
    ensures Dot(a, b) == 0.0
  {
    if a != [] {
      DotZeroLeft(a[1..], b[1..]);
    }
  }

  /** Scaling the right-hand sequence scales the sum of products. */
  lemma {:induction false} DotScaleRight(a: seq<real>, b: seq<real>, c: seq<real>, k: real)
    requires |a| == |b| == |c|
    requires forall i :: 0 <= i < |c| ==> c[i] == k * b[i]
    ensures Dot(a, c) == k * Dot(a, b)
  {
    if a != [] {
      DotScaleRight(a[1..], b[1..], c[1..], k);
      assert a[0] * c[0] == k * (a[0] * b[0]);
    }
  }

  /** Scaling the left-hand sequence scales the sum of products. */
  lemma {:induction false} DotScaleLeft(b: seq<real>, c: seq<real>, a: seq<real>, k: real)
    requires |a| == |b| == |c|
    requires forall i :: 0 <= i < |c| ==> c[i] == k * b[i]
    ensures Dot(c, a) == k * Dot(b, a)
  {
    if a != [] {
      DotScaleLeft(b[1..], c[1..], a[1..], k);
      assert c[0] * a[0] == k * (b[0] * a[0]);
    }
  }

  lemma {:induction false} DotSymmetric(a: seq<real>, b: seq<real>)
    requires |a| == |b|
    ensures Dot(a, b) == Dot(b, a)
  {
    if a != [] {
      DotSymmetric(a[1..], b[1..]);
    }
  }

  /** The quadratic Sbb - 2 t Sab + t^2 Saa in the slope t. */
  function Quadratic(saa: real, sab: real, sbb: real, t: real): real
  {
    sbb - 2.0 * t * sab + t * t * saa
  }

  /**
   * The residual sum of squares is a quadratic in the slope:
   * sum (b - t a)^2 == Sbb - 2 t Sab + t^2 Saa.
   */
  lemma {:induction false} ResidualExpansion(a: seq<real>, b: seq<real>, t: real)
    requires |a| == |b|
    ensures SquaredResiduals(a, b, t) == Quadratic(Dot(a, a), Dot(a, b), Dot(b, b), t)
  {
    if a == [] {
      assert Quadratic(0.0, 0.0, 0.0, t) == 0.0;
    } else {
      var x, y := a[0], b[0];
      var saa, sab, sbb := Dot(a[1..], a[1..]), Dot(a[1..], b[1..]), Dot(b[1..], b[1..]);
      assert Dot(a, a) == x * x + saa && Dot(a, b) == x * y + sab && Dot(b, b) == y * y + sbb;
      ResidualExpansion(a[1..], b[1..], t);
      QuadraticStep(x, y, t, saa, sab, sbb);
    }
  }

  /** Adding the point (x, y) adds its squared residual to the quadratic. */
  lemma QuadraticStep(x: real, y: real, t: real, saa: real, sab: real, sbb: real)
    ensures Quadratic(x * x + saa, x * y + sab, y * y + sbb, t)
      == Square(y - t * x) + Quadratic(saa, sab, sbb, t)
  {
    assert (y - t * x) * (y - t * x) == y * y - 2.0 * t * (x * y) + t * t * (x * x);
  }

  /** Cauchy-Schwarz: Sab^2 <= Saa * Sbb. */
  lemma CauchySchwarz(a: seq<real>, b: seq<real>)
    requires |a| == |b|
    ensures Square(Dot(a, b)) <= Product(Dot(a, a), Dot(b, b))
  {
    DotSelfNonnegative(a);
    DotSelfNonnegative(b);
    var saa, sab, sbb := Dot(a, a), Dot(a, b), Dot(b, b);
    if saa == 0.0 {
      DotSelfZero(a);
      DotZeroLeft(a, b);
    } else {
      var t := sab / saa;
      ResidualExpansion(a, b, t);
      DiscriminantArithmetic(saa, sab, sbb, t);
    }
  }

  /**
   * A quadratic that is never negative at its vertex t = sab / saa has a
   * nonpositive discriminant: sab^2 <= saa * sbb.
   */
  lemma DiscriminantArithmetic(saa: real, sab: real, sbb: real, t: real)
    requires saa > 0.0 && t * saa == sab && Quadratic(saa, sab, sbb, t) >= 0.0
    ensures Square(sab) <= Product(saa, sbb)
  {
    assert Quadratic(saa, sab, sbb, t) == sbb - t * sab;
    assert (sbb - t * sab) * saa >= 0.0;
    assert (sbb - t * sab) * saa == sbb * saa - sab * sab;
  }

  /**
   * The points (xs[i], ys[i]) all lie on the line y = p + q x, and then so do
   * their means, and the deviations of ys are q times those of xs.
   */
  lemma {:induction false} SumAffine(xs: seq<real>, ys: seq<real>, p: real, q: real)
    requires |xs| == |ys|
    requires forall i :: 0 <= i < |xs| ==> ys[i] == p + q * xs[i]
    ensures Sum(ys) == (|xs| as real) * p + q * Sum(xs)
  {
    if xs != [] {
      SumAffine(xs[1..], ys[1..], p, q);
    }
  }

  lemma MeanAffine(xs: seq<real>, ys: seq<real>, p: real, q: real)
    requires |xs| == |ys| > 0
    requires forall i :: 0 <= i < |xs| ==> ys[i] == p + q * xs[i]
    ensures Mean(ys) == p + q * Mean(xs)
  {
    var n := |xs| as real;
    var mx, my := Mean(xs), Mean(ys);
    SumAffine(xs, ys, p, q);
    MeanTimesLength(xs);
    MeanTimesLength(ys);
    assert my * n == n * p + q * (mx * n);
    assert (my - (p + q * mx)) * n == 0.0;
  }

  /** Every element multiplied by k. */
  function Scaled(k: real, s: seq<real>): (r: seq<real>)
    ensures |r| == |s|
    ensures forall i :: 0 <= i < |s| ==> r[i] == k * s[i]
  {
    seq(|s|, i requires 0 <= i < |s| => k * s[i])
  }

  lemma CenteredAffine(xs: seq<real>, ys: seq<real>, p: real, q: real)
    requires |xs| == |ys| > 0
    requires forall i :: 0 <= i < |xs| ==> ys[i] == p + q * xs[i]
    ensures Centered(ys) == Scaled(q, Centered(xs))
  {
    MeanAffine(xs, ys, p, q);
    var cx, cy := Centered(xs), Centered(ys);
    forall i | 0 <= i < |xs| ensures cy[i] == q * cx[i] {
      assert cy[i] == ys[i] - Mean(ys);
      assert cx[i] == xs[i] - Mean(xs);
    }
    PointwiseScaled(cx, cy, q);
  }

  /** Pointwise multiples make the scaled sequence. */
  lemma PointwiseScaled(cx: seq<real>, cy: seq<real>, q: real)
    requires |cx| == |cy|
    requires forall i :: 0 <= i < |cx| ==> cy[i] == q * cx[i]
    ensures cy == Scaled(q, cx)
  {
  }

  /**
   * Deviations q times those of xs: the covariance with xs is q times the
   * spread of xs.
   */
  lemma ScaledCovariance(xs: seq<real>, ys: seq<real>, q: real)
    requires |xs| == |ys| > 0 && Centered(ys) == Scaled(q, Centered(xs))
    ensures Covariance(xs, ys) == q * Covariance(xs, xs)
  {
    var cx := Centered(xs);
    DotScaleRight(cx, cx, Centered(ys), q);
  }

  /**
   * Deviations q times those of xs: the spread of ys is q times its
   * covariance with xs.
   */
  lemma ScaledSpread(xs: seq<real>, ys: seq<real>, q: real)
    requires |xs| == |ys| > 0 && Centered(ys) == Scaled(q, Centered(xs))
    ensures Covariance(ys, ys) == q * Covariance(xs, ys)
  {
    SelfScaled(Centered(xs), Centered(ys), q);
  }

  /** A sequence q times another: its sum of squares is q times their sum of products. */
  lemma SelfScaled(cx: seq<real>, cy: seq<real>, q: real)
    requires cy == Scaled(q, cx)
    ensures Dot(cy, cy) == q * Dot(cx, cy)
  {
    DotScaleLeft(cx, cy, cy, q);
  }

  /**
   * Multiplying by a fraction in [0, 1] keeps the sign and does not increase
   * the magnitude; a positive fraction keeps a nonzero number nonzero.
   */
  lemma ScaleByFraction(s: real, f: real)
    requires 0.0 <= f <= 1.0
    ensures 0.0 <= s ==> 0.0 <= s * f <= s
    ensures s <= 0.0 ==> s <= s * f <= 0.0
    ensures f > 0.0 && s > 0.0 ==> s * f > 0.0
    ensures f > 0.0 && s < 0.0 ==> s * f < 0.0
  {
    if s >= 0.0 {
      assert s * f <= s * 1.0;
    } else {
      assert s * f >= s * 1.0;
    }
    if f > 0.0 && s > 0.0 {
      ProductPositive(s, f);
    }
    if f > 0.0 && s < 0.0 {
      ProductPositive(-s, f);
      assert s * f == -Product(-s, f);
    }
  }

  /** A nonzero factor can be cancelled from both sides of an equation. */
  lemma CancelFactor(u: real, v: real, w: real)
    requires w != 0.0 && u * w == v * w
    ensures u == v
  {
    assert (u - v) * w == 0.0;
    if u > v {
      if w > 0.0 { ProductPositive(u - v, w); } else { ProductPositive(v - u, -w); }
    } else if u < v {
      if w > 0.0 { ProductPositive(v - u, w); } else { ProductPositive(u - v, -w); }
    }
  }
}
