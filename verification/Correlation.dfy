/**
  Return correlation in real arithmetic. Symbols are upper-cased tickers, here numbered in their
  sorted order; the square root is a parameter with its defining property.
 */
module Correlation {
  import opened Basics
  import opened Wrappers

  const MIN_OVERLAP: nat := 30

  ghost predicate IsSqrt(sqrt: real -> real) {
    forall x: real | x >= 0.0 :: sqrt(x) >= 0.0 && sqrt(x) * sqrt(x) == x
  }

  function Shorter(a: nat, b: nat): nat {
    if a <= b then a else b
  }

  function Sum(x: seq<real>): real {
    if |x| == 0 then 0.0 else Sum(x[..|x| - 1]) + x[|x| - 1]
  }

  function Dot(x: seq<real>, y: seq<real>): real
    requires |x| == |y|
  {
    if |x| == 0 then 0.0 else Dot(x[..|x| - 1], y[..|y| - 1]) + x[|x| - 1] * y[|y| - 1]
  }

  function Centered(x: seq<real>): (c: seq<real>)
    requires |x| > 0
    ensures |c| == |x|
  {
    var mean := Sum(x) / |x| as real;
    seq(|x|, i requires 0 <= i < |x| => x[i] - mean)
  }

  /** The covariance and the two variances over the overlapping tail, unscaled as in the source. */
  function Moments(a: seq<real>, b: seq<real>): (m: (real, real, real))
    requires |a| > 0 && |b| > 0
  {
    var n := Shorter(|a|, |b|);
    var x, y := Centered(a[|a| - n..]), Centered(b[|b| - n..]);
    (Dot(x, y), Dot(x, x), Dot(y, y))
  }

  /** r has the sign of the covariance and the square that the product of the variances demands. */
  predicate Squares(r: real, cov: real, product: real) {
    (r > 0.0 <==> cov > 0.0) && (r < 0.0 <==> cov < 0.0) && r * r * product == cov * cov
  }

  function Quotient(cov: real, vx: real, vy: real, sqrt: real -> real): (r: real)
    requires IsSqrt(sqrt) && vx > 0.0 && vy > 0.0 && cov * cov <= vx * vy
    ensures -1.0 <= r <= 1.0 && Squares(r, cov, vx * vy)
  {
    RatioInRange(cov, vx, vy, sqrt);
    QuotientMeans(cov, sqrt(vx * vy), vx * vy, cov / sqrt(vx * vy));
    cov / sqrt(vx * vy)
  }

  /** Abstains on a short overlap or a flat series; otherwise within [-1, 1]. */
  function Pearson(a: seq<real>, b: seq<real>, sqrt: real -> real): (r: Option<real>)
    requires IsSqrt(sqrt)
    ensures r.Some? <==> Shorter(|a|, |b|) >= MIN_OVERLAP && Moments(a, b).1 > 0.0 && Moments(a, b).2 > 0.0
    ensures r.Some? ==>
      -1.0 <= r.value <= 1.0 && Squares(r.value, Moments(a, b).0, Moments(a, b).1 * Moments(a, b).2)
  {
    if Shorter(|a|, |b|) < MIN_OVERLAP then None
    else
      var (cov, vx, vy) := Moments(a, b);
      if vx <= 0.0 || vy <= 0.0 then None
      else
        MomentsAreBounded(a, b);
        Some(Quotient(cov, vx, vy, sqrt))
  }

  // ---- Cauchy-Schwarz ----------------------------------------------------------------------------

  function Blend(p: real, x: seq<real>, q: real, y: seq<real>): (z: seq<real>)
    requires |x| == |y|
    ensures |z| == |x|
  {
    if |x| == 0 then []
    else Blend(p, x[..|x| - 1], q, y[..|y| - 1]) + [p * x[|x| - 1] + q * y[|y| - 1]]
  }

  lemma {:induction false} SquaresAreNonNegative(z: seq<real>)
    ensures Dot(z, z) >= 0.0
  {
    if |z| > 0 {
      SquaresAreNonNegative(z[..|z| - 1]);
      Square(z[|z| - 1]);
    }
  }

  lemma Square(a: real)
    ensures a * a >= 0.0
  {
  }

  lemma Expand(p: real, a: real, q: real, b: real)
    ensures (p * a + q * b) * (p * a + q * b) == p * p * (a * a) + 2.0 * (p * q) * (a * b) + q * q * (b * b)
  {
    var u, v := p * a, q * b;
    assert (u + v) * (u + v) == u * u + 2.0 * (u * v) + v * v;
    assert u * u == p * p * (a * a);
    assert v * v == q * q * (b * b);
    assert u * v == p * q * (a * b);
  }

  lemma Distribute(c: real, s: real, t: real)
    ensures c * (s + t) == c * s + c * t
  {
  }

  /** The quadratic form of a blend in the moments of the two series. */
  function Form(p: real, q: real, u: real, c: real, v: real): real {
    p * p * u + 2.0 * (p * q) * c + q * q * v
  }

  lemma Combine(p: real, q: real, u: real, c: real, v: real, a: real, b: real, z: real)
    requires z == p * a + q * b
    ensures Form(p, q, u, c, v) + z * z == Form(p, q, u + a * a, c + a * b, v + b * b)
  {
    Expand(p, a, q, b);
    Distribute(p * p, u, a * a);
    Distribute(2.0 * (p * q), c, a * b);
    Distribute(q * q, v, b * b);
  }

  lemma {:induction false} BlendSquared(p: real, x: seq<real>, q: real, y: seq<real>)
    requires |x| == |y|
    ensures Dot(Blend(p, x, q, y), Blend(p, x, q, y)) == Form(p, q, Dot(x, x), Dot(x, y), Dot(y, y))
  {
    if |x| > 0 {
      hide Form;
      var n := |x| - 1;
      var z := Blend(p, x, q, y);
      assert z[..n] == Blend(p, x[..n], q, y[..n]) && z[n] == p * x[n] + q * y[n];
      BlendSquared(p, x[..n], q, y[..n]);
      Combine(p, q, Dot(x[..n], x[..n]), Dot(x[..n], y[..n]), Dot(y[..n], y[..n]), x[n], y[n], z[n]);
    }
  }

  lemma {:induction false} ZeroSquares(y: seq<real>, x: seq<real>)
    requires |x| == |y| && Dot(y, y) == 0.0
    ensures Dot(x, y) == 0.0
  {
    if |y| > 0 {
      var n := |y| - 1;
      SquaresAreNonNegative(y[..n]);
      Square(y[n]);
      if y[n] != 0.0 {
        NonZeroSquare(y[n]);
      }
      ZeroSquares(y[..n], x[..n]);
    }
  }

  lemma PositiveSquare(a: real)
    requires a > 0.0
    ensures a * a > 0.0
  {
  }

  lemma NonZeroSquare(a: real)
    requires a != 0.0
    ensures a * a > 0.0
  {
    var b := if a > 0.0 then a else -a;
    PositiveSquare(b);
    assert b * b == a * a;
  }

  lemma Discriminant(c: real, u: real, v: real, d: real)
    requires v > 0.0 && d >= 0.0 && d == Form(v, -c, u, c, v)
    ensures c * c <= u * v
  {
    Collect(c, u, v);
    Cancel(u * v - c * c, v);
  }

  /** The square of the covariance never exceeds the product of the variances, for any two series. */
  lemma CauchySchwarz(x: seq<real>, y: seq<real>)
    requires |x| == |y|
    ensures Dot(x, y) * Dot(x, y) <= Dot(x, x) * Dot(y, y)
  {
    hide Dot, Blend, Form;
    var c, u, v := Dot(x, y), Dot(x, x), Dot(y, y);
    SquaresAreNonNegative(y);
    if v == 0.0 {
      ZeroSquares(y, x);
    } else {
      var z := Blend(v, x, -c, y);
      BlendSquared(v, x, -c, y);
      SquaresAreNonNegative(z);
      Discriminant(c, u, v, Dot(z, z));
    }
  }

  lemma Collect(c: real, u: real, v: real)
    ensures Form(v, -c, u, c, v) == v * (u * v - c * c)
  {
    var k := c * c;
    assert 2.0 * (v * -c) * c == -2.0 * (v * k);
    assert -c * -c * v == v * k;
    assert v * (u * v - k) == v * (u * v) - v * k;
    assert v * v * u == v * (u * v);
  }

  lemma Cancel(a: real, v: real)
    requires v > 0.0 && v * a >= 0.0
    ensures a >= 0.0
  {
  }

  lemma Ratio(cov: real, root: real)
    requires root > 0.0 && cov * cov <= root * root
    ensures -1.0 <= cov / root <= 1.0
  {
    var r := cov / root;
    assert r * root == cov;
    if cov > root {
      Scale(root, cov, root);
      Scale(root, cov, cov);
    }
    if cov < -root {
      Scale(root, -cov, root);
      Scale(root, -cov, -cov);
    }
    if r > 1.0 {
      Scale(1.0, r, root);
    }
    if r < -1.0 {
      Scale(r, -1.0, root);
    }
  }

  lemma MomentsAreBounded(a: seq<real>, b: seq<real>)
    requires |a| > 0 && |b| > 0
    ensures var (cov, vx, vy) := Moments(a, b); cov * cov <= vx * vy
  {
    hide Dot, Centered;
    var n := Shorter(|a|, |b|);
    CauchySchwarz(Centered(a[|a| - n..]), Centered(b[|b| - n..]));
  }

  lemma RatioInRange(cov: real, vx: real, vy: real, sqrt: real -> real)
    requires IsSqrt(sqrt) && vx > 0.0 && vy > 0.0 && cov * cov <= vx * vy
    ensures sqrt(vx * vy) > 0.0 && -1.0 <= cov / sqrt(vx * vy) <= 1.0
  {
    Scale(0.0, vx, vy);
    var root := sqrt(vx * vy);
    assert root * root == vx * vy && root >= 0.0;
    Ratio(cov, root);
  }

  lemma QuotientMeans(cov: real, root: real, product: real, r: real)
    requires root > 0.0 && root * root == product && r == cov / root
    ensures Squares(r, cov, product)
  {
    assert r * root == cov;
    assert r * r * (root * root) == (r * root) * (r * root);
    if r > 0.0 {
      Scale(0.0, r, root);
    } else if r < 0.0 {
      Scale(r, 0.0, root);
    }
  }

  // ---- What a coefficient means ------------------------------------------------------------------

  /** The first k of the last n returns, added up. */
  function TailSum(a: seq<real>, n: nat, k: nat): real
    requires k <= n <= |a|
  {
    if k == 0 then 0.0 else TailSum(a, n, k - 1) + a[|a| - n + k - 1]
  }

  /** How far the i-th of the last n returns lies above their mean. */
  function Deviation(a: seq<real>, n: nat, i: nat): real
    requires i < n <= |a|
  {
    a[|a| - n + i] - TailSum(a, n, n) / n as real
  }

  /** The products of the deviations of two series, added up over the first k of the last n returns. */
  function CoSum(a: seq<real>, b: seq<real>, n: nat, k: nat): real
    requires k <= n <= |a| && n <= |b|
  {
    if k == 0 then 0.0 else CoSum(a, b, n, k - 1) + Deviation(a, n, k - 1) * Deviation(b, n, k - 1)
  }

  /** The unscaled covariance of the last n returns; of a series with itself, the unscaled variance. */
  function Covariance(a: seq<real>, b: seq<real>, n: nat): real
    requires n <= |a| && n <= |b|
  {
    CoSum(a, b, n, n)
  }

  /**
    A correlation of two series: there is one from thirty shared returns on when both series vary; it
    has the sign of their covariance and the square that the covariance and the variances demand.
   */
  ghost predicate Correlates(a: seq<real>, b: seq<real>, r: Option<real>) {
    var n := if |a| <= |b| then |a| else |b|;
    var cov, vx, vy := Covariance(a, b, n), Covariance(a, a, n), Covariance(b, b, n);
    && (r.Some? <==> n >= 30 && vx > 0.0 && vy > 0.0)
    && (r.Some? ==> -1.0 <= r.value <= 1.0 && Squares(r.value, cov, vx * vy))
  }

  lemma {:induction false} SumIsTail(a: seq<real>, n: nat, k: nat)
    requires k <= n <= |a|
    ensures Sum(a[|a| - n..][..k]) == TailSum(a, n, k)
  {
    if k > 0 {
      var x := a[|a| - n..];
      assert x[..k][..k - 1] == x[..k - 1];
      SumIsTail(a, n, k - 1);
    }
  }

  lemma CenteredIsDeviation(a: seq<real>, n: nat, i: nat)
    requires i < n <= |a|
    ensures Centered(a[|a| - n..])[i] == Deviation(a, n, i)
  {
    SumIsTail(a, n, n);
    assert a[|a| - n..][..n] == a[|a| - n..];
  }

  lemma {:induction false} DotIsCoSum(a: seq<real>, b: seq<real>, n: nat, k: nat)
    requires k <= n <= |a| && n <= |b| && n > 0
    ensures Dot(Centered(a[|a| - n..])[..k], Centered(b[|b| - n..])[..k]) == CoSum(a, b, n, k)
  {
    hide Centered, Deviation;
    if k > 0 {
      var x, y := Centered(a[|a| - n..]), Centered(b[|b| - n..]);
      assert x[..k][..k - 1] == x[..k - 1] && y[..k][..k - 1] == y[..k - 1];
      DotIsCoSum(a, b, n, k - 1);
      CenteredIsDeviation(a, n, k - 1);
      CenteredIsDeviation(b, n, k - 1);
    }
  }

  lemma MomentsAreCovariances(a: seq<real>, b: seq<real>)
    requires |a| > 0 && |b| > 0
    ensures var n := if |a| <= |b| then |a| else |b|;
            Moments(a, b) == (Covariance(a, b, n), Covariance(a, a, n), Covariance(b, b, n))
  {
    hide Centered, Dot, CoSum;
    var n := if |a| <= |b| then |a| else |b|;
    var x, y := Centered(a[|a| - n..]), Centered(b[|b| - n..]);
    assert x[..n] == x && y[..n] == y;
    DotIsCoSum(a, b, n, n);
    DotIsCoSum(a, a, n, n);
    DotIsCoSum(b, b, n, n);
  }

  /** The coefficient computed is the correlation of the two series. */
  lemma PearsonCorrelates(a: seq<real>, b: seq<real>, sqrt: real -> real)
    requires IsSqrt(sqrt)
    ensures Correlates(a, b, Pearson(a, b, sqrt))
  {
    hide Covariance, Moments;
    if Shorter(|a|, |b|) >= 30 {
      MomentsAreCovariances(a, b);
    }
  }

  /** There is only one. */
  lemma CorrelationIsUnique(a: seq<real>, b: seq<real>, r: Option<real>, q: Option<real>)
    requires Correlates(a, b, r) && Correlates(a, b, q)
    ensures r == q
  {
    hide Covariance;
    if r.Some? {
      var n := if |a| <= |b| then |a| else |b|;
      Scale(0.0, Covariance(a, a, n), Covariance(b, b, n));
      SquaresAgree(r.value, q.value, Covariance(a, b, n), Covariance(a, a, n) * Covariance(b, b, n));
    }
  }

  lemma SquaresAgree(r: real, q: real, cov: real, product: real)
    requires product > 0.0 && Squares(r, cov, product) && Squares(q, cov, product)
    ensures r == q
  {
    if r * r < q * q {
      Scale(r * r, q * q, product);
    } else if q * q < r * r {
      Scale(q * q, r * r, product);
    } else {
      SameSquare(r, q);
    }
  }

  lemma SameSquare(r: real, q: real)
    requires r * r == q * q && (r > 0.0 <==> q > 0.0) && (r < 0.0 <==> q < 0.0)
    ensures r == q
  {
    var x, y := if r < 0.0 then -r else r, if q < 0.0 then -q else q;
    assert x * x == r * r && y * y == q * q;
    if x < y {
      SquareRises(x, y);
    } else if y < x {
      SquareRises(y, x);
    }
  }

  lemma SquareRises(x: real, y: real)
    requires 0.0 <= x < y
    ensures x * x < y * y
  {
    Scale(x, y, x + y);
  }

  /** A series that varies moves exactly with itself. */
  lemma SelfCorrelation(a: seq<real>, sqrt: real -> real)
    requires IsSqrt(sqrt) && Pearson(a, a, sqrt).Some?
    ensures Pearson(a, a, sqrt) == Some(1.0)
  {
    hide Covariance, Moments, Pearson;
    PearsonCorrelates(a, a, sqrt);
    var v := Covariance(a, a, |a|);
    Scale(0.0, v, v);
    CorrelationIsUnique(a, a, Pearson(a, a, sqrt), Some(1.0));
  }

  /** The order of the two series does not matter. */
  lemma CorrelationIsSymmetric(a: seq<real>, b: seq<real>, sqrt: real -> real)
    requires IsSqrt(sqrt)
    ensures Pearson(a, b, sqrt) == Pearson(b, a, sqrt)
  {
    hide Quotient, Moments;
    if |a| > 0 && |b| > 0 {
      MomentsAreSwapped(a, b);
      if Pearson(a, b, sqrt).Some? {
        var m := Moments(a, b);
        MomentsAreBounded(a, b);
        QuotientIsSymmetric(m.0, m.1, m.2, sqrt);
      }
    }
  }

  lemma QuotientIsSymmetric(cov: real, vx: real, vy: real, sqrt: real -> real)
    requires IsSqrt(sqrt) && vx > 0.0 && vy > 0.0 && cov * cov <= vx * vy
    ensures Quotient(cov, vx, vy, sqrt) == Quotient(cov, vy, vx, sqrt)
  {
    assert vx * vy == vy * vx;
  }

  lemma MomentsAreSwapped(a: seq<real>, b: seq<real>)
    requires |a| > 0 && |b| > 0
    ensures Moments(b, a) == (Moments(a, b).0, Moments(a, b).2, Moments(a, b).1)
  {
    var n := Shorter(|a|, |b|);
    CoSumIsSymmetric(a, b, n, n);
    MomentsAreCovariances(a, b);
    MomentsAreCovariances(b, a);
    hide Moments;
  }

  lemma {:induction false} CoSumIsSymmetric(a: seq<real>, b: seq<real>, n: nat, k: nat)
    requires k <= n <= |a| && n <= |b|
    ensures CoSum(a, b, n, k) == CoSum(b, a, n, k)
  {
    hide Deviation;
    if k > 0 {
      CoSumIsSymmetric(a, b, n, k - 1);
    }
  }

  function Negated(a: seq<real>): (b: seq<real>)
    ensures |b| == |a| && forall i | 0 <= i < |a| :: b[i] == -a[i]
  {
    seq(|a|, i requires 0 <= i < |a| => -a[i])
  }

  lemma {:induction false} TailSumOfNegated(a: seq<real>, n: nat, k: nat)
    requires k <= n <= |a|
    ensures TailSum(Negated(a), n, k) == -TailSum(a, n, k)
  {
    if k > 0 {
      TailSumOfNegated(a, n, k - 1);
    }
  }

  lemma DeviationOfNegated(a: seq<real>, n: nat, i: nat)
    requires i < n <= |a|
    ensures Deviation(Negated(a), n, i) == -Deviation(a, n, i)
  {
    TailSumOfNegated(a, n, n);
    NegatedRatio(TailSum(a, n, n), n as real);
  }

  lemma NegatedRatio(t: real, n: real)
    requires n > 0.0
    ensures (-t) / n == -(t / n)
  {
  }

  lemma {:induction false} CoSumOfNegated(a: seq<real>, b: seq<real>, n: nat, k: nat)
    requires k <= n <= |a| && n <= |b|
    ensures CoSum(a, Negated(b), n, k) == -CoSum(a, b, n, k)
    ensures CoSum(Negated(b), Negated(b), n, k) == CoSum(b, b, n, k)
  {
    hide Deviation;
    if k > 0 {
      CoSumOfNegated(a, b, n, k - 1);
      DeviationOfNegated(b, n, k - 1);
      NegatedFactor(Deviation(a, n, k - 1), Deviation(b, n, k - 1));
      NegatedFactor(Deviation(b, n, k - 1), Deviation(b, n, k - 1));
    }
  }

  lemma NegatedFactor(x: real, y: real)
    ensures x * -y == -(x * y) && -y * -y == y * y
  {
  }

  lemma MomentsOfNegated(a: seq<real>, b: seq<real>)
    requires |a| > 0 && |b| > 0
    ensures Moments(a, Negated(b)) == (-Moments(a, b).0, Moments(a, b).1, Moments(a, b).2)
  {
    var n := Shorter(|a|, |b|);
    CoSumOfNegated(a, b, n, n);
    MomentsAreCovariances(a, b);
    MomentsAreCovariances(a, Negated(b));
    hide Moments;
  }

  lemma QuotientOfNegated(cov: real, vx: real, vy: real, sqrt: real -> real)
    requires IsSqrt(sqrt) && vx > 0.0 && vy > 0.0 && cov * cov <= vx * vy
    ensures -cov * -cov <= vx * vy
    ensures Quotient(-cov, vx, vy, sqrt) == -Quotient(cov, vx, vy, sqrt)
  {
    NegatedFactor(cov, cov);
    RatioInRange(cov, vx, vy, sqrt);
    NegatedRatio(cov, sqrt(vx * vy));
  }

  /** Turning one series upside down turns the coefficient. */
  lemma CorrelationOfNegated(a: seq<real>, b: seq<real>, sqrt: real -> real)
    requires IsSqrt(sqrt)
    ensures Pearson(a, Negated(b), sqrt) ==
            match Pearson(a, b, sqrt) case None => None case Some(r) => Some(-r)
  {
    hide Quotient, Moments;
    if |a| > 0 && |b| > 0 {
      MomentsOfNegated(a, b);
      if Pearson(a, b, sqrt).Some? {
        var m := Moments(a, b);
        MomentsAreBounded(a, b);
        QuotientOfNegated(m.0, m.1, m.2, sqrt);
      }
    }
  }
}
