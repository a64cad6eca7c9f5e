/** Sums over samples, and the two-pass definitions that the running sums are measured against. */
module Statistics {
  import opened Common

  // Products are named so that a proof about sequences can hide them and leave the algebra to
  // lemmas about plain numbers.
  function Times(a: real, b: real): real {
    a * b
  }

  function Sum(xs: seq<real>): real {
    if xs == [] then 0.0 else Sum(ButLast(xs)) + Last(xs)
  }

  function Squares(xs: seq<real>): seq<real> {
    seq(|xs|, i requires 0 <= i < |xs| => Times(xs[i], xs[i]))
  }

  function SumOfSquares(xs: seq<real>): real {
    Sum(Squares(xs))
  }

  function Gaps(xs: seq<real>, c: real): seq<real> {
    seq(|xs|, i requires 0 <= i < |xs| => Times(xs[i] - c, xs[i] - c))
  }

  /** The sum of the squared distances from c: the second pass of the two-pass variance. */
  function Scatter(xs: seq<real>, c: real): real {
    Sum(Gaps(xs, c))
  }

  function Mean(xs: seq<real>): real
    requires xs != []
  {
    Sum(xs) / |xs| as real
  }

  function PopulationVariance(xs: seq<real>): real
    requires xs != []
  {
    Scatter(xs, Mean(xs)) / |xs| as real
  }

  /** The unbiased estimate: the divisor is one less than the number of samples. */
  function SampleVariance(xs: seq<real>): real
    requires |xs| > 1
  {
    Scatter(xs, Mean(xs)) / (|xs| - 1) as real
  }

  ghost predicate Within(xs: seq<real>, lo: real, hi: real) {
    forall i :: 0 <= i < |xs| ==> lo <= xs[i] <= hi
  }

  // ---- plain algebra ----

  lemma TimesSigns(a: real, b: real)
    ensures a >= 0.0 && b >= 0.0 ==> Times(a, b) >= 0.0
    ensures Times(-a, -b) == Times(a, b)
    ensures Times(a, b) == 0.0 ==> a == 0.0 || b == 0.0
  {
  }

  lemma SquareNonNegative(d: real)
    ensures Times(d, d) >= 0.0
    ensures Times(d, d) == 0.0 <==> d == 0.0
  {
    TimesSigns(d, d);
    TimesSigns(-d, -d);
  }

  lemma Quotient(a: real, n: real)
    requires n > 0.0
    ensures a / n * n == a
    ensures a >= 0.0 <==> a / n >= 0.0
    ensures a == 0.0 <==> a / n == 0.0
  {
  }

  lemma QuotientBetween(a: real, n: real, lo: real, hi: real)
    requires n > 0.0 && Times(lo, n) <= a <= Times(hi, n)
    ensures lo <= a / n <= hi
  {
    Quotient(a, n);
    OrderTimes(lo, a / n, n);
    OrderTimes(a / n, hi, n);
  }

  lemma OrderTimes(a: real, b: real, n: real)
    requires n > 0.0
    ensures a <= b <==> a * n <= b * n
  {
  }

  lemma OneMore(a: real, n: real)
    ensures Times(a, n + 1.0) == Times(a, n) + a
  {
  }

  /** The value of sum (x - c)^2 in terms of the count n, the sum s and the sum of squares q. */
  function Expansion(n: real, s: real, q: real, c: real): real {
    q - 2.0 * c * s + n * c * c
  }

  lemma ExpansionStep(n: real, s: real, q: real, c: real, x: real)
    ensures Expansion(n + 1.0, s + x, q + Times(x, x), c) == Expansion(n, s, q, c) + Times(x - c, x - c)
  {
  }

  lemma OnePassAlgebra(n: real, s: real, q: real)
    requires n > 0.0
    ensures n * q - s * s == n * Expansion(n, s, q, s / n)
    ensures q / n - s / n * (s / n) == Expansion(n, s, q, s / n) / n
  {
    var m := s / n;
    assert m * n == s;
  }

  /** The value of sum (hi - x)(x - lo) in terms of the count, the sum and the sum of squares. */
  function Band(n: real, s: real, q: real, lo: real, hi: real): real {
    (lo + hi) * s - q - n * lo * hi
  }

  lemma BandStep(n: real, s: real, q: real, lo: real, hi: real, x: real)
    requires lo <= x <= hi
    ensures Band(n + 1.0, s + x, q + Times(x, x), lo, hi) >= Band(n, s, q, lo, hi)
  {
    assert (hi - x) * (x - lo) >= 0.0;
  }

  lemma Midpoint(u: real, v: real)
    ensures u * v <= (u + v) * (u + v) / 4.0
  {
    assert (u - v) * (u - v) >= 0.0;
  }

  lemma BandAlgebra(n: real, s: real, q: real, lo: real, hi: real)
    requires n > 0.0
    requires Band(n, s, q, lo, hi) >= 0.0
    ensures q / n - s / n * (s / n) <= Times(hi - s / n, s / n - lo)
    ensures Times(hi - s / n, s / n - lo) <= Times(hi - lo, hi - lo) / 4.0
  {
    var m, r := s / n, q / n;
    var z := (lo + hi) * m - r - lo * hi;
    assert z * n == (lo + hi) * (m * n) - r * n - n * (lo * hi);
    assert m * n == s && r * n == q;
    assert n * (lo * hi) == n * lo * hi;
    OrderTimes(0.0, z, n);
    assert (hi - m) * (m - lo) == (lo + hi) * m - m * m - lo * hi by {
      assert (hi - m) * (m - lo) == hi * m - hi * lo - m * m + m * lo;
    }
    Midpoint(hi - m, m - lo);
    assert (hi - m) + (m - lo) == hi - lo;
  }

  // ---- sums over sequences ----

  lemma {:induction false} SumAppend(xs: seq<real>, ys: seq<real>)
    ensures Sum(xs + ys) == Sum(xs) + Sum(ys)
    decreases |ys|
  {
    if ys == [] {
      assert xs + ys == xs;
    } else {
      assert ButLast(xs + ys) == xs + ButLast(ys);
      SumAppend(xs, ButLast(ys));
    }
  }

  lemma SquaresAppend(xs: seq<real>, ys: seq<real>)
    ensures SumOfSquares(xs + ys) == SumOfSquares(xs) + SumOfSquares(ys)
  {
    hide Times;
    SumAppend(Squares(xs), Squares(ys));
    assert Squares(xs + ys) == Squares(xs) + Squares(ys);
  }

  lemma SquaresLast(xs: seq<real>)
    requires xs != []
    ensures SumOfSquares(xs) == SumOfSquares(ButLast(xs)) + Times(Last(xs), Last(xs))
  {
    hide Times;
    assert ButLast(Squares(xs)) == Squares(ButLast(xs));
  }

  lemma GapsLast(xs: seq<real>, c: real)
    requires xs != []
    ensures Scatter(xs, c) == Scatter(ButLast(xs), c) + Times(Last(xs) - c, Last(xs) - c)
  {
    hide Times;
    assert ButLast(Gaps(xs, c)) == Gaps(ButLast(xs), c);
  }

  /** Expanding the square under the sum, for every centre. */
  lemma {:induction false} ScatterExpanded(xs: seq<real>, c: real)
    ensures Scatter(xs, c) == Expansion(|xs| as real, Sum(xs), SumOfSquares(xs), c)
  {
    if xs == [] {
      assert Squares(xs) == [] && Gaps(xs, c) == [];
    } else {
      hide Times, Expansion, Scatter, SumOfSquares;
      var ys := ButLast(xs);
      ScatterExpanded(ys, c);
      SquaresLast(xs);
      GapsLast(xs, c);
      ExpansionStep(|ys| as real, Sum(ys), SumOfSquares(ys), c, Last(xs));
      assert |xs| as real == |ys| as real + 1.0;
    }
  }

  lemma {:induction false} SumOfNonNegatives(xs: seq<real>)
    requires forall i :: 0 <= i < |xs| ==> xs[i] >= 0.0
    ensures Sum(xs) >= 0.0
    ensures Sum(xs) == 0.0 <==> forall i :: 0 <= i < |xs| ==> xs[i] == 0.0
  {
    if xs != [] {
      var ys := ButLast(xs);
      assert forall i :: 0 <= i < |ys| ==> ys[i] == xs[i];
      SumOfNonNegatives(ys);
      if Sum(xs) == 0.0 {
        forall i | 0 <= i < |xs| ensures xs[i] == 0.0 {
          if i < |ys| {
            assert xs[i] == ys[i];
          }
        }
      }
    }
  }

  /** The scatter is zero only when every sample equals the centre. */
  lemma ScatterNonNegative(xs: seq<real>, c: real)
    ensures Scatter(xs, c) >= 0.0
    ensures Scatter(xs, c) == 0.0 <==> Within(xs, c, c)
  {
    hide Times;
    var gaps := Gaps(xs, c);
    forall i | 0 <= i < |xs| ensures gaps[i] >= 0.0 && (gaps[i] == 0.0 <==> c <= xs[i] <= c) {
      SquareNonNegative(xs[i] - c);
    }
    SumOfNonNegatives(gaps);
  }

  /** n times the sum of squares less the square of the sum is n times the scatter about the mean. */
  lemma OnePassIsTwoPass(xs: seq<real>)
    requires xs != []
    ensures |xs| as real * SumOfSquares(xs) - Sum(xs) * Sum(xs) == |xs| as real * Scatter(xs, Mean(xs))
    ensures SumOfSquares(xs) / |xs| as real - Mean(xs) * Mean(xs) == PopulationVariance(xs)
  {
    hide Expansion, Sum, SumOfSquares, Scatter;
    ScatterExpanded(xs, Mean(xs));
    OnePassAlgebra(|xs| as real, Sum(xs), SumOfSquares(xs));
  }

  lemma VarianceNonNegative(xs: seq<real>)
    requires xs != []
    ensures PopulationVariance(xs) >= 0.0
    ensures PopulationVariance(xs) == 0.0 <==> Within(xs, Mean(xs), Mean(xs))
  {
    hide Mean, Scatter;
    ScatterNonNegative(xs, Mean(xs));
    Quotient(Scatter(xs, Mean(xs)), |xs| as real);
  }

  lemma {:induction false} SumBetween(xs: seq<real>, lo: real, hi: real)
    requires Within(xs, lo, hi)
    ensures Times(lo, |xs| as real) <= Sum(xs) <= Times(hi, |xs| as real)
  {
    if xs != [] {
      hide Times;
      SumBetween(ButLast(xs), lo, hi);
      OneMore(lo, |ButLast(xs)| as real);
      OneMore(hi, |ButLast(xs)| as real);
      assert |xs| as real == |ButLast(xs)| as real + 1.0;
    }
  }

  lemma {:induction false} BandNonNegative(xs: seq<real>, lo: real, hi: real)
    requires Within(xs, lo, hi)
    ensures Band(|xs| as real, Sum(xs), SumOfSquares(xs), lo, hi) >= 0.0
  {
    if xs == [] {
      assert Squares(xs) == [];
    } else {
      hide Times, Band, SumOfSquares;
      var ys := ButLast(xs);
      BandNonNegative(ys, lo, hi);
      SquaresLast(xs);
      BandStep(|ys| as real, Sum(ys), SumOfSquares(ys), lo, hi, Last(xs));
      assert |xs| as real == |ys| as real + 1.0;
    }
  }

  lemma MeanBetween(xs: seq<real>, lo: real, hi: real)
    requires xs != [] && Within(xs, lo, hi)
    ensures lo <= Mean(xs) <= hi
  {
    hide Times, Sum;
    SumBetween(xs, lo, hi);
    QuotientBetween(Sum(xs), |xs| as real, lo, hi);
  }

  /** A population variance inside [lo, hi] is at most (hi - mean)(mean - lo), so a quarter of the range squared. */
  lemma VarianceBetween(xs: seq<real>, lo: real, hi: real)
    requires xs != [] && Within(xs, lo, hi)
    ensures 0.0 <= PopulationVariance(xs) <= Times(hi - Mean(xs), Mean(xs) - lo)
    ensures Times(hi - Mean(xs), Mean(xs) - lo) <= Times(hi - lo, hi - lo) / 4.0
  {
    VarianceNonNegative(xs);
    OnePassIsTwoPass(xs);
    hide Band, Times, PopulationVariance, Sum, SumOfSquares;
    BandNonNegative(xs, lo, hi);
    BandAlgebra(|xs| as real, Sum(xs), SumOfSquares(xs), lo, hi);
  }

  lemma RemoveAt(ys: seq<real>, j: nat)
    requires j < |ys|
    ensures Sum(ys[..j] + ys[j + 1..]) == Sum(ys) - ys[j]
    ensures SumOfSquares(ys[..j] + ys[j + 1..]) == SumOfSquares(ys) - Times(ys[j], ys[j])
    ensures multiset(ys[..j] + ys[j + 1..]) == multiset(ys) - multiset{ys[j]}
  {
    hide Times, SumOfSquares;
    var a, b := ys[..j], ys[j + 1..];
    assert ys == (a + [ys[j]]) + b;
    assert ButLast(a + [ys[j]]) == a;
    SumAppend(a + [ys[j]], b);
    SumAppend(a, b);
    SquaresAppend(a + [ys[j]], b);
    SquaresAppend(a, b);
    SquaresLast(a + [ys[j]]);
  }

  /** Only how often each value occurs matters to the sums. */
  lemma {:induction false} SumsIgnoreOrder(xs: seq<real>, ys: seq<real>)
    requires multiset(xs) == multiset(ys)
    ensures |xs| == |ys| && Sum(xs) == Sum(ys) && SumOfSquares(xs) == SumOfSquares(ys)
    decreases |xs|
  {
    hide Times, SumOfSquares;
    assert |multiset(xs)| == |xs| && |multiset(ys)| == |ys|;
    if xs == [] {
      assert ys == [];
    } else {
      var x := Last(xs);
      assert xs == ButLast(xs) + [x];
      assert x in multiset(ys);
      var j :| 0 <= j < |ys| && ys[j] == x;
      RemoveAt(ys, j);
      SquaresLast(xs);
      assert multiset(ButLast(xs)) == multiset(xs) - multiset{x};
      SumsIgnoreOrder(ButLast(xs), ys[..j] + ys[j + 1..]);
    }
  }
}
