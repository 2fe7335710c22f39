/** Real-valued sums, means, variances and the facts about them that the
    statistics of the core rest on. Numbers are mathematical reals, not
    IEEE doubles. */
module Stats {

  /** Left fold with +, as `reduce((a, b) => a + b, 0)` and numpy's sum. */
  function Sum(xs: seq<real>): real
  {
    if |xs| == 0 then 0.0 else Sum(xs[..|xs| - 1]) + xs[|xs| - 1]
  }

  function Mean(xs: seq<real>): real
    requires |xs| > 0
  {
    Sum(xs) / |xs| as real
  }

  function Abs(x: real): (r: real)
    ensures r >= 0.0 && (r == x || r == -x)
  {
    if x < 0.0 then -x else x
  }

  function MinR(a: real, b: real): (r: real)
    ensures r <= a && r <= b && (r == a || r == b)
  {
    if a <= b then a else b
  }

  function MaxR(a: real, b: real): (r: real)
    ensures r >= a && r >= b && (r == a || r == b)
  {
    if a >= b then a else b
  }

  /** Smallest element of a non-empty sequence. */
  function Min(xs: seq<real>): (m: real)
    requires |xs| > 0
    ensures m in xs
    ensures forall i :: 0 <= i < |xs| ==> m <= xs[i]
  {
    if |xs| == 1 then xs[0] else MinR(Min(xs[..|xs| - 1]), xs[|xs| - 1])
  }

  /** Largest element of a non-empty sequence. */
  function Max(xs: seq<real>): (m: real)
    requires |xs| > 0
    ensures m in xs
    ensures forall i :: 0 <= i < |xs| ==> xs[i] <= m
  {
    if |xs| == 1 then xs[0] else MaxR(Max(xs[..|xs| - 1]), xs[|xs| - 1])
  }

  function Square(a: real): real
  {
    a * a
  }

  /** The squared deviations of `xs` from `m`. */
  function SquaredDeviations(xs: seq<real>, m: real): (r: seq<real>)
    ensures |r| == |xs|
    ensures forall i :: 0 <= i < |xs| ==> r[i] == Square(xs[i] - m)
  {
    seq(|xs|, i requires 0 <= i < |xs| => Square(xs[i] - m))
  }

  /** Variance with divisor n (numpy's `np.std`, ddof = 0). */
  function PopulationVariance(xs: seq<real>): real
    requires |xs| > 0
  {
    Sum(SquaredDeviations(xs, Mean(xs))) / |xs| as real
  }

  /** Variance with divisor n - 1 (pandas' `Series.std`, ddof = 1). */
  function SampleVariance(xs: seq<real>): real
    requires |xs| > 1
  {
    Sum(SquaredDeviations(xs, Mean(xs))) / (|xs| - 1) as real
  }

  /** What the model knows of the library square root. */
  ghost predicate IsSqrt(sqrt: real -> real)
  {
    forall x :: 0.0 <= x ==> 0.0 <= sqrt(x) && Square(sqrt(x)) == x
  }

  predicate Constant(xs: seq<real>)
  {
    forall i :: 0 <= i < |xs| ==> xs[i] == xs[0]
  }

  // ---------------------------------------------------------------------------
  // Facts about sums

  lemma {:induction false} SumAppend(a: seq<real>, b: seq<real>)
    ensures Sum(a + b) == Sum(a) + Sum(b)
    decreases |b|
  {
    if |b| == 0 {
      assert a + b == a;
    } else {
      assert (a + b)[..|a + b| - 1] == a + b[..|b| - 1];
      SumAppend(a, b[..|b| - 1]);
    }
  }

  /** Every two terms related by b[i] == c * a[i] + d give related sums. */
  lemma {:induction false} SumAffine(a: seq<real>, b: seq<real>, c: real, d: real)
    requires |a| == |b|
    requires forall i :: 0 <= i < |a| ==> b[i] == c * a[i] + d
    ensures Sum(b) == c * Sum(a) + d * |a| as real
  {
    if |a| > 0 {
      SumAffine(a[..|a| - 1], b[..|b| - 1], c, d);
    }
  }

  lemma {:induction false} SumPointwise(a: seq<real>, b: seq<real>, s: seq<real>)
    requires |a| == |b| == |s|
    requires forall i :: 0 <= i < |a| ==> s[i] == a[i] + b[i]
    ensures Sum(s) == Sum(a) + Sum(b)
  {
    if |a| > 0 {
      SumPointwise(a[..|a| - 1], b[..|b| - 1], s[..|s| - 1]);
    }
  }

  lemma {:induction false} SumMonotone(a: seq<real>, b: seq<real>)
    requires |a| == |b|
    requires forall i :: 0 <= i < |a| ==> a[i] <= b[i]
    ensures Sum(a) <= Sum(b)
  {
    if |a| > 0 {
      SumMonotone(a[..|a| - 1], b[..|b| - 1]);
    }
  }

  lemma {:induction false} SumBounds(xs: seq<real>, lo: real, hi: real)
    requires forall i :: 0 <= i < |xs| ==> lo <= xs[i] <= hi
    ensures lo * |xs| as real <= Sum(xs) <= hi * |xs| as real
  {
    if |xs| > 0 {
      SumBounds(xs[..|xs| - 1], lo, hi);
    }
  }

  /** A strict upper bound on every term is strict on a non-empty sum. */
  lemma {:induction false} SumStrictUpper(xs: seq<real>, hi: real)
    requires |xs| > 0
    requires forall i :: 0 <= i < |xs| ==> xs[i] < hi
    ensures Sum(xs) < hi * |xs| as real
  {
    if |xs| > 1 {
      SumStrictUpper(xs[..|xs| - 1], hi);
    }
  }

  lemma {:induction false} SumNonNegative(xs: seq<real>)
    requires forall i :: 0 <= i < |xs| ==> 0.0 <= xs[i]
    ensures 0.0 <= Sum(xs)
  {
    SumBounds(xs, 0.0, 0.0 + if |xs| == 0 then 0.0 else Max(xs));
  }

  /** A sum of non-negative terms is zero exactly when every term is. */
  lemma {:induction false} SumZeroIffAllZero(xs: seq<real>)
    requires forall i :: 0 <= i < |xs| ==> 0.0 <= xs[i]
    ensures Sum(xs) == 0.0 <==> forall i :: 0 <= i < |xs| ==> xs[i] == 0.0
  {
    if |xs| > 0 {
      var init := xs[..|xs| - 1];
      assert forall i :: 0 <= i < |init| ==> init[i] == xs[i];
      SumZeroIffAllZero(init);
      SumNonNegative(init);
    }
  }

  lemma SumConstant(xs: seq<real>, c: real)
    requires forall i :: 0 <= i < |xs| ==> xs[i] == c
    ensures Sum(xs) == c * |xs| as real
  {
    SumBounds(xs, c, c);
  }

  // ---------------------------------------------------------------------------
  // Facts about means and variances

  /** The mean lies between the smallest and the largest term. */
  lemma MeanBetween(xs: seq<real>, lo: real, hi: real)
    requires |xs| > 0
    requires forall i :: 0 <= i < |xs| ==> lo <= xs[i] <= hi
    ensures lo <= Mean(xs) <= hi
  {
    SumBounds(xs, lo, hi);
    var n := |xs| as real;
    assert lo * n <= Sum(xs) <= hi * n;
    assert Sum(xs) / n >= lo by { assert lo == lo * n / n; }
    assert Sum(xs) / n <= hi by { assert hi == hi * n / n; }
  }

  /** A mean of non-negative terms is zero exactly when every term is. */
  lemma MeanZeroIffAllZero(xs: seq<real>)
    requires |xs| > 0
    requires forall i :: 0 <= i < |xs| ==> 0.0 <= xs[i]
    ensures 0.0 <= Mean(xs)
    ensures Mean(xs) == 0.0 <==> forall i :: 0 <= i < |xs| ==> xs[i] == 0.0
  {
    SumZeroIffAllZero(xs);
    SumNonNegative(xs);
    MeanBetween(xs, 0.0, Max(xs));
    if Mean(xs) == 0.0 {
      assert Sum(xs) == Mean(xs) * |xs| as real;
    }
  }

  lemma MeanOfConstant(xs: seq<real>, c: real)
    requires |xs| > 0
    requires forall i :: 0 <= i < |xs| ==> xs[i] == c
    ensures Mean(xs) == c
  {
    MeanBetween(xs, c, c);
  }

  // ---------------------------------------------------------------------------
  // Facts about products and squares (kept to distinct variables: the solver
  // does not relate separate occurrences of a square `a * a`)

  lemma MulPos(a: real, c: real)
    requires a > 0.0 && c > 0.0
    ensures a * c > 0.0
  {
  }

  lemma MulNeg(a: real, c: real)
    requires a < 0.0 && c < 0.0
    ensures a * c > 0.0
  {
  }

  lemma ProductPositive(a: real, c: real, r: real)
    requires (a > 0.0 && c > 0.0) || (a < 0.0 && c < 0.0)
    requires r == a * c
    ensures r > 0.0
  {
    if a > 0.0 { MulPos(a, c); } else { MulNeg(a, c); }
  }

  lemma DivUnit(a: real, b: real)
    requires 0.0 <= a <= b && 0.0 < b
    ensures 0.0 <= a / b <= 1.0
  {
  }

  lemma DivMonotone(a: real, b: real, c: real)
    requires 0.0 < c
    ensures a <= b <==> a / c <= b / c
  {
    if a <= b {
      assert (b - a) / c == b / c - a / c;
      DivUnitLower(b - a, c);
    } else {
      assert (a - b) / c == a / c - b / c;
      DivPos(a - b, c);
    }
  }

  lemma DivUnitLower(a: real, c: real)
    requires 0.0 <= a && 0.0 < c
    ensures 0.0 <= a / c
  {
    if a > 0.0 {
      DivPos(a, c);
    }
  }

  lemma DivPos(a: real, c: real)
    requires 0.0 < a && 0.0 < c
    ensures 0.0 < a / c
  {
    var q := a / c;
    assert q * c == a;
    if q <= 0.0 {
      if q < 0.0 {
        MulNegPos(q, c);
      }
    }
  }

  lemma MulNegPos(a: real, c: real)
    requires a < 0.0 && 0.0 < c
    ensures a * c < 0.0
  {
    MulPos(-a, c);
  }

  lemma SquarePositive(a: real)
    requires a != 0.0
    ensures Square(a) > 0.0
  {
    ProductPositive(a, a, Square(a));
  }

  /** A square is non-negative, and zero exactly at zero. */
  lemma SquareZeroIff(a: real)
    ensures 0.0 <= Square(a)
    ensures Square(a) == 0.0 <==> a == 0.0
  {
    if a != 0.0 { SquarePositive(a); } else { assert Square(a) == 0.0; }
  }

  lemma SumSquaredDeviationsNonNegative(xs: seq<real>, m: real)
    ensures 0.0 <= Sum(SquaredDeviations(xs, m))
  {
    var d := SquaredDeviations(xs, m);
    forall i | 0 <= i < |d| ensures 0.0 <= d[i] {
      SquareZeroIff(xs[i] - m);
    }
    SumNonNegative(d);
  }

  /** The squared deviations from the mean vanish exactly for a constant sequence. */
  lemma SquaredDeviationsZeroIffConstant(xs: seq<real>)
    requires |xs| > 0
    ensures Sum(SquaredDeviations(xs, Mean(xs))) == 0.0 <==> Constant(xs)
  {
    var m := Mean(xs);
    var d := SquaredDeviations(xs, m);
    forall i | 0 <= i < |d| ensures 0.0 <= d[i] {
      SquareZeroIff(xs[i] - m);
    }
    SumZeroIffAllZero(d);
    if Constant(xs) {
      MeanOfConstant(xs, xs[0]);
      forall i | 0 <= i < |d| ensures d[i] == 0.0 {
        SquareZeroIff(xs[i] - m);
      }
    }
    if Sum(d) == 0.0 {
      forall i | 0 <= i < |xs| ensures xs[i] == m {
        SquareZeroIff(xs[i] - m);
      }
    }
  }

  lemma PopulationVarianceNonNegative(xs: seq<real>)
    requires |xs| > 0
    ensures 0.0 <= PopulationVariance(xs)
  {
    SumSquaredDeviationsNonNegative(xs, Mean(xs));
  }

  lemma PopulationVarianceZeroIffConstant(xs: seq<real>)
    requires |xs| > 0
    ensures PopulationVariance(xs) == 0.0 <==> Constant(xs)
  {
    SquaredDeviationsZeroIffConstant(xs);
  }

  lemma SampleVarianceZeroIffConstant(xs: seq<real>)
    requires |xs| > 1
    ensures 0.0 <= SampleVariance(xs)
    ensures SampleVariance(xs) == 0.0 <==> Constant(xs)
  {
    SumSquaredDeviationsNonNegative(xs, Mean(xs));
    SquaredDeviationsZeroIffConstant(xs);
  }

  /** The square root is non-negative, and zero exactly at zero. */
  lemma SqrtZeroIff(sqrt: real -> real, x: real)
    requires IsSqrt(sqrt) && 0.0 <= x
    ensures 0.0 <= sqrt(x)
    ensures sqrt(x) == 0.0 <==> x == 0.0
  {
    SquareZeroIff(sqrt(x));
  }
}
