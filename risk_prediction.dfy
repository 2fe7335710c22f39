/** The risk model of `RiskPredictionModel`: four features computed from a
    window of closing prices, a standard scaler and two regressors whose
    predictions are averaged.

    Prices are positive (a zero price makes `pct_change` divide by zero).
    A window too short for a statistic, where pandas would produce NaN, is
    the error `InsufficientHistory`. */
module RiskPrediction {
  import opened Results
  import opened Stats
  import opened Learning

  const MomentumPeriod: nat := 10
  const ShortWindow: nat := 20
  const LongWindow: nat := 50

  predicate PositivePrices(p: seq<real>)
  {
    forall i :: 0 <= i < |p| ==> 0.0 < p[i]
  }

  /** `pct_change(periods = k)` without its k leading NaNs, which every
      reduction applied to it skips: entry i is the change from p[i] to p[i + k]. */
  function PctChange(p: seq<real>, k: nat): (r: seq<real>)
    requires 0 < k && PositivePrices(p)
    ensures |r| == if |p| > k then |p| - k else 0
    ensures forall i :: 0 <= i < |r| ==> r[i] == p[i + k] / p[i] - 1.0
  {
    if |p| <= k then [] else seq(|p| - k, i requires 0 <= i < |p| - k => p[i + k] / p[i] - 1.0)
  }

  lemma RatioOfEqual(a: real)
    requires 0.0 < a
    ensures a / a - 1.0 == 0.0
  {
  }

  lemma PctChangeOfConstant(p: seq<real>, k: nat)
    requires 0 < k && PositivePrices(p) && Constant(p)
    ensures forall i :: 0 <= i < |PctChange(p, k)| ==> PctChange(p, k)[i] == 0.0
  {
    forall i | 0 <= i < |PctChange(p, k)| ensures PctChange(p, k)[i] == 0.0 {
      assert p[i + k] == p[i];
      RatioOfEqual(p[i]);
    }
  }

  // ---------------------------------------------------------------------------
  // volatility: close.pct_change().std(), the sample standard deviation
  // ---------------------------------------------------------------------------

  /** Defined from three prices on (two returns are the fewest a sample
      standard deviation accepts); then it is the non-negative square root
      of the sample variance of the one-step returns. */
  function Volatility(p: seq<real>, sqrt: real -> real): (r: Result<real>)
    requires PositivePrices(p) && IsSqrt(sqrt)
    ensures r.Ok? <==> |p| >= 3
    ensures r.Err? ==> r.error == InsufficientHistory
    ensures r.Ok? ==> 0.0 <= r.value && Square(r.value) == SampleVariance(PctChange(p, 1))
  {
    if |p| < 3 then Err(InsufficientHistory)
    else
      SampleVarianceZeroIffConstant(PctChange(p, 1));
      Ok(sqrt(SampleVariance(PctChange(p, 1))))
  }

  /** Volatility vanishes exactly when every step has the same relative change. */
  lemma VolatilityZeroIff(p: seq<real>, sqrt: real -> real)
    requires PositivePrices(p) && IsSqrt(sqrt) && |p| >= 3
    ensures Volatility(p, sqrt).value == 0.0 <==> Constant(PctChange(p, 1))
  {
    var v := SampleVariance(PctChange(p, 1));
    SampleVarianceZeroIffConstant(PctChange(p, 1));
    SqrtZeroIff(sqrt, v);
  }

  lemma ConstantOfZeros(xs: seq<real>)
    requires forall i :: 0 <= i < |xs| ==> xs[i] == 0.0
    ensures Constant(xs)
  {
  }

  // ---------------------------------------------------------------------------
  // momentum: close.pct_change(periods = 10).mean()
  // ---------------------------------------------------------------------------

  function Momentum(p: seq<real>): (r: Result<real>)
    requires PositivePrices(p)
    ensures r.Ok? <==> |p| > MomentumPeriod
    ensures r.Err? ==> r.error == InsufficientHistory
  {
    if |p| <= MomentumPeriod then Err(InsufficientHistory) else Ok(Mean(PctChange(p, MomentumPeriod)))
  }

  lemma RatioAtLeastOne(a: real, b: real)
    requires 0.0 < a <= b
    ensures 0.0 <= b / a - 1.0
  {
  }

  /** Prices that never fall have non-negative momentum. */
  lemma MomentumOfNonDecreasing(p: seq<real>)
    requires PositivePrices(p) && |p| > MomentumPeriod
    requires forall i, j :: 0 <= i <= j < |p| ==> p[i] <= p[j]
    ensures 0.0 <= Momentum(p).value
  {
    var r := PctChange(p, MomentumPeriod);
    forall i | 0 <= i < |r| ensures 0.0 <= r[i] <= r[i] - Min(r) + r[i] {
      RatioAtLeastOne(p[i], p[i + MomentumPeriod]);
    }
    MeanBetween(r, 0.0, Max(r));
  }

  /** Every ten-step change lies between the smallest and largest of them,
      and so does their mean. */
  lemma MomentumBetween(p: seq<real>)
    requires PositivePrices(p) && |p| > MomentumPeriod
    ensures Min(PctChange(p, MomentumPeriod)) <= Momentum(p).value <= Max(PctChange(p, MomentumPeriod))
  {
    var r := PctChange(p, MomentumPeriod);
    MeanBetween(r, Min(r), Max(r));
  }

  // ---------------------------------------------------------------------------
  // trend strength: abs(rolling(20).mean() - rolling(50).mean()).mean()
  // ---------------------------------------------------------------------------

  /** The rolling mean of width w ending at index t. */
  function RollingMean(p: seq<real>, w: nat, t: nat): real
    requires 0 < w && w - 1 <= t < |p|
  {
    Mean(p[t + 1 - w..t + 1])
  }

  /** |short MA - long MA| for every index at which both averages exist. */
  function TrendGaps(p: seq<real>): (g: seq<real>)
    requires |p| >= LongWindow
    ensures |g| == |p| - (LongWindow - 1)
    ensures forall i :: 0 <= i < |g| ==>
      g[i] == Abs(RollingMean(p, ShortWindow, i + LongWindow - 1) - RollingMean(p, LongWindow, i + LongWindow - 1))
  {
    seq(|p| - (LongWindow - 1), i requires 0 <= i < |p| - (LongWindow - 1) =>
      Abs(RollingMean(p, ShortWindow, i + LongWindow - 1) - RollingMean(p, LongWindow, i + LongWindow - 1)))
  }

  function TrendStrength(p: seq<real>): (r: Result<real>)
    ensures r.Ok? <==> |p| >= LongWindow
    ensures r.Err? ==> r.error == InsufficientHistory
    ensures r.Ok? ==> 0.0 <= r.value
  {
    if |p| < LongWindow then Err(InsufficientHistory)
    else
      var g := TrendGaps(p);
      MeanBetween(g, 0.0, Max(g));
      Ok(Mean(g))
  }

  /** The trend strength is zero exactly when the 20- and 50-step moving
      averages agree wherever both are defined. */
  lemma TrendStrengthZeroIff(p: seq<real>)
    requires |p| >= LongWindow
    ensures TrendStrength(p).value == 0.0 <==>
      forall t :: LongWindow - 1 <= t < |p| ==> RollingMean(p, ShortWindow, t) == RollingMean(p, LongWindow, t)
  {
    MeanZeroIffAllZero(TrendGaps(p));
    TrendGapsZeroIff(p);
  }

  lemma TrendGapsZeroIff(p: seq<real>)
    requires |p| >= LongWindow
    ensures (forall i :: 0 <= i < |TrendGaps(p)| ==> TrendGaps(p)[i] == 0.0) <==>
      forall t :: LongWindow - 1 <= t < |p| ==> RollingMean(p, ShortWindow, t) == RollingMean(p, LongWindow, t)
  {
    var g := TrendGaps(p);
    if forall i :: 0 <= i < |g| ==> g[i] == 0.0 {
      forall t | LongWindow - 1 <= t < |p| ensures RollingMean(p, ShortWindow, t) == RollingMean(p, LongWindow, t) {
        assert g[t - (LongWindow - 1)] == 0.0;
      }
    }
  }

  lemma TrendStrengthOfConstant(p: seq<real>)
    requires |p| >= LongWindow && Constant(p)
    ensures TrendStrength(p) == Ok(0.0)
  {
    forall t | LongWindow - 1 <= t < |p| ensures RollingMean(p, ShortWindow, t) == RollingMean(p, LongWindow, t) {
      MeanOfConstant(p[t + 1 - ShortWindow..t + 1], p[0]);
      MeanOfConstant(p[t + 1 - LongWindow..t + 1], p[0]);
    }
    TrendStrengthZeroIff(p);
  }

  // ---------------------------------------------------------------------------
  // maximum drawdown
  // ---------------------------------------------------------------------------

  /** `(1 + close.pct_change()).cumprod()` at index t >= 1 (index 0 is NaN). */
  function Growth(p: seq<real>, t: nat): real
    requires PositivePrices(p) && 1 <= t < |p|
  {
    var step := 1.0 + (p[t] / p[t - 1] - 1.0);
    if t == 1 then step else Growth(p, t - 1) * step
  }

  /** `cummax()` of the cumulative product. */
  function Peak(p: seq<real>, t: nat): real
    requires PositivePrices(p) && 1 <= t < |p|
  {
    if t == 1 then Growth(p, 1) else MaxR(Peak(p, t - 1), Growth(p, t))
  }

  function DrawdownAt(p: seq<real>, t: nat): real
    requires PositivePrices(p) && 1 <= t < |p|
  {
    PeakPositive(p, t);
    (Growth(p, t) - Peak(p, t)) / Peak(p, t)
  }

  /** `drawdown.min()` over indices 1..t. */
  function MinDrawdown(p: seq<real>, t: nat): real
    requires PositivePrices(p) && 1 <= t < |p|
  {
    if t == 1 then DrawdownAt(p, 1) else MinR(MinDrawdown(p, t - 1), DrawdownAt(p, t))
  }

  /** `abs(drawdown.min())`, defined from two prices on. */
  function MaxDrawdown(p: seq<real>): (r: Result<real>)
    requires PositivePrices(p)
    ensures r.Ok? <==> |p| >= 2
    ensures r.Err? ==> r.error == InsufficientHistory
  {
    if |p| < 2 then Err(InsufficientHistory) else Ok(Abs(MinDrawdown(p, |p| - 1)))
  }

  lemma RatioChain(a: real, b: real, c: real)
    requires 0.0 < a && 0.0 < b
    ensures (b / a) * (1.0 + (c / b - 1.0)) == c / a
  {
    assert (b / a) * (c / b) == c / a;
  }

  /** The cumulative product of the growth factors telescopes to the price
      relative to the first one. */
  lemma {:induction false} GrowthIsRelativePrice(p: seq<real>, t: nat)
    requires PositivePrices(p) && 1 <= t < |p|
    ensures Growth(p, t) == p[t] / p[0]
    ensures 0.0 < Growth(p, t)
  {
    if t > 1 {
      GrowthIsRelativePrice(p, t - 1);
      RatioChain(p[0], p[t - 1], p[t]);
    }
  }

  lemma {:induction false} PeakPositive(p: seq<real>, t: nat)
    requires PositivePrices(p) && 1 <= t < |p|
    ensures 0.0 < Peak(p, t)
  {
    GrowthIsRelativePrice(p, t);
    if t > 1 {
      PeakPositive(p, t - 1);
    }
  }

  /** The peak is the largest cumulative value so far. */
  lemma {:induction false} PeakAbove(p: seq<real>, t: nat, s: nat)
    requires PositivePrices(p) && 1 <= s <= t < |p|
    ensures Growth(p, s) <= Peak(p, t)
  {
    if s < t {
      PeakAbove(p, t - 1, s);
    }
  }

  lemma DivShift(g: real, pk: real)
    requires 0.0 < pk
    ensures (g - pk) / pk == g / pk - 1.0
  {
    var a, b := g / pk, (g - pk) / pk;
    assert a * pk == g && b * pk == g - pk;
    var x := b - a + 1.0;
    assert x * pk == b * pk - a * pk + pk;
    if x < 0.0 {
      MulNegPos(x, pk);
    } else if 0.0 < x {
      MulPos(x, pk);
    }
  }

  lemma DrawdownTerm(g: real, pk: real)
    requires 0.0 < g <= pk
    ensures -1.0 < (g - pk) / pk <= 0.0
    ensures (g - pk) / pk == 0.0 <==> g == pk
  {
    var q := (g - pk) / pk;
    assert q * pk == g - pk;
    DivShift(g, pk);
    DivPos(g, pk);
    if 0.0 < q {
      MulPos(q, pk);
    }
  }

  lemma DrawdownAtBounds(p: seq<real>, t: nat)
    requires PositivePrices(p) && 1 <= t < |p|
    ensures -1.0 < DrawdownAt(p, t) <= 0.0
    ensures DrawdownAt(p, t) == 0.0 <==> Growth(p, t) == Peak(p, t)
  {
    GrowthIsRelativePrice(p, t);
    PeakAbove(p, t, t);
    DrawdownTerm(Growth(p, t), Peak(p, t));
  }

  lemma {:induction false} MinDrawdownBounds(p: seq<real>, t: nat)
    requires PositivePrices(p) && 1 <= t < |p|
    ensures -1.0 < MinDrawdown(p, t) <= 0.0
  {
    DrawdownAtBounds(p, t);
    if t > 1 {
      MinDrawdownBounds(p, t - 1);
    }
  }

  /** A maximum drawdown is a fraction of the peak: at least 0, below 1. */
  lemma MaxDrawdownRange(p: seq<real>)
    requires PositivePrices(p) && |p| >= 2
    ensures 0.0 <= MaxDrawdown(p).value < 1.0
  {
    MinDrawdownBounds(p, |p| - 1);
  }

  predicate NonDecreasingFrom1(p: seq<real>, t: nat)
  {
    forall i, j :: 1 <= i <= j <= t && j < |p| ==> p[i] <= p[j]
  }

  /** No price from index 1 up to t - 1 exceeds p[t]. */
  predicate AtHigh(p: seq<real>, t: nat)
  {
    forall i :: 1 <= i < t && t < |p| ==> p[i] <= p[t]
  }

  lemma GrowthOrder(p: seq<real>, i: nat, j: nat)
    requires PositivePrices(p) && 1 <= i < |p| && 1 <= j < |p|
    ensures Growth(p, i) <= Growth(p, j) <==> p[i] <= p[j]
  {
    GrowthIsRelativePrice(p, i);
    GrowthIsRelativePrice(p, j);
    DivMonotone(p[i], p[j], p[0]);
  }

  /** The peak is reached at some index. */
  lemma {:induction false} PeakAttained(p: seq<real>, t: nat) returns (s: nat)
    requires PositivePrices(p) && 1 <= t < |p|
    ensures 1 <= s <= t && Peak(p, t) == Growth(p, s)
  {
    if t == 1 {
      s := 1;
    } else if Peak(p, t) == Growth(p, t) {
      s := t;
    } else {
      s := PeakAttained(p, t - 1);
    }
  }

  /** The drawdown at t is zero exactly when no earlier price (from index 1) exceeds p[t]. */
  lemma DrawdownAtZeroIff(p: seq<real>, t: nat)
    requires PositivePrices(p) && 2 <= t < |p|
    ensures DrawdownAt(p, t) == 0.0 <==> AtHigh(p, t)
  {
    DrawdownAtBounds(p, t);
    if DrawdownAt(p, t) == 0.0 {
      forall i | 1 <= i < t ensures p[i] <= p[t] {
        PeakAbove(p, t - 1, i);
        GrowthOrder(p, i, t);
      }
    }
    if AtHigh(p, t) {
      var s := PeakAttained(p, t - 1);
      GrowthOrder(p, s, t);
    }
  }

  lemma NonDecreasingStep(p: seq<real>, t: nat)
    requires 2 <= t < |p|
    ensures NonDecreasingFrom1(p, t) <==> NonDecreasingFrom1(p, t - 1) && AtHigh(p, t)
  {
  }

  lemma MinRZero(a: real, b: real)
    requires a <= 0.0 && b <= 0.0
    ensures MinR(a, b) == 0.0 <==> a == 0.0 && b == 0.0
  {
  }

  lemma {:induction false} MinDrawdownZeroIff(p: seq<real>, t: nat)
    requires PositivePrices(p) && 1 <= t < |p|
    ensures MinDrawdown(p, t) == 0.0 <==> NonDecreasingFrom1(p, t)
  {
    DrawdownAtBounds(p, t);
    if t == 1 {
      assert Growth(p, 1) == Peak(p, 1);
    } else {
      MinDrawdownZeroIff(p, t - 1);
      MinDrawdownBounds(p, t - 1);
      DrawdownAtZeroIff(p, t);
      NonDecreasingStep(p, t);
      MinRZero(MinDrawdown(p, t - 1), DrawdownAt(p, t));
    }
  }

  /** The drawdown is zero exactly when prices from the second one on never fall.
      The first price takes no part: its return is NaN in the source. */
  lemma MaxDrawdownZeroIff(p: seq<real>)
    requires PositivePrices(p) && |p| >= 2
    ensures MaxDrawdown(p).value == 0.0 <==> NonDecreasingFrom1(p, |p| - 1)
  {
    MinDrawdownZeroIff(p, |p| - 1);
  }

  /** A fall from the first price is not a drawdown. */
  lemma MaxDrawdownExampleFirstFall()
    ensures MaxDrawdown([100.0, 50.0, 100.0]) == Ok(0.0)
  {
    var p := [100.0, 50.0, 100.0];
    MaxDrawdownZeroIff(p);
  }

  /** A fall after the first return is one: half the peak. */
  lemma MaxDrawdownExampleHalf()
    ensures MaxDrawdown([100.0, 100.0, 50.0]) == Ok(0.5)
  {
    var p := [100.0, 100.0, 50.0];
    assert Growth(p, 1) == 1.0;
    assert Growth(p, 2) == 0.5;
    assert Peak(p, 2) == 1.0;
    assert DrawdownAt(p, 1) == 0.0;
    assert DrawdownAt(p, 2) == -0.5;
  }

  // ---------------------------------------------------------------------------
  // risk score: volatility * drawdown * 100
  // ---------------------------------------------------------------------------

  function RiskScore(p: seq<real>, sqrt: real -> real): (r: Result<real>)
    requires PositivePrices(p) && IsSqrt(sqrt)
    ensures r.Ok? <==> |p| >= 3
  {
    if |p| < 3 then Err(InsufficientHistory)
    else Ok(ScoreOf(Volatility(p, sqrt).value, MaxDrawdown(p).value))
  }

  /** `volatility * max_drawdown * 100`. */
  function ScoreOf(volatility: real, drawdown: real): real
  {
    volatility * drawdown * 100.0
  }

  lemma ScaledProduct(a: real, b: real)
    requires 0.0 <= a && 0.0 <= b
    ensures 0.0 <= ScoreOf(a, b)
    ensures ScoreOf(a, b) == 0.0 <==> a == 0.0 || b == 0.0
  {
    if 0.0 < a && 0.0 < b {
      MulPos(a, b);
    }
  }

  /** The risk score is non-negative, and zero exactly when the window has no
      volatility or no drawdown. */
  lemma RiskScoreZeroIff(p: seq<real>, sqrt: real -> real)
    requires PositivePrices(p) && IsSqrt(sqrt) && |p| >= 3
    ensures 0.0 <= RiskScore(p, sqrt).value
    ensures RiskScore(p, sqrt).value == 0.0 <==>
      Volatility(p, sqrt).value == 0.0 || MaxDrawdown(p).value == 0.0
  {
    var v, d := Volatility(p, sqrt).value, MaxDrawdown(p).value;
    assert RiskScore(p, sqrt).value == ScoreOf(v, d);
    MaxDrawdownRange(p);
    ScaledProduct(v, d);
  }

  /** Flat prices carry no risk. */
  lemma RiskScoreOfConstant(p: seq<real>, sqrt: real -> real)
    requires PositivePrices(p) && IsSqrt(sqrt) && |p| >= 3 && Constant(p)
    ensures RiskScore(p, sqrt) == Ok(0.0)
  {
    PctChangeOfConstant(p, 1);
    ConstantOfZeros(PctChange(p, 1));
    VolatilityZeroIff(p, sqrt);
    RiskScoreZeroIff(p, sqrt);
  }

  // ---------------------------------------------------------------------------
  // features and the model
  // ---------------------------------------------------------------------------

  datatype RiskFeatures = RiskFeatures(volatility: real, momentum: real, trendStrength: real, riskScore: real)

  /** `_extract_features`: one row of features for a window, available once
      the window covers the long moving average. */
  function ExtractFeatures(p: seq<real>, sqrt: real -> real): (r: Result<RiskFeatures>)
    requires PositivePrices(p) && IsSqrt(sqrt)
    ensures r.Ok? <==> |p| >= LongWindow
    ensures r.Err? ==> r.error == InsufficientHistory
    ensures r.Ok? ==> 0.0 <= r.value.volatility && 0.0 <= r.value.trendStrength && 0.0 <= r.value.riskScore
  {
    if |p| < LongWindow then Err(InsufficientHistory)
    else
      RiskScoreZeroIff(p, sqrt);
      Ok(RiskFeatures(Volatility(p, sqrt).value, Momentum(p).value, TrendStrength(p).value, RiskScore(p, sqrt).value))
  }

  /** The features are the four statistics of the window. */
  lemma ExtractFeaturesFields(p: seq<real>, sqrt: real -> real)
    requires PositivePrices(p) && IsSqrt(sqrt) && |p| >= LongWindow
    ensures var f := ExtractFeatures(p, sqrt).value;
      Volatility(p, sqrt) == Ok(f.volatility) && Momentum(p) == Ok(f.momentum)
      && TrendStrength(p) == Ok(f.trendStrength) && RiskScore(p, sqrt) == Ok(f.riskScore)
  {
  }

  /** The feature frame without `risk_score`: what the model is trained on. */
  function FeatureRow(f: RiskFeatures): (row: Row)
    ensures |row| == 3
  {
    [f.volatility, f.momentum, f.trendStrength]
  }

  /** The whole feature frame, `risk_score` included. */
  function FrameRow(f: RiskFeatures): (row: Row)
    ensures |row| == 4
  {
    [f.volatility, f.momentum, f.trendStrength, f.riskScore]
  }

  predicate AllPositive(windows: seq<seq<real>>)
  {
    forall i :: 0 <= i < |windows| ==> PositivePrices(windows[i])
  }

  predicate AllLongEnough(windows: seq<seq<real>>)
  {
    forall i :: 0 <= i < |windows| ==> |windows[i]| >= LongWindow
  }

  function ExtractAll(windows: seq<seq<real>>, sqrt: real -> real): (r: Result<seq<RiskFeatures>>)
    requires AllPositive(windows) && IsSqrt(sqrt)
    ensures r.Ok? <==> AllLongEnough(windows)
    ensures r.Err? ==> r.error == InsufficientHistory
    ensures r.Ok? ==> |r.value| == |windows|
    ensures r.Ok? ==> forall i :: 0 <= i < |windows| ==> ExtractFeatures(windows[i], sqrt) == Ok(r.value[i])
  {
    if !AllLongEnough(windows) then Err(InsufficientHistory)
    else Ok(seq(|windows|, i requires 0 <= i < |windows| => ExtractFeatures(windows[i], sqrt).value))
  }

  /** The frame without `risk_score`, one row per window. */
  function Inputs(fs: seq<RiskFeatures>): (X: Matrix)
    ensures |X| == |fs| && Rectangular(X, 3)
    ensures forall i :: 0 <= i < |fs| ==> X[i] == FeatureRow(fs[i])
  {
    seq(|fs|, i requires 0 <= i < |fs| => FeatureRow(fs[i]))
  }

  /** The `risk_score` column. */
  function Targets(fs: seq<RiskFeatures>): (y: seq<real>)
    ensures |y| == |fs|
    ensures forall i :: 0 <= i < |fs| ==> y[i] == fs[i].riskScore
  {
    seq(|fs|, i requires 0 <= i < |fs| => fs[i].riskScore)
  }

  /** `prepare_data`: features of every window, the model's inputs without the
      risk score, the risk score as target, split 80/20. It succeeds exactly
      when there are at least two windows, each covering the long moving
      average; the training rows then have the three model features. */
  function PrepareData(windows: seq<seq<real>>, perm: seq<nat>, sqrt: real -> real): (r: Result<Split>)
    requires AllPositive(windows) && IsSqrt(sqrt) && IsPermutation(perm, |windows|)
    ensures r.Ok? <==> |windows| >= 2 && AllLongEnough(windows)
    ensures r.Ok? ==>
      WellShaped(r.value.xTrain) && |r.value.xTrain[0]| == 3 && Rectangular(r.value.xTest, 3)
      && |r.value.yTrain| == |r.value.xTrain| && |r.value.xTest| > 0
  {
    var fsr := ExtractAll(windows, sqrt);
    if fsr.Err? then Err(fsr.error)
    else
      var fs := fsr.value;
      SplitShape(Inputs(fs), Targets(fs), perm);
      SplitRectangular(Inputs(fs), Targets(fs), perm, 3);
      TrainTestSplit(Inputs(fs), Targets(fs), perm)
  }

  /** The training targets are the risk scores of the training windows. */
  lemma PrepareDataTargets(windows: seq<seq<real>>, perm: seq<nat>, sqrt: real -> real, i: nat)
    requires AllPositive(windows) && IsSqrt(sqrt) && IsPermutation(perm, |windows|)
    requires PrepareData(windows, perm, sqrt).Ok?
    requires i < |PrepareData(windows, perm, sqrt).value.yTrain|
    ensures RiskScore(windows[perm[TestCount(|windows|) + i]], sqrt) == Ok(PrepareData(windows, perm, sqrt).value.yTrain[i])
  {
    var fs := ExtractAll(windows, sqrt).value;
    SplitShape(Inputs(fs), Targets(fs), perm);
    var k := perm[TestCount(|windows|) + i];
    assert ExtractFeatures(windows[k], sqrt) == Ok(fs[k]);
    ExtractFeaturesFields(windows[k], sqrt);
  }

  /** `prepare_data` as written receives one `market_data` and so builds a
      frame of one feature row: `train_test_split` with `test_size=0.2` puts
      that one sample in the test set and refuses the empty training set, so
      `train_model` fails for every input. */
  lemma PrepareDataOneWindowFails(w: seq<real>, perm: seq<nat>, sqrt: real -> real)
    requires AllPositive([w]) && IsSqrt(sqrt) && IsPermutation(perm, 1)
    ensures |w| < LongWindow ==> PrepareData([w], perm, sqrt) == Err(InsufficientHistory)
    ensures |w| >= LongWindow ==> PrepareData([w], perm, sqrt) == Err(InvalidArgument)
  {
    assert [w][0] == w;
    assert TestCount(1) == 1;
  }

  /** `np.mean([rf_prediction, xgb_prediction])` for one sample: the average
      of the two predictions, which lies between them. */
  function Ensemble(a: real, b: real): (m: real)
    ensures MinR(a, b) <= m <= MaxR(a, b)
    ensures a == b ==> m == a
    ensures m - a == b - m
  {
    (a + b) / 2.0
  }

  /** The model as trained by `train_model`. */
  class RiskPredictionModel {
    var rfModel: Estimator
    var xgbModel: Estimator
    var scaler: Scaler

    /** Whatever has been fitted has been fitted on the three model features. */
    predicate Valid()
      reads this
    {
      ValidScaler(scaler)
      && (scaler.ScalerFitted? ==> Columns(scaler) == 3)
      && (rfModel.Fitted? ==> rfModel.features == 3)
      && (xgbModel.Fitted? ==> xgbModel.features == 3)
    }

    predicate Trained()
      reads this
    {
      scaler.ScalerFitted? && rfModel.Fitted? && xgbModel.Fitted?
    }

    constructor ()
      ensures rfModel == Unfitted && xgbModel == Unfitted && scaler == ScalerUnfitted
      ensures Valid() && !Trained()
    {
      rfModel := Unfitted;
      xgbModel := Unfitted;
      scaler := ScalerUnfitted;
    }

    /** `train_model`: the scaler learns the training partition only, and
        both regressors learn from the scaled training partition. A failure
        leaves the model as it was. */
    method TrainModel(windows: seq<seq<real>>, perm: seq<nat>, sqrt: real -> real, rfLearn: Learner, xgbLearn: Learner)
      returns (r: Result<()>)
      requires AllPositive(windows) && IsSqrt(sqrt) && IsPermutation(perm, |windows|)
      requires Valid()
      modifies this
      ensures Valid()
      ensures r.Ok? <==> PrepareData(windows, perm, sqrt).Ok?
      ensures r.Ok? ==>
        Trained()
        && var split := PrepareData(windows, perm, sqrt).value;
        scaler == FitStandard(split.xTrain, sqrt).value
        && Transform(scaler, split.xTrain).Ok?
        && rfModel == Fitted(3, rfLearn(Transform(scaler, split.xTrain).value, split.yTrain))
        && xgbModel == Fitted(3, xgbLearn(Transform(scaler, split.xTrain).value, split.yTrain))
      ensures r.Err? ==> rfModel == old(rfModel) && xgbModel == old(xgbModel) && scaler == old(scaler)
    {
      var prepared := PrepareData(windows, perm, sqrt);
      if prepared.Err? {
        return Err(prepared.error);
      }
      var split := prepared.value;
      var fittedScaler := FitStandard(split.xTrain, sqrt).value;
      var xTrainScaled := Transform(fittedScaler, split.xTrain).value;
      var xTestScaled := Transform(fittedScaler, split.xTest).value;
      scaler := fittedScaler;
      rfModel := Fit(xTrainScaled, split.yTrain, rfLearn).value;
      xgbModel := Fit(xTrainScaled, split.yTrain, xgbLearn).value;
      return Ok(());
    }

    /** A feature row scaled as in training, then both regressors'
        predictions averaged. */
    function PredictRow(row: Row): (r: Result<real>)
      reads this
      requires Valid()
      ensures scaler.ScalerUnfitted? ==> r == Err(NotFitted)
      ensures scaler.ScalerFitted? && |row| != 3 ==> r == Err(DimensionMismatch)
      ensures |row| == 3 && !Trained() ==> r == Err(NotFitted)
      ensures r.Ok? <==> Trained() && |row| == 3
      ensures r.Ok? ==>
        var z := ScaleRow(scaler.offset, scaler.scale, row);
        r.value == Ensemble(rfModel.rule(z), xgbModel.rule(z))
    {
      var z := Transform(scaler, [row]);
      assert scaler.ScalerFitted? && |row| != 3 ==> !Rectangular([row], Columns(scaler)) by {
        assert [row][0] == row;
      }
      if z.Err? then Err(z.error)
      else
        var a, b := Predict(rfModel, z.value), Predict(xgbModel, z.value);
        if a.Err? then Err(a.error)
        else if b.Err? then Err(b.error)
        else Ok(Ensemble(a.value[0], b.value[0]))
    }

    /** `predict_risk` with the frame reduced to the features the model was
        trained on: the average of the two regressors' predictions for the
        window's scaled features. */
    function PredictRisk(p: seq<real>, sqrt: real -> real): (r: Result<real>)
      reads this
      requires PositivePrices(p) && IsSqrt(sqrt) && Valid()
      ensures |p| < LongWindow ==> r == Err(InsufficientHistory)
      ensures |p| >= LongWindow && !Trained() ==> r == Err(NotFitted)
      ensures r.Ok? <==> |p| >= LongWindow && Trained()
      ensures r.Ok? ==> r == PredictRow(FeatureRow(ExtractFeatures(p, sqrt).value))
    {
      if |p| < LongWindow then Err(InsufficientHistory)
      else PredictRow(FeatureRow(ExtractFeatures(p, sqrt).value))
    }

    /** `predict_risk` as written: the whole frame, `risk_score` included, is
        handed to a scaler fitted on three columns. */
    function PredictRiskAsWritten(p: seq<real>, sqrt: real -> real): (r: Result<real>)
      reads this
      requires PositivePrices(p) && IsSqrt(sqrt) && Valid()
    {
      if |p| < LongWindow then Err(InsufficientHistory)
      else PredictRow(FrameRow(ExtractFeatures(p, sqrt).value))
    }
  }

  /** After training, every window long enough gets a risk prediction from
      the corrected pipeline, while the pipeline as written rejects every
      window: the frame it scales has four columns, the scaler three. */
  lemma PredictRiskAsWrittenAlwaysFails(m: RiskPredictionModel, p: seq<real>, sqrt: real -> real)
    requires PositivePrices(p) && IsSqrt(sqrt) && m.Valid() && m.Trained() && |p| >= LongWindow
    ensures m.PredictRisk(p, sqrt).Ok?
    ensures m.PredictRiskAsWritten(p, sqrt) == Err(DimensionMismatch)
  {
  }
}
