/** The single-series LSTM predictor of `price_predictor.py`: a min-max
    scaled price column cut into windows of 60 observations, each paired with
    the observation after it; a prediction from the last 60 observations;
    and a confidence score from the volatility of the last 30 prices. */
module PricePredictor {
  import opened Results
  import opened Stats
  import opened Learning

  const Lookback: nat := 60
  const ConfidenceWindow: nat := 30

  /** A price series as the one-column frame the scaler takes. */
  function AsColumn(h: seq<real>): (X: Matrix)
    ensures |X| == |h| && Rectangular(X, 1)
    ensures forall i :: 0 <= i < |h| ==> X[i] == [h[i]]
  {
    seq(|h|, i requires 0 <= i < |h| => [h[i]])
  }

  /** The first column of a frame. */
  function FirstColumn(X: Matrix): (c: seq<real>)
    requires Rectangular(X, 1)
    ensures |c| == |X|
    ensures forall i :: 0 <= i < |X| ==> c[i] == X[i][0]
  {
    seq(|X|, i requires 0 <= i < |X| => X[i][0])
  }

  /** `scaler.transform` of a one-column series, read back as a series. */
  function ScaleSeries(s: Scaler, h: seq<real>): (r: seq<real>)
    requires ValidScaler(s) && s.ScalerFitted? && Columns(s) == 1 && |h| > 0
    ensures |r| == |h|
    ensures forall i :: 0 <= i < |h| ==> r[i] == (h[i] - s.offset[0]) / s.scale[0]
  {
    var T := Transform(s, AsColumn(h)).value;
    var r := FirstColumn(T);
    assert forall i :: 0 <= i < |h| ==> T[i] == ScaleRow(s.offset, s.scale, [h[i]]);
    r
  }

  // ---------------------------------------------------------------------------
  // _calculate_confidence
  // ---------------------------------------------------------------------------

  /** `historical_data[-30:]`: the last min(30, n) prices. */
  function RecentPrices(h: seq<real>): (r: seq<real>)
    ensures |r| == if |h| < ConfidenceWindow then |h| else ConfidenceWindow
    ensures r == h[|h| - |r|..]
  {
    if |h| < ConfidenceWindow then h else h[|h| - ConfidenceWindow..]
  }

  /** `max(0, min(1, x))`. */
  function Clamp01(x: real): (r: real)
    ensures 0.0 <= r <= 1.0
    ensures 0.0 <= x <= 1.0 ==> r == x
  {
    MaxR(0.0, MinR(1.0, x))
  }

  /** `np.std(recent) / np.mean(recent)` with the population standard
      deviation; undefined for no prices or a zero mean. */
  function RelativeVolatility(h: seq<real>, sqrt: real -> real): (r: Result<real>)
    requires IsSqrt(sqrt)
    ensures r.Ok? <==> |h| > 0 && Mean(RecentPrices(h)) != 0.0
  {
    var recent := RecentPrices(h);
    if |recent| == 0 then Err(InsufficientHistory)
    else if Mean(recent) == 0.0 then Err(DivisionByZero)
    else Ok(sqrt(PopulationVariance(recent)) / Mean(recent))
  }

  /** `_calculate_confidence`: the clamped complement of the relative
      volatility, as a percentage. The predicted price takes no part. */
  function CalculateConfidence(h: seq<real>, predicted: real, sqrt: real -> real): (r: Result<real>)
    requires IsSqrt(sqrt)
    ensures r.Ok? <==> |h| > 0 && Mean(RecentPrices(h)) != 0.0
    ensures r.Ok? ==> 0.0 <= r.value <= 100.0
  {
    var v :- RelativeVolatility(h, sqrt);
    Ok(Clamp01(1.0 - v) * 100.0)
  }

  /** The confidence does not depend on the predicted price. */
  lemma ConfidenceIgnoresPrediction(h: seq<real>, p1: real, p2: real, sqrt: real -> real)
    requires IsSqrt(sqrt)
    ensures CalculateConfidence(h, p1, sqrt) == CalculateConfidence(h, p2, sqrt)
  {
  }

  /** Only the last 30 prices count: older history changes nothing. */
  lemma ConfidenceUsesRecentPrices(older: seq<real>, h: seq<real>, p: real, sqrt: real -> real)
    requires IsSqrt(sqrt) && |h| >= ConfidenceWindow
    ensures CalculateConfidence(older + h, p, sqrt) == CalculateConfidence(h, p, sqrt)
  {
    assert RecentPrices(older + h) == RecentPrices(h);
  }

  /** Flat recent prices (at any non-zero level) give full confidence. */
  lemma ConfidenceOfFlatPrices(h: seq<real>, p: real, sqrt: real -> real)
    requires IsSqrt(sqrt) && |h| > 0 && Constant(RecentPrices(h)) && RecentPrices(h)[0] != 0.0
    ensures CalculateConfidence(h, p, sqrt) == Ok(100.0)
  {
    var recent := RecentPrices(h);
    MeanOfConstant(recent, recent[0]);
    PopulationVarianceZeroIffConstant(recent);
    SqrtZeroIff(sqrt, 0.0);
  }

  /** The samples of `prepare_data`: one per observation after the first 60,
      its window the 60 scaled values before it and its target that value. */
  ghost predicate Windowed(sc: seq<real>, X: seq<Row>, y: seq<real>)
  {
    |X| == |y| == (if |sc| > Lookback then |sc| - Lookback else 0)
    && forall k :: 0 <= k < |X| ==> X[k] == sc[k..k + Lookback] && y[k] == sc[k + Lookback]
  }

  /** The loop of `prepare_data` over a scaled series. */
  method Windows(sc: seq<real>) returns (X: seq<Row>, y: seq<real>)
    ensures Windowed(sc, X, y)
  {
    X := [];
    y := [];
    var i := Lookback;
    while i < |sc|
      invariant Lookback <= i && (|sc| >= Lookback ==> i <= |sc|)
      invariant i == Lookback || i <= |sc|
      invariant |X| == |y| == i - Lookback
      invariant forall k :: 0 <= k < |X| ==> X[k] == sc[k..k + Lookback] && y[k] == sc[k + Lookback]
    {
      X := X + [sc[i - Lookback..i]];
      y := y + [sc[i]];
      i := i + 1;
    }
  }

  /** The first m windows of a scaled series. */
  function WindowRows(sc: seq<real>, m: nat): (X: seq<Row>)
    requires m + Lookback <= |sc|
    ensures |X| == m && forall k :: 0 <= k < m ==> X[k] == sc[k..k + Lookback]
  {
    seq(m, k requires 0 <= k < m => sc[k..k + Lookback])
  }

  /** The targets of the first m windows of a scaled series. */
  function WindowTargets(sc: seq<real>, m: nat): (y: seq<real>)
    requires m + Lookback <= |sc|
    ensures |y| == m && forall k :: 0 <= k < m ==> y[k] == sc[k + Lookback]
  {
    seq(m, k requires 0 <= k < m => sc[k + Lookback])
  }

  /** Keras' `validation_split=0.2`: of n samples the first floor(0.8 n)
      train the model and the rest validate it. Both parts are non-empty
      exactly when there are at least two samples. */
  function ValidationSplitAt(n: nat): (m: nat)
    ensures m <= n
    ensures 0 < m < n <==> n >= 2
  {
    n * 4 / 5
  }

  datatype Prediction = Prediction(predictedPrice: real, confidenceScore: real)

  class PricePredictor {
    var scaler: Scaler
    /** The LSTM, a rule on windows of 60 scaled values. Keras builds it
        with its input shape, so it predicts before any training. */
    var model: Estimator

    predicate Valid()
      reads this
    {
      ValidScaler(scaler) && (scaler.ScalerFitted? ==> Columns(scaler) == 1)
      && model.Fitted? && model.features == Lookback
    }

    constructor (untrained: Row -> real)
      ensures Valid()
      ensures scaler == ScalerUnfitted && model == Fitted(Lookback, untrained)
    {
      scaler := ScalerUnfitted;
      model := Fitted(Lookback, untrained);
    }

    /** `prepare_data`: fits the scaler on the whole series, then pairs every
        window of 60 scaled values with the value right after it. */
    method PrepareData(h: seq<real>) returns (r: Result<(seq<Row>, seq<real>)>)
      requires Valid()
      modifies this
      ensures Valid() && model == old(model)
      ensures r.Ok? <==> |h| > 0
      ensures r.Err? ==> scaler == old(scaler)
      ensures r.Ok? ==> scaler == FitMinMax(AsColumn(h)).value
      ensures r.Ok? ==>
        var sc := ScaleSeries(scaler, h);
        var (X, y) := r.value;
        |X| == |y| == (if |h| > Lookback then |h| - Lookback else 0)
        && forall k :: 0 <= k < |X| ==> X[k] == sc[k..k + Lookback] && y[k] == sc[k + Lookback]
    {
      var fitted := FitMinMax(AsColumn(h));
      if fitted.Err? {
        return Err(fitted.error);
      }
      scaler := fitted.value;
      var scaled := FirstColumn(Transform(scaler, AsColumn(h)).value);
      ghost var sc := ScaleSeries(scaler, h);
      assert scaled == sc;
      var X, y := Windows(scaled);
      return Ok((X, y));
    }

    /** `train`: Keras fits the model on the first part of the windows that
        `validation_split=0.2` leaves for training, and refuses a split that
        leaves either part empty; the scaler has been refitted on the series
        even when the fit fails. */
    method Train(h: seq<real>, learn: Learner) returns (r: Result<()>)
      requires Valid()
      modifies this
      ensures Valid()
      ensures r.Ok? <==> |h| > Lookback + 1
      ensures |h| > 0 ==> scaler == FitMinMax(AsColumn(h)).value
      ensures r.Ok? ==>
        var m := ValidationSplitAt(|h| - Lookback);
        var sc := ScaleSeries(scaler, h);
        model == Fitted(Lookback, learn(WindowRows(sc, m), WindowTargets(sc, m)))
      ensures r.Err? ==> model == old(model)
    {
      var data := PrepareData(h);
      if data.Err? {
        return Err(data.error);
      }
      var (X, y) := data.value;
      var m := ValidationSplitAt(|X|);
      if m == 0 || m == |X| {
        return Err(InvalidArgument);
      }
      ghost var sc := ScaleSeries(scaler, h);
      assert X[..m] == WindowRows(sc, m) && y[..m] == WindowTargets(sc, m);
      model := Fit(X[..m], y[..m], learn).value;
      return Ok(());
    }


    /** The prediction step of `predict`: scale the observations, take the
        last 60, run the model on them and map its output back to a price. */
    method Forecast(recent: seq<real>) returns (price: real)
      requires Valid() && scaler.ScalerFitted? && |recent| >= Lookback
      ensures price == Unscale(scaler, model.rule(LatestWindow(scaler, recent)))
    {
      var scaledRecent := ScaleSeries(scaler, recent);
      var input := scaledRecent[|scaledRecent| - Lookback..];
      PredictOne(model, input);
      var predicted := Learning.Predict(model, [input]);
      var out := predicted.value[0];
      InverseOne(scaler, out);
      var restored := InverseTransform(scaler, [[out]]);
      price := restored.value[0][0];
    }

    /** `predict`: the last 60 observations, scaled with the scaler fitted in
        `prepare_data`, go through the model; its output is mapped back to a
        price. Refused before the scaler is fitted, for fewer than 60
        observations, or when the recent prices average zero. */
    method Predict(recent: seq<real>, sqrt: real -> real) returns (r: Result<Prediction>)
      requires Valid() && IsSqrt(sqrt)
      ensures scaler.ScalerUnfitted? ==> r == Err(NotFitted)
      ensures r.Ok? <==> scaler.ScalerFitted? && |recent| >= Lookback && Mean(RecentPrices(recent)) != 0.0
      ensures r.Ok? ==>
        r.value.predictedPrice == Unscale(scaler, model.rule(LatestWindow(scaler, recent)))
        && Ok(r.value.confidenceScore) == CalculateConfidence(recent, r.value.predictedPrice, sqrt)
        && 0.0 <= r.value.confidenceScore <= 100.0
    {
      if scaler.ScalerUnfitted? {
        return Err(NotFitted);
      }
      if |recent| == 0 {
        return Err(ShapeError);
      }
      if |ScaleSeries(scaler, recent)| < Lookback {
        return Err(InsufficientHistory);
      }
      var price := Forecast(recent);
      var confidence := CalculateConfidence(recent, price, sqrt);
      if confidence.Err? {
        return Err(confidence.error);
      }
      return Ok(Prediction(price, confidence.value));
    }
  }

  /** After `prepare_data`, every scaled value of the training series, and so
      every window and target, lies in [0, 1]. */
  lemma ScaledHistoryInUnitRange(h: seq<real>)
    requires |h| > 0
    ensures FitMinMax(AsColumn(h)).Ok?
    ensures forall i :: 0 <= i < |h| ==> 0.0 <= ScaleSeries(FitMinMax(AsColumn(h)).value, h)[i] <= 1.0
  {
    var X := AsColumn(h);
    MinMaxUnitRange(X);
    var s := FitMinMax(X).value;
    forall i | 0 <= i < |h| ensures 0.0 <= ScaleSeries(s, h)[i] <= 1.0 {
      assert Transform(s, X).value[i][0] == ScaleSeries(s, h)[i];
    }
  }



  /** The model input: the last 60 values of the scaled series. */
  function LatestWindow(s: Scaler, recent: seq<real>): (w: Row)
    requires ValidScaler(s) && s.ScalerFitted? && Columns(s) == 1 && |recent| >= Lookback
    ensures |w| == Lookback
  {
    ScaleSeries(s, recent)[|recent| - Lookback..]
  }

  /** `inverse_transform` of one value: back from [0, 1] to a price. */
  function Unscale(s: Scaler, x: real): real
    requires ValidScaler(s) && s.ScalerFitted? && Columns(s) == 1
  {
    x * s.scale[0] + s.offset[0]
  }

  /** A fitted model asked about one sample answers with its rule. */
  lemma PredictOne(e: Estimator, w: Row)
    requires e.Fitted? && |w| == e.features
    ensures Learning.Predict(e, [w]) == Ok([e.rule(w)])
  {
    assert [w][0] == w;
    assert Rectangular([w], e.features);
    var r := Learning.Predict(e, [w]);
    assert r.Ok? && |r.value| == 1;
    assert r.value[0] == e.rule(w);
    assert r.value == [e.rule(w)];
  }

  /** `inverse_transform([[x]])` for a one-column scaler. */
  lemma InverseOne(s: Scaler, x: real)
    requires ValidScaler(s) && s.ScalerFitted? && Columns(s) == 1
    ensures InverseTransform(s, [[x]]) == Ok([[Unscale(s, x)]])
  {
    var X := [[x]];
    assert X[0] == [x];
    assert Rectangular(X, 1);
    var u := UnscaleRow(s.offset, s.scale, [x]);
    assert u[0] == Unscale(s, x);
    assert u == [Unscale(s, x)];
    var r := InverseTransform(s, X);
    assert r.Ok? && |r.value| == 1 && r.value[0] == u;
    assert r.value == [u];
  }

  /** Scaling an unscaled price again gives back the model's output. */
  lemma UnscaleRoundTrip(s: Scaler, x: real)
    requires ValidScaler(s) && s.ScalerFitted? && Columns(s) == 1
    ensures (Unscale(s, x) - s.offset[0]) / s.scale[0] == x
  {
    var c, o := s.scale[0], s.offset[0];
    assert Unscale(s, x) - o == x * c;
  }


  /** Consecutive windows overlap in all but one value: window k + 1 is window
      k shifted by one step, its last value the target of window k. */
  lemma WindowsSlide(sc: seq<real>, X: seq<Row>, y: seq<real>, k: nat)
    requires Windowed(sc, X, y) && k + 1 < |X|
    ensures |X[k]| == |X[k + 1]| == Lookback
    ensures X[k + 1][..Lookback - 1] == X[k][1..]
    ensures X[k + 1][Lookback - 1] == y[k]
  {
  }
}
