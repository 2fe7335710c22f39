/** The ensemble coordinator of `price_prediction_model.py`: a fixed,
    ordered set of named estimators trained on one min-max scaled split,
    scored by MAE and RMSE, combined by an elementwise mean and given
    per-model percentile intervals. */
module PricePrediction {
  import opened Results
  import opened Stats
  import opened Sorting
  import opened Learning
  import opened JsObject

  /** The models dictionary, in insertion order. */
  const ModelNames: seq<string> := ["lstm", "random_forest", "xgboost", "transformer"]

  const PriceColumn: string := "price"

  // ---------------------------------------------------------------------------
  // preprocess_data
  // ---------------------------------------------------------------------------

  /** The engineered feature frame: named columns, one row per observation. */
  datatype Frame = Frame(columns: seq<string>, rows: seq<Row>)

  predicate WellFormedFrame(f: Frame)
  {
    (forall i, j :: 0 <= i < j < |f.columns| ==> f.columns[i] != f.columns[j])
    && Rectangular(f.rows, |f.columns|)
  }

  function IndexOf(cols: seq<string>, name: string): (r: Option<nat>)
    ensures r.Some? <==> name in cols
    ensures r.Some? ==> r.value < |cols| && cols[r.value] == name
  {
    if cols == [] then None
    else if cols[0] == name then Some(0)
    else
      var r := IndexOf(cols[1..], name);
      if r.Some? then Some(r.value + 1) else None
  }

  function DropAt(row: Row, j: nat): (r: Row)
    requires j < |row|
    ensures |r| == |row| - 1
    ensures forall k :: 0 <= k < j ==> r[k] == row[k]
    ensures forall k :: j <= k < |r| ==> r[k] == row[k + 1]
  {
    row[..j] + row[j + 1..]
  }

  /** `features.drop('price', axis=1)` and `features['price']`. */
  function DropPrice(f: Frame): (r: Result<(Matrix, seq<real>)>)
    requires WellFormedFrame(f)
    ensures r.Ok? <==> PriceColumn in f.columns
    ensures r.Err? ==> r.error == MissingColumn(PriceColumn)
    ensures r.Ok? ==> var j := IndexOf(f.columns, PriceColumn).value;
      |r.value.0| == |r.value.1| == |f.rows|
      && Rectangular(r.value.0, |f.columns| - 1)
      && (forall i :: 0 <= i < |f.rows| ==> r.value.1[i] == f.rows[i][j])
      && (forall i :: 0 <= i < |f.rows| ==> r.value.0[i] == DropAt(f.rows[i], j))
  {
    var jr := IndexOf(f.columns, PriceColumn);
    if jr.None? then Err(MissingColumn(PriceColumn))
    else
      var j := jr.value;
      var n := |f.rows|;
      Ok((seq(n, i requires 0 <= i < n => DropAt(f.rows[i], j)), seq(n, i requires 0 <= i < n => f.rows[i][j])))
  }

  /** `preprocess_data`: the scaler is fitted on every row of X, then the
      scaled rows are split 80/20 with the shuffle `perm`. */
  function PreprocessData(f: Frame, perm: seq<nat>): (r: Result<Split>)
    requires WellFormedFrame(f) && IsPermutation(perm, |f.rows|)
    ensures r.Ok? ==>
      WellShaped(r.value.xTrain) && |r.value.xTrain[0]| == |f.columns| - 1
      && Rectangular(r.value.xTest, |f.columns| - 1)
      && |r.value.yTrain| == |r.value.xTrain| && |r.value.yTest| == |r.value.xTest| > 0
  {
    var xy :- DropPrice(f);
    var scaler :- FitMinMax(xy.0);
    var scaled := Transform(scaler, xy.0).value;
    SplitRectangular(scaled, xy.1, perm, |f.columns| - 1);
    TrainTestSplit(scaled, xy.1, perm)
  }

  /** Preprocessing succeeds exactly when the frame has a price column, at
      least one other column and at least two rows. */
  lemma PreprocessDataOk(f: Frame, perm: seq<nat>)
    requires WellFormedFrame(f) && IsPermutation(perm, |f.rows|)
    ensures PreprocessData(f, perm).Ok? <==> PriceColumn in f.columns && |f.columns| >= 2 && |f.rows| >= 2
  {
    var dp := DropPrice(f);
    if dp.Ok? {
      var X, y := dp.value.0, dp.value.1;
      if |X| > 0 {
        assert |X[0]| == |f.columns| - 1;
      }
      if FitMinMax(X).Ok? {
        var S := Transform(FitMinMax(X).value, X).value;
        MinMaxUnitRange(X);
        SplitShape(S, y, perm);
        SplitRectangular(S, y, perm, |f.columns| - 1);
      }
    }
  }

  /** The training and the test rows both lie in [0, 1] in every feature,
      because the scaler saw the test rows too. */
  lemma PreprocessDataUnitRange(f: Frame, perm: seq<nat>)
    requires WellFormedFrame(f) && IsPermutation(perm, |f.rows|)
    ensures PreprocessData(f, perm).Ok? ==>
      var s := PreprocessData(f, perm).value;
      (forall i, k :: 0 <= i < |s.xTrain| && 0 <= k < |f.columns| - 1 ==> 0.0 <= s.xTrain[i][k] <= 1.0)
      && (forall i, k :: 0 <= i < |s.xTest| && 0 <= k < |f.columns| - 1 ==> 0.0 <= s.xTest[i][k] <= 1.0)
  {
    var dp := DropPrice(f);
    if dp.Ok? {
      var X, y := dp.value.0, dp.value.1;
      if |X| > 0 {
        assert |X[0]| == |f.columns| - 1;
      }
      if FitMinMax(X).Ok? {
        var S := Transform(FitMinMax(X).value, X).value;
        MinMaxUnitRange(X);
        SplitShape(S, y, perm);
        SplitRectangular(S, y, perm, |f.columns| - 1);
      }
    }
  }

  /** The test part holds the first `TestCount(n)` rows drawn and the
      training part the rest; the targets are the prices of those rows. */
  lemma PreprocessDataTargets(f: Frame, perm: seq<nat>)
    requires WellFormedFrame(f) && IsPermutation(perm, |f.rows|)
    ensures PreprocessData(f, perm).Ok? ==>
      var s := PreprocessData(f, perm).value;
      var t := TestCount(|f.rows|);
      var j := IndexOf(f.columns, PriceColumn).value;
      |s.yTrain| == |s.xTrain| == |f.rows| - t && |s.yTest| == |s.xTest| == t
      && (forall i :: 0 <= i < |s.yTrain| ==> s.yTrain[i] == f.rows[perm[t + i]][j])
      && (forall i :: 0 <= i < |s.yTest| ==> s.yTest[i] == f.rows[perm[i]][j])
  {
    var dp := DropPrice(f);
    if dp.Ok? {
      var X, y := dp.value.0, dp.value.1;
      if |X| > 0 {
        assert |X[0]| == |f.columns| - 1;
      }
      if FitMinMax(X).Ok? {
        var S := Transform(FitMinMax(X).value, X).value;
        MinMaxUnitRange(X);
        SplitShape(S, y, perm);
        SplitRectangular(S, y, perm, |f.columns| - 1);
      }
    }
  }



  // ---------------------------------------------------------------------------
  // Error metrics
  // ---------------------------------------------------------------------------

  function AbsErrors(y: seq<real>, p: seq<real>): (e: seq<real>)
    requires |y| == |p|
    ensures |e| == |y|
    ensures forall i :: 0 <= i < |y| ==> e[i] == Abs(y[i] - p[i])
  {
    seq(|y|, i requires 0 <= i < |y| => Abs(y[i] - p[i]))
  }

  function SquaredErrors(y: seq<real>, p: seq<real>): (e: seq<real>)
    requires |y| == |p|
    ensures |e| == |y|
    ensures forall i :: 0 <= i < |y| ==> e[i] == Square(y[i] - p[i])
  {
    seq(|y|, i requires 0 <= i < |y| => Square(y[i] - p[i]))
  }

  /** `mean_absolute_error(y_true, y_pred)`. */
  function MeanAbsoluteError(y: seq<real>, p: seq<real>): real
    requires |y| == |p| > 0
  {
    Mean(AbsErrors(y, p))
  }

  /** `mean_squared_error(y_true, y_pred)`. */
  function MeanSquaredError(y: seq<real>, p: seq<real>): real
    requires |y| == |p| > 0
  {
    Mean(SquaredErrors(y, p))
  }

  /** MAE is non-negative and zero exactly when every prediction is its target. */
  lemma MeanAbsoluteErrorZeroIff(y: seq<real>, p: seq<real>)
    requires |y| == |p| > 0
    ensures 0.0 <= MeanAbsoluteError(y, p)
    ensures MeanAbsoluteError(y, p) == 0.0 <==> y == p
  {
    var e := AbsErrors(y, p);
    MeanZeroIffAllZero(e);
    if MeanAbsoluteError(y, p) == 0.0 {
      assert forall i :: 0 <= i < |y| ==> y[i] == p[i] by {
        forall i | 0 <= i < |y| ensures y[i] == p[i] {
          assert e[i] == 0.0;
        }
      }
    }
  }

  /** MSE is non-negative and zero exactly when every prediction is its target. */
  lemma MeanSquaredErrorZeroIff(y: seq<real>, p: seq<real>)
    requires |y| == |p| > 0
    ensures 0.0 <= MeanSquaredError(y, p)
    ensures MeanSquaredError(y, p) == 0.0 <==> y == p
  {
    var e := SquaredErrors(y, p);
    forall i | 0 <= i < |y| ensures 0.0 <= e[i] && (e[i] == 0.0 <==> y[i] == p[i]) {
      SquareZeroIff(y[i] - p[i]);
    }
    MeanZeroIffAllZero(e);
    if MeanSquaredError(y, p) == 0.0 {
      assert forall i :: 0 <= i < |y| ==> y[i] == p[i] by {
        forall i | 0 <= i < |y| ensures y[i] == p[i] {
          assert e[i] == 0.0;
        }
      }
    }
  }

  datatype Metrics = Metrics(mae: real, rmse: real)

  /** The `{mae, rmse}` record for one model's test predictions. */
  function Score(y: seq<real>, p: seq<real>, sqrt: real -> real): (m: Metrics)
    requires |y| == |p| > 0 && IsSqrt(sqrt)
    ensures 0.0 <= m.mae && 0.0 <= m.rmse
    ensures m.mae == 0.0 <==> y == p
    ensures m.rmse == 0.0 <==> y == p
    ensures Square(m.rmse) == MeanSquaredError(y, p)
  {
    MeanAbsoluteErrorZeroIff(y, p);
    MeanSquaredErrorZeroIff(y, p);
    SqrtZeroIff(sqrt, MeanSquaredError(y, p));
    Metrics(MeanAbsoluteError(y, p), sqrt(MeanSquaredError(y, p)))
  }

  // ---------------------------------------------------------------------------
  // Ensemble mean and percentiles
  // ---------------------------------------------------------------------------

  /** `np.mean(vectors, axis=0)`: refused for no vectors or vectors of
      different lengths. */
  function ElementwiseMean(vs: seq<seq<real>>): (r: Result<seq<real>>)
    ensures r.Ok? <==> |vs| > 0 && forall i :: 0 <= i < |vs| ==> |vs[i]| == |vs[0]|
    ensures r.Ok? ==> |r.value| == |vs[0]|
    ensures r.Err? ==> r.error == ShapeError
  {
    if |vs| == 0 || exists i :: 0 <= i < |vs| && |vs[i]| != |vs[0]| then Err(ShapeError)
    else
      var m := |vs[0]|;
      Ok(seq(m, j requires 0 <= j < m => Mean(Column(vs, j))))
  }

  /** Each entry of the ensemble lies between the smallest and largest of the
      models' predictions for that sample. */
  lemma ElementwiseMeanBetween(vs: seq<seq<real>>, j: nat)
    requires ElementwiseMean(vs).Ok? && j < |vs[0]|
    ensures Min(Column(vs, j)) <= ElementwiseMean(vs).value[j] <= Max(Column(vs, j))
  {
    var c := Column(vs, j);
    MeanBetween(c, Min(c), Max(c));
  }

  /** Models that agree on a sample give the ensemble that value. */
  lemma ElementwiseMeanAgreement(vs: seq<seq<real>>, j: nat, v: real)
    requires ElementwiseMean(vs).Ok? && j < |vs[0]|
    requires forall i :: 0 <= i < |vs| ==> vs[i][j] == v
    ensures ElementwiseMean(vs).value[j] == v
  {
    MeanOfConstant(Column(vs, j), v);
  }

  lemma ElementwiseMeanExample()
    ensures ElementwiseMean([[1.0, 2.0, 3.0], [3.0, 4.0, 5.0]]) == Ok([2.0, 3.0, 4.0])
  {
    var vs := [[1.0, 2.0, 3.0], [3.0, 4.0, 5.0]];
    var r := ElementwiseMean(vs).value;
    assert Column(vs, 0) == [1.0, 3.0];
    assert Column(vs, 1) == [2.0, 4.0];
    assert Column(vs, 2) == [3.0, 5.0];
    assert [1.0, 3.0][..1] == [1.0] && [2.0, 4.0][..1] == [2.0] && [3.0, 5.0][..1] == [3.0];
    assert [1.0][..0] == [] && [2.0][..0] == [] && [3.0][..0] == [];
    assert Sum([1.0, 3.0]) == 4.0 && Sum([2.0, 4.0]) == 6.0 && Sum([3.0, 5.0]) == 8.0;
    assert r[0] == 2.0 && r[1] == 3.0 && r[2] == 4.0;
    assert r == [2.0, 3.0, 4.0];
  }

  /** Linear interpolation between a and b. */
  function Lerp(a: real, b: real, t: real): real
  {
    a + (b - a) * t
  }

  lemma MulBetween(c: real, t: real)
    requires 0.0 <= c && 0.0 <= t <= 1.0
    ensures 0.0 <= c * t <= c
  {
    if 0.0 < c && 0.0 < t {
      MulPos(c, t);
      if t < 1.0 {
        MulPos(c, 1.0 - t);
      }
    }
  }

  lemma MulMonotone(c: real, t1: real, t2: real)
    requires 0.0 <= c && t1 <= t2
    ensures c * t1 <= c * t2
  {
    assert c * t2 - c * t1 == c * (t2 - t1);
    if 0.0 < c && t1 < t2 {
      MulPos(c, t2 - t1);
    }
  }

  lemma LerpBetween(a: real, b: real, t: real)
    requires a <= b && 0.0 <= t <= 1.0
    ensures a <= Lerp(a, b, t) <= b
  {
    var c := b - a;
    MulBetween(c, t);
    assert Lerp(a, b, t) == a + c * t;
  }

  lemma LerpMonotone(a: real, b: real, t1: real, t2: real)
    requires a <= b && t1 <= t2
    ensures Lerp(a, b, t1) <= Lerp(a, b, t2)
  {
    var c := b - a;
    MulMonotone(c, t1, t2);
    assert Lerp(a, b, t1) == a + c * t1 && Lerp(a, b, t2) == a + c * t2;
  }

  /** The virtual index q/100 * (n - 1) of numpy's linear method. */
  function Rank(n: nat, q: real): (r: real)
    requires 0 < n && 0.0 <= q <= 100.0
    ensures 0.0 <= r <= (n - 1) as real
  {
    var c, t := (n - 1) as real, q / 100.0;
    assert 0.0 <= t <= 1.0;
    MulBetween(c, t);
    c * t
  }

  lemma RankMonotone(n: nat, q1: real, q2: real)
    requires 0 < n && 0.0 <= q1 <= q2 <= 100.0
    ensures Rank(n, q1) <= Rank(n, q2)
  {
    var c, t1, t2 := (n - 1) as real, q1 / 100.0, q2 / 100.0;
    assert t1 <= t2;
    MulMonotone(c, t1, t2);
    assert Rank(n, q1) == c * t1 && Rank(n, q2) == c * t2;
  }

  /** The sorted sequence interpolated at a virtual index. */
  function Interpolate(s: seq<real>, rank: real): real
    requires 0.0 <= rank <= (|s| - 1) as real
  {
    var lo := rank.Floor;
    var hi := if lo + 1 < |s| then lo + 1 else |s| - 1;
    Lerp(s[lo], s[hi], rank - lo as real)
  }

  lemma InterpolateBetween(s: seq<real>, rank: real)
    requires SortedAsc(s) && 0.0 <= rank <= (|s| - 1) as real
    ensures s[rank.Floor] <= Interpolate(s, rank)
    ensures Interpolate(s, rank) <= s[if rank.Floor + 1 < |s| then rank.Floor + 1 else |s| - 1]
  {
    var lo := rank.Floor;
    var hi := if lo + 1 < |s| then lo + 1 else |s| - 1;
    LerpBetween(s[lo], s[hi], rank - lo as real);
  }

  lemma InterpolateMonotone(s: seq<real>, r1: real, r2: real)
    requires SortedAsc(s) && 0.0 <= r1 <= r2 <= (|s| - 1) as real
    ensures Interpolate(s, r1) <= Interpolate(s, r2)
  {
    var lo1, lo2 := r1.Floor, r2.Floor;
    InterpolateBetween(s, r1);
    InterpolateBetween(s, r2);
    assert lo1 <= lo2;
    var hi1 := if lo1 + 1 < |s| then lo1 + 1 else |s| - 1;
    if lo1 == lo2 {
      LerpMonotone(s[lo1], s[hi1], r1 - lo1 as real, r2 - lo1 as real);
    } else {
      assert hi1 <= lo2;
      assert s[hi1] <= s[lo2];
    }
  }

  /** `np.percentile(xs, q)` with the default linear method: refused for an
      empty sequence or q outside [0, 100]. */
  function Percentile(xs: seq<real>, q: real): (r: Result<real>)
    ensures r.Ok? <==> |xs| > 0 && 0.0 <= q <= 100.0
  {
    if |xs| == 0 then Err(ShapeError)
    else if q < 0.0 || 100.0 < q then Err(InvalidArgument)
    else Ok(Interpolate(Sort(xs), Rank(|xs|, q)))
  }

  /** A percentile lies between the minimum and the maximum. */
  lemma PercentileBounds(xs: seq<real>, q: real)
    requires |xs| > 0 && 0.0 <= q <= 100.0
    ensures Min(xs) <= Percentile(xs, q).value <= Max(xs)
  {
    var s := Sort(xs);
    SortEnds(xs);
    InterpolateBetween(s, Rank(|xs|, q));
  }

  /** A higher percentile is never smaller. */
  lemma PercentileMonotone(xs: seq<real>, q1: real, q2: real)
    requires |xs| > 0 && 0.0 <= q1 <= q2 <= 100.0
    ensures Percentile(xs, q1).value <= Percentile(xs, q2).value
  {
    RankMonotone(|xs|, q1, q2);
    InterpolateMonotone(Sort(xs), Rank(|xs|, q1), Rank(|xs|, q2));
  }

  /** The median of three values is the middle one. */
  lemma PercentileMedianExample()
    ensures Percentile([3.0, 1.0, 2.0], 50.0) == Ok(2.0)
  {
    SortThreeExample();
    assert Rank(3, 50.0) == 1.0;
  }

  /** The 97.5th percentile of two values interpolates between them. */
  lemma PercentileUpperExample()
    ensures Percentile([1.0, 2.0], 97.5) == Ok(1.975)
  {
    assert Rank(2, 97.5) == 0.975;
    assert (0.975).Floor == 0;
  }

  // ---------------------------------------------------------------------------
  // The coordinator
  // ---------------------------------------------------------------------------

  datatype Interval = Interval(lower: real, upper: real)

  datatype Forecast = Forecast(prediction: seq<real>, confidenceInterval: Obj<Interval>)

  lemma ModelNamesDistinct()
    ensures forall a, b :: 0 <= a < b < |ModelNames| ==> ModelNames[a] != ModelNames[b]
  {
  }

  /** An object whose keys are the four model names has no repeated key. */
  lemma NamesUnique<V>(o: Obj<V>)
    requires Keys(o) == ModelNames
    ensures UniqueKeys(o)
  {
    ModelNamesDistinct();
    forall i, j | 0 <= i < j < |o| ensures o[i].key != o[j].key {
      assert Keys(o)[i] == o[i].key && Keys(o)[j] == o[j].key;
    }
  }

  /** One model's range: the 2.5th and 97.5th percentiles of its predictions. */
  function IntervalOf(p: seq<real>): (iv: Interval)
    requires |p| > 0
  {
    Interval(Percentile(p, 2.5).value, Percentile(p, 97.5).value)
  }

  /** A model's range is ordered and lies within its predictions. */
  lemma IntervalOfBounds(p: seq<real>)
    requires |p| > 0
    ensures Min(p) <= IntervalOf(p).lower <= IntervalOf(p).upper <= Max(p)
  {
    PercentileBounds(p, 2.5);
    PercentileBounds(p, 97.5);
    PercentileMonotone(p, 2.5, 97.5);
  }

  /** `_calculate_confidence_interval`: for every model, in order, the 2.5th
      and 97.5th percentiles of its own predictions. */
  method CalculateConfidenceInterval(predictions: Obj<seq<real>>) returns (r: Result<Obj<Interval>>)
    requires UniqueKeys(predictions)
    ensures r.Ok? <==> forall i :: 0 <= i < |predictions| ==> |predictions[i].value| > 0
    ensures r.Ok? ==> Keys(r.value) == Keys(predictions)
    ensures r.Ok? ==> forall i :: 0 <= i < |predictions| ==>
      r.value[i] == Entry(predictions[i].key, IntervalOf(predictions[i].value))
  {
    var ranges: Obj<Interval> := [];
    var i := 0;
    while i < |predictions|
      invariant 0 <= i <= |predictions| && |ranges| == i
      invariant forall k :: 0 <= k < i ==> |predictions[k].value| > 0
      invariant forall k :: 0 <= k < i ==>
        ranges[k] == Entry(predictions[k].key, IntervalOf(predictions[k].value))
    {
      var pred := predictions[i].value;
      if |pred| == 0 {
        return Err(ShapeError);
      }
      ranges := AssignNext(ranges, predictions, i, IntervalOf(pred));
      i := i + 1;
    }
    return Ok(ranges);
  }

  predicate AllPredict(models: Obj<Estimator>, X: Matrix)
  {
    forall i :: 0 <= i < |models| ==> Predict(models[i].value, X).Ok?
  }

  /** Every model's prediction vector for X, in the models' order. */
  function Vectors(models: Obj<Estimator>, X: Matrix): (vs: seq<seq<real>>)
    requires AllPredict(models, X)
    ensures |vs| == |models|
    ensures forall i :: 0 <= i < |models| ==> vs[i] == Predict(models[i].value, X).value && |vs[i]| == |X|
  {
    seq(|models|, i requires 0 <= i < |models| => Predict(models[i].value, X).value)
  }

  class PricePredictionModel {
    /** Name to estimator, in the dictionary's insertion order. */
    var models: Obj<Estimator>

    predicate Valid()
      reads this
    {
      Keys(models) == ModelNames
    }

    constructor ()
      ensures Valid()
      ensures forall i :: 0 <= i < |models| ==> models[i].value == Unfitted
    {
      models := [Entry(ModelNames[0], Unfitted), Entry(ModelNames[1], Unfitted),
                 Entry(ModelNames[2], Unfitted), Entry(ModelNames[3], Unfitted)];
    }

    /** `train_models`: every model, in order, is fitted on the training
        partition and scored on the test partition; the result has one
        `{mae, rmse}` record per model name. */
    method TrainModels(f: Frame, perm: seq<nat>, learners: string -> Learner, sqrt: real -> real)
      returns (r: Result<Obj<Metrics>>)
      requires Valid() && WellFormedFrame(f) && IsPermutation(perm, |f.rows|) && IsSqrt(sqrt)
      modifies this
      ensures Valid()
      ensures r.Ok? <==> PreprocessData(f, perm).Ok?
      ensures r.Err? ==> models == old(models)
      ensures r.Ok? ==> Keys(r.value) == ModelNames
      ensures r.Ok? ==> forall i :: 0 <= i < |ModelNames| ==>
        var s := PreprocessData(f, perm).value;
        models[i].value == Fitted(|f.columns| - 1, learners(ModelNames[i])(s.xTrain, s.yTrain))
        && r.value[i].value == Score(s.yTest, Predict(models[i].value, s.xTest).value, sqrt)
    {
      var split :- PreprocessData(f, perm);
      var results := FitAll(split, |f.columns| - 1, learners, sqrt);
      return Ok(results);
    }

    /** The loop of `train_models`: every model, in order, is fitted on the
        training part and scored on its predictions for the test part. */
    method FitAll(split: Split, c: nat, learners: string -> Learner, sqrt: real -> real)
      returns (results: Obj<Metrics>)
      requires Valid() && IsSqrt(sqrt)
      requires WellShaped(split.xTrain) && |split.xTrain[0]| == c && Rectangular(split.xTest, c)
      requires |split.yTrain| == |split.xTrain| && |split.yTest| == |split.xTest| > 0
      modifies this
      ensures Valid()
      ensures Keys(results) == ModelNames
      ensures forall i :: 0 <= i < |ModelNames| ==>
        models[i].value == Fitted(c, learners(ModelNames[i])(split.xTrain, split.yTrain))
        && results[i].value == Score(split.yTest, Predict(models[i].value, split.xTest).value, sqrt)
    {
      NamesUnique(models);
      results := [];
      var i := 0;
      while i < |models|
        invariant 0 <= i <= |models| == |ModelNames| && |results| == i
        invariant Keys(models) == ModelNames && UniqueKeys(models)
        invariant forall k :: 0 <= k < i ==>
          results[k].key == ModelNames[k]
          && models[k].value == Fitted(c, learners(ModelNames[k])(split.xTrain, split.yTrain))
          && results[k].value == Score(split.yTest, Predict(models[k].value, split.xTest).value, sqrt)
      {
        var name := models[i].key;
        var fitted := Fit(split.xTrain, split.yTrain, learners(name)).value;
        ReplaceKeepsKeys(models, i, fitted);
        models := models[i := Entry(name, fitted)];
        var predictions := Predict(fitted, split.xTest).value;
        var metrics := Score(split.yTest, predictions, sqrt);
        results := AssignNext(results, models, i, metrics);
        i := i + 1;
      }
    }


    /** `predict_price`: every model predicts the new data, in order; the
        forecast is the elementwise mean of the prediction vectors with one
        percentile interval per model. */
    method PredictPrice(newData: Matrix) returns (r: Result<Forecast>)
      requires Valid()
      ensures r.Ok? <==> AllPredict(models, newData)
      ensures r.Ok? ==> ElementwiseMean(Vectors(models, newData)) == Ok(r.value.prediction)
      ensures r.Ok? ==> |r.value.prediction| == |newData|
      ensures r.Ok? ==> Keys(r.value.confidenceInterval) == ModelNames
      ensures r.Ok? ==> forall i :: 0 <= i < |ModelNames| ==>
        r.value.confidenceInterval[i].value == IntervalOf(Vectors(models, newData)[i])
    {
      NamesUnique(models);
      var predictions: Obj<seq<real>> := [];
      var i := 0;
      while i < |models|
        invariant 0 <= i <= |models| && |predictions| == i
        invariant forall k :: 0 <= k < i ==>
          predictions[k].key == models[k].key
          && Predict(models[k].value, newData).Ok? && predictions[k].value == Predict(models[k].value, newData).value
      {
        var p := Predict(models[i].value, newData);
        if p.Err? {
          return Err(p.error);
        }
        predictions := AssignNext(predictions, models, i, p.value);
        i := i + 1;
      }
      assert Keys(predictions) == ModelNames;
      var vs := Vectors(models, newData);
      assert Values(predictions) == vs;
      var mean := ElementwiseMean(Values(predictions));
      assert mean.Ok?;
      var intervals := CalculateConfidenceInterval(predictions);
      assert intervals.Ok?;
      return Ok(Forecast(mean.value, intervals.value));
    }
  }
}
