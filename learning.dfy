/** The parts of scikit-learn the core relies on, reduced to what the core
    observes of them: estimators whose training algorithm is an input
    learner, the min-max and standard scalers, and `train_test_split` with
    its shuffle given as a permutation. */
module Learning {
  import opened Results
  import opened Stats

  type Row = seq<real>
  type Matrix = seq<Row>

  predicate Rectangular(X: Matrix, columns: nat)
  {
    forall i :: 0 <= i < |X| ==> |X[i]| == columns
  }

  /** What scikit-learn's input validation accepts: at least one sample and
      one feature, every sample with the same number of features. */
  predicate WellShaped(X: Matrix)
  {
    |X| > 0 && |X[0]| > 0 && Rectangular(X, |X[0]|)
  }

  function Column(X: Matrix, j: nat): (col: seq<real>)
    requires forall i :: 0 <= i < |X| ==> j < |X[i]|
    ensures |col| == |X|
    ensures forall i :: 0 <= i < |X| ==> col[i] == X[i][j]
  {
    seq(|X|, i requires 0 <= i < |X| => X[i][j])
  }

  // ---------------------------------------------------------------------------
  // Estimators (random forest, XGBoost, LSTM, transformer): the training
  // algorithm is a parameter, a learner that maps the training samples and
  // their targets to the rule the fitted model predicts with.
  // ---------------------------------------------------------------------------

  datatype Estimator = Unfitted | Fitted(features: nat, rule: Row -> real)

  type Learner = (Matrix, seq<real>) -> (Row -> real)

  /** `model.fit(X, y)`: fails unless X is well shaped with one target per
      sample; otherwise the model takes the width of X and the rule learned
      from exactly these samples and targets. */
  function Fit(X: Matrix, y: seq<real>, learn: Learner): (r: Result<Estimator>)
    ensures r.Ok? <==> WellShaped(X) && |y| == |X|
    ensures r.Ok? ==> r.value == Fitted(|X[0]|, learn(X, y))
  {
    if WellShaped(X) && |y| == |X| then Ok(Fitted(|X[0]|, learn(X, y))) else Err(DimensionMismatch)
  }

  /** `model.predict(X)`: one prediction per sample, refused before fitting
      and for samples with a different number of features. */
  function Predict(e: Estimator, X: Matrix): (r: Result<seq<real>>)
    ensures e.Unfitted? ==> r == Err(NotFitted)
    ensures r.Ok? <==> e.Fitted? && |X| > 0 && Rectangular(X, e.features)
    ensures r.Ok? ==> |r.value| == |X|
  {
    if e.Unfitted? then Err(NotFitted)
    else if |X| == 0 then Err(ShapeError)
    else if !Rectangular(X, e.features) then Err(DimensionMismatch)
    else Ok(seq(|X|, i requires 0 <= i < |X| => e.rule(X[i])))
  }

  /** A model fitted on X predicts, for X itself, one value per target, the
      learned rule applied to each sample. */
  lemma FitThenPredict(X: Matrix, y: seq<real>, learn: Learner)
    requires Fit(X, y, learn).Ok?
    ensures Predict(Fit(X, y, learn).value, X).Ok?
    ensures |Predict(Fit(X, y, learn).value, X).value| == |y|
    ensures forall i :: 0 <= i < |X| ==> Predict(Fit(X, y, learn).value, X).value[i] == learn(X, y)(X[i])
  {
  }


  // ---------------------------------------------------------------------------
  // Scalers: both scikit-learn scalers used here are per-column affine maps
  // x |-> (x - offset) / scale, with a zero scale replaced by 1.
  // ---------------------------------------------------------------------------

  datatype Scaler = ScalerUnfitted | ScalerFitted(offset: seq<real>, scale: seq<real>)

  predicate ValidScaler(s: Scaler)
  {
    s.ScalerFitted? ==>
      |s.offset| == |s.scale| && forall j :: 0 <= j < |s.scale| ==> 0.0 < s.scale[j]
  }

  function Columns(s: Scaler): nat
    requires s.ScalerFitted?
  {
    |s.offset|
  }

  function ScaleRow(offset: seq<real>, scale: seq<real>, row: Row): (r: Row)
    requires |offset| == |scale| == |row|
    requires forall j :: 0 <= j < |scale| ==> 0.0 < scale[j]
    ensures |r| == |row|
  {
    seq(|row|, j requires 0 <= j < |row| => (row[j] - offset[j]) / scale[j])
  }

  function UnscaleRow(offset: seq<real>, scale: seq<real>, row: Row): (r: Row)
    requires |offset| == |scale| == |row|
    ensures |r| == |row|
  {
    seq(|row|, j requires 0 <= j < |row| => row[j] * scale[j] + offset[j])
  }

  /** `scaler.transform(X)`. */
  function Transform(s: Scaler, X: Matrix): (r: Result<Matrix>)
    requires ValidScaler(s)
    ensures s.ScalerUnfitted? ==> r == Err(NotFitted)
    ensures s.ScalerFitted? && |X| > 0 && !Rectangular(X, Columns(s)) ==> r == Err(DimensionMismatch)
    ensures r.Ok? <==> s.ScalerFitted? && |X| > 0 && Rectangular(X, Columns(s))
    ensures r.Ok? ==> |r.value| == |X| && Rectangular(r.value, Columns(s))
    ensures r.Ok? ==> forall i :: 0 <= i < |X| ==> r.value[i] == ScaleRow(s.offset, s.scale, X[i])
  {
    if s.ScalerUnfitted? then Err(NotFitted)
    else if |X| == 0 then Err(ShapeError)
    else if !Rectangular(X, |s.offset|) then Err(DimensionMismatch)
    else Ok(seq(|X|, i requires 0 <= i < |X| => ScaleRow(s.offset, s.scale, X[i])))
  }

  /** `scaler.inverse_transform(X)`. */
  function InverseTransform(s: Scaler, X: Matrix): (r: Result<Matrix>)
    ensures s.ScalerUnfitted? ==> r == Err(NotFitted)
    ensures r.Ok? <==> s.ScalerFitted? && |s.scale| == |s.offset| && |X| > 0 && Rectangular(X, Columns(s))
    ensures r.Ok? ==> |r.value| == |X| && Rectangular(r.value, Columns(s))
  {
    if s.ScalerUnfitted? then Err(NotFitted)
    else if |X| == 0 then Err(ShapeError)
    else if |s.scale| != |s.offset| || !Rectangular(X, |s.offset|) then Err(DimensionMismatch)
    else Ok(seq(|X|, i requires 0 <= i < |X| => UnscaleRow(s.offset, s.scale, X[i])))
  }

  lemma AffineRoundTrip(x: real, o: real, c: real)
    requires 0.0 < c
    ensures ((x - o) / c) * c + o == x
  {
  }

  /** Scaling a matrix and mapping it back gives the original matrix. */
  lemma TransformRoundTrip(s: Scaler, X: Matrix)
    requires ValidScaler(s) && Transform(s, X).Ok?
    ensures InverseTransform(s, Transform(s, X).value) == Ok(X)
  {
    var T := Transform(s, X).value;
    var B := InverseTransform(s, T).value;
    forall i | 0 <= i < |X| ensures B[i] == X[i] {
      assert T[i] == ScaleRow(s.offset, s.scale, X[i]);
      assert B[i] == UnscaleRow(s.offset, s.scale, T[i]);
      forall j | 0 <= j < |X[i]| ensures B[i][j] == X[i][j] {
        AffineRoundTrip(X[i][j], s.offset[j], s.scale[j]);
      }
    }
    assert B == X;
  }

  function NonZeroScale(v: real): (r: real)
    requires 0.0 <= v
    ensures 0.0 < r && (v != 0.0 ==> r == v)
  {
    if v == 0.0 then 1.0 else v
  }

  /** `MinMaxScaler().fit(X)`: offset the column minimum, scale the column
      range (1 for a constant column). */
  function FitMinMax(X: Matrix): (r: Result<Scaler>)
    ensures r.Ok? <==> WellShaped(X)
    ensures r.Ok? ==> ValidScaler(r.value) && r.value.ScalerFitted? && Columns(r.value) == |X[0]|
  {
    if !WellShaped(X) then Err(DimensionMismatch)
    else
      var c := |X[0]|;
      var offset := seq(c, j requires 0 <= j < c => Min(Column(X, j)));
      var scale := seq(c, j requires 0 <= j < c => NonZeroScale(ColumnRange(X, j)));
      Ok(ScalerFitted(offset, scale))
  }

  /** Largest minus smallest value of column j. */
  function ColumnRange(X: Matrix, j: nat): (r: real)
    requires WellShaped(X) && j < |X[0]|
    ensures 0.0 <= r && r == Max(Column(X, j)) - Min(Column(X, j))
  {
    var col := Column(X, j);
    assert Min(col) <= col[0] <= Max(col);
    Max(col) - Min(col)
  }

  /** The population standard deviation of column j. */
  function ColumnDeviation(X: Matrix, j: nat, sqrt: real -> real): (r: real)
    requires IsSqrt(sqrt) && WellShaped(X) && j < |X[0]|
    ensures 0.0 <= r && r == sqrt(PopulationVariance(Column(X, j)))
  {
    var v := PopulationVariance(Column(X, j));
    PopulationVarianceNonNegative(Column(X, j));
    SqrtZeroIff(sqrt, v);
    sqrt(v)
  }

  /** `StandardScaler().fit(X)`: offset the column mean, scale the
      population standard deviation (1 for a constant column). */
  function FitStandard(X: Matrix, sqrt: real -> real): (r: Result<Scaler>)
    requires IsSqrt(sqrt)
    ensures r.Ok? <==> WellShaped(X)
    ensures r.Ok? ==> ValidScaler(r.value) && r.value.ScalerFitted? && Columns(r.value) == |X[0]|
  {
    if !WellShaped(X) then Err(DimensionMismatch)
    else
      var c := |X[0]|;
      var offset := seq(c, j requires 0 <= j < c => Mean(Column(X, j)));
      var scale := seq(c, j requires 0 <= j < c => NonZeroScale(ColumnDeviation(X, j, sqrt)));
      Ok(ScalerFitted(offset, scale))
  }

  /** Min-max scaling maps the data it was fitted on into [0, 1]. */
  lemma MinMaxUnitRange(X: Matrix)
    requires WellShaped(X)
    ensures Transform(FitMinMax(X).value, X).Ok?
    ensures forall i, j :: 0 <= i < |X| && 0 <= j < |X[0]| ==>
      0.0 <= Transform(FitMinMax(X).value, X).value[i][j] <= 1.0
  {
    var s := FitMinMax(X).value;
    var T := Transform(s, X).value;
    forall i, j | 0 <= i < |X| && 0 <= j < |X[0]| ensures 0.0 <= T[i][j] <= 1.0 {
      var col := Column(X, j);
      var lo, hi := Min(col), Max(col);
      assert col[i] == X[i][j];
      assert T[i] == ScaleRow(s.offset, s.scale, X[i]);
      assert T[i][j] == (X[i][j] - lo) / s.scale[j];
      if hi - lo == 0.0 {
        assert X[i][j] == lo;
      } else {
        DivUnit(X[i][j] - lo, hi - lo);
      }
    }
  }

  /** On a constant column (every value v) the min-max scaled value is 0. */
  lemma MinMaxConstantColumn(X: Matrix, j: nat, v: real)
    requires WellShaped(X) && j < |X[0]|
    requires forall i :: 0 <= i < |X| ==> X[i][j] == v
    ensures Transform(FitMinMax(X).value, X).Ok?
    ensures forall i :: 0 <= i < |X| ==> Transform(FitMinMax(X).value, X).value[i][j] == 0.0
  {
    var s := FitMinMax(X).value;
    var T := Transform(s, X).value;
    var col := Column(X, j);
    assert col[0] == v;
    forall i | 0 <= i < |X| ensures T[i][j] == 0.0 {
      assert T[i] == ScaleRow(s.offset, s.scale, X[i]);
      assert col[i] == v;
    }
  }

  // ---------------------------------------------------------------------------
  // train_test_split(X, y, test_size = 0.2)
  // ---------------------------------------------------------------------------

  /** ceil(0.2 * n), the number of test samples scikit-learn takes. */
  function TestCount(n: nat): (t: nat)
    ensures 5 * t >= n && 5 * t < n + 5
  {
    (n + 4) / 5
  }

  predicate IsPermutation(perm: seq<nat>, n: nat)
  {
    |perm| == n
    && (forall i :: 0 <= i < n ==> perm[i] < n)
    && (forall i, j :: 0 <= i < j < n ==> perm[i] != perm[j])
  }

  function Select<T>(xs: seq<T>, idx: seq<nat>): (r: seq<T>)
    requires forall i :: 0 <= i < |idx| ==> idx[i] < |xs|
    ensures |r| == |idx|
    ensures forall i :: 0 <= i < |idx| ==> r[i] == xs[idx[i]]
  {
    seq(|idx|, i requires 0 <= i < |idx| => xs[idx[i]])
  }

  datatype Split = Split(xTrain: Matrix, xTest: Matrix, yTrain: seq<real>, yTest: seq<real>)

  /** The shuffle is the permutation `perm`: the first ceil(0.2 n) shuffled
      samples are the test set, the rest the training set. Fails when X and y
      differ in length or the training set would be empty. */
  function TrainTestSplit(X: Matrix, y: seq<real>, perm: seq<nat>): (r: Result<Split>)
    requires IsPermutation(perm, |X|)
  {
    var n := |X|;
    if |y| != n then Err(DimensionMismatch)
    else if n - TestCount(n) <= 0 then Err(InvalidArgument)
    else
      var t := TestCount(n);
      Ok(Split(Select(X, perm[t..]), Select(X, perm[..t]), Select(y, perm[t..]), Select(y, perm[..t])))
  }

  /** The split succeeds exactly when X and y have equal length of at least 2;
      then the test set holds ceil(0.2 n) samples, the training set the rest,
      each feature row stays with its own target, and no sample is in both. */
  lemma SplitShape(X: Matrix, y: seq<real>, perm: seq<nat>)
    requires IsPermutation(perm, |X|)
    ensures TrainTestSplit(X, y, perm).Ok? <==> |y| == |X| && |X| >= 2
    ensures TrainTestSplit(X, y, perm).Ok? ==>
      var s := TrainTestSplit(X, y, perm).value;
      var t := TestCount(|X|);
      |s.xTest| == |s.yTest| == t
      && |s.xTrain| == |s.yTrain| == |X| - t
      && |s.xTrain| > 0
      && (forall i :: 0 <= i < |s.xTrain| ==> s.xTrain[i] == X[perm[t + i]] && s.yTrain[i] == y[perm[t + i]])
      && (forall i :: 0 <= i < |s.xTest| ==> s.xTest[i] == X[perm[i]] && s.yTest[i] == y[perm[i]])
      && (forall i, k :: t <= i < |X| && 0 <= k < t ==> perm[i] != perm[k])
  {
    var n := |X|;
    if n == 1 {
      assert TestCount(1) == 1;
    }
    if n >= 2 {
      assert TestCount(n) < n;
    }
  }

  /** A successful split of a matrix with c > 0 columns leaves both parts
      non-empty with c columns and one target per training row. */
  lemma SplitRectangular(X: Matrix, y: seq<real>, perm: seq<nat>, c: nat)
    requires IsPermutation(perm, |X|) && Rectangular(X, c) && 0 < c
    ensures TrainTestSplit(X, y, perm).Ok? ==>
      var s := TrainTestSplit(X, y, perm).value;
      WellShaped(s.xTrain) && |s.xTrain[0]| == c && Rectangular(s.xTest, c)
      && |s.yTrain| == |s.xTrain| && |s.yTest| == |s.xTest| > 0
  {
    SplitShape(X, y, perm);
  }
}
