/** `AssetCorrelationAnalyzer` of `portfolio-stress-testing/correlation-analyzer.ts`:
    a nested object with a random correlation for every pair of assets and
    the mean of all of them. The `Math.random` draws are an input, one per
    (asset1, asset2) visit of the nested loops. */
module CorrelationAnalyzer {
  import opened Results
  import opened Stats
  import opened JsObject

  type Matrix = Obj<Obj<real>>

  /** `Math.random() * 2 - 1`. */
  function Correlation(draw: real): (c: real)
    ensures 0.0 <= draw < 1.0 ==> -1.0 <= c < 1.0
  {
    draw * 2.0 - 1.0
  }

  /** One draw per pair of positions, all in [0, 1). */
  ghost predicate ValidDraws(draws: seq<seq<real>>, n: nat)
  {
    |draws| == n
    && forall i :: 0 <= i < n ==> |draws[i]| == n && forall j :: 0 <= j < n ==> 0.0 <= draws[i][j] < 1.0
  }

  /** The row of `matrix[asset1]` once the inner loop has visited the first
      k assets with the draws `ds`. */
  function RowUpTo(assets: seq<string>, ds: seq<real>, k: nat): (row: Obj<real>)
    requires k <= |assets| && k <= |ds|
    ensures Keys(row) == Dedup(assets[..k])
  {
    if k == 0 then []
    else
      assert assets[..k] == assets[..k - 1] + [assets[k - 1]];
      Put(RowUpTo(assets, ds, k - 1), assets[k - 1], Correlation(ds[k - 1]))
  }

  /** The matrix once the outer loop has visited the first k assets. A
      repeated asset's row is reset to `{}` and refilled, keeping its place. */
  function MatrixUpTo(assets: seq<string>, draws: seq<seq<real>>, k: nat): (m: Matrix)
    requires k <= |assets| && |draws| == |assets|
    requires forall i :: 0 <= i < |draws| ==> |draws[i]| == |assets|
    ensures Keys(m) == Dedup(assets[..k])
  {
    if k == 0 then []
    else
      assert assets[..k] == assets[..k - 1] + [assets[k - 1]];
      Put(MatrixUpTo(assets, draws, k - 1), assets[k - 1], RowUpTo(assets, draws[k - 1], |assets|))
  }

  /** `generateCorrelationMatrix`: the nested `forEach` loops. */
  method GenerateCorrelationMatrix(assets: seq<string>, draws: seq<seq<real>>) returns (m: Matrix)
    requires |draws| == |assets| && forall i :: 0 <= i < |draws| ==> |draws[i]| == |assets|
    ensures m == MatrixUpTo(assets, draws, |assets|)
    ensures Keys(m) == Dedup(assets)
  {
    m := [];
    var i := 0;
    while i < |assets|
      invariant i <= |assets| && m == MatrixUpTo(assets, draws, i)
    {
      var row: Obj<real> := [];
      var j := 0;
      while j < |assets|
        invariant j <= |assets| && row == RowUpTo(assets, draws[i], j)
      {
        row := Put(row, assets[j], Correlation(draws[i][j]));
        j := j + 1;
      }
      m := Put(m, assets[i], row);
      i := i + 1;
    }
    assert assets[..|assets|] == assets;
  }

  /** Every generated correlation lies in [-1, 1). */
  lemma {:induction false} RowInRange(assets: seq<string>, ds: seq<real>, k: nat)
    requires k <= |assets| && k <= |ds|
    requires forall j :: 0 <= j < k ==> 0.0 <= ds[j] < 1.0
    ensures forall e :: e in RowUpTo(assets, ds, k) ==> -1.0 <= e.value < 1.0
  {
    if k > 0 {
      RowInRange(assets, ds, k - 1);
      PutEntries(RowUpTo(assets, ds, k - 1), assets[k - 1], Correlation(ds[k - 1]));
    }
  }

  /** A well-formed correlation object: a row for every asset, an entry for
      every asset in every row, each in [-1, 1). */
  ghost predicate WellFormed(assets: seq<string>, m: Matrix)
  {
    Keys(m) == Dedup(assets)
    && forall e :: e in m ==> Keys(e.value) == Dedup(assets) && forall c :: c in e.value ==> -1.0 <= c.value < 1.0
  }

  lemma {:induction false} MatrixRows(assets: seq<string>, draws: seq<seq<real>>, k: nat)
    requires k <= |assets| && ValidDraws(draws, |assets|)
    ensures forall e :: e in MatrixUpTo(assets, draws, k) ==>
      Keys(e.value) == Dedup(assets) && forall c :: c in e.value ==> -1.0 <= c.value < 1.0
  {
    if k > 0 {
      MatrixRows(assets, draws, k - 1);
      var row := RowUpTo(assets, draws[k - 1], |assets|);
      RowInRange(assets, draws[k - 1], |assets|);
      assert assets[..|assets|] == assets;
      PutEntries(MatrixUpTo(assets, draws, k - 1), assets[k - 1], row);
    }
  }

  lemma GeneratedWellFormed(assets: seq<string>, draws: seq<seq<real>>)
    requires ValidDraws(draws, |assets|)
    ensures WellFormed(assets, MatrixUpTo(assets, draws, |assets|))
  {
    MatrixRows(assets, draws, |assets|);
    assert assets[..|assets|] == assets;
  }

  /** `Object.values(matrix).flatMap(row => Object.values(row))`. */
  function Flatten(m: Matrix): (r: seq<real>)
  {
    if |m| == 0 then [] else Values(m[0].value) + Flatten(m[1..])
  }

  /** Rows of w entries each flatten to |m| * w entries. */
  lemma {:induction false} FlattenLength(m: Matrix, w: nat)
    requires forall i :: 0 <= i < |m| ==> |m[i].value| == w
    ensures |Flatten(m)| == |m| * w
  {
    if |m| > 0 {
      var rest := m[1..];
      assert forall i :: 0 <= i < |rest| ==> rest[i] == m[i + 1];
      FlattenLength(rest, w);
      assert |m| * w == w + |rest| * w;
    }
  }

  /** Entries in [-1, 1) flatten to values in [-1, 1). */
  lemma {:induction false} FlattenInRange(m: Matrix)
    requires forall e :: e in m ==> forall c :: c in e.value ==> -1.0 <= c.value < 1.0
    ensures forall i :: 0 <= i < |Flatten(m)| ==> -1.0 <= Flatten(m)[i] < 1.0
  {
    if |m| > 0 {
      assert forall e :: e in m[1..] ==> e in m;
      FlattenInRange(m[1..]);
      var row := m[0].value;
      assert m[0] in m;
      forall j | 0 <= j < |row| ensures -1.0 <= Values(row)[j] < 1.0 {
        assert row[j] in row;
      }
      var all := Flatten(m);
      assert all == Values(row) + Flatten(m[1..]);
      forall i | 0 <= i < |all| ensures -1.0 <= all[i] < 1.0 {
        if i >= |row| {
          assert all[i] == Flatten(m[1..])[i - |row|];
        }
      }
    }
  }

  class AssetCorrelationAnalyzer {
    var assets: seq<string>
    var correlationMatrix: Matrix

    ghost predicate Valid()
      reads this
    {
      WellFormed(assets, correlationMatrix)
    }

    constructor (assets: seq<string>, draws: seq<seq<real>>)
      requires ValidDraws(draws, |assets|)
      ensures Valid()
      ensures this.assets == assets && correlationMatrix == MatrixUpTo(assets, draws, |assets|)
    {
      var m := GenerateCorrelationMatrix(assets, draws);
      GeneratedWellFormed(assets, draws);
      this.assets := assets;
      correlationMatrix := m;
    }

    /** `calculateSystematicRisk`: the mean of every entry; with no assets
        the mean is 0 / 0. For a well-formed matrix it lies in [-1, 1) and
        averages |distinct assets|^2 entries. */
    function CalculateSystematicRisk(): (r: Result<real>)
      reads this
      ensures r.Ok? <==> |Flatten(correlationMatrix)| > 0
      ensures Valid() ==> |Flatten(correlationMatrix)| == |Dedup(assets)| * |Dedup(assets)|
      ensures Valid() ==> (r.Ok? <==> |assets| > 0)
      ensures Valid() && r.Ok? ==> -1.0 <= r.value < 1.0
    {
      var all := Flatten(correlationMatrix);
      SystematicRiskFacts(assets, correlationMatrix);
      if |all| == 0 then Err(DivisionByZero) else Ok(Mean(all))
    }
  }

  /** What a well-formed matrix guarantees about its flattened entries. */
  lemma SystematicRiskFacts(assets: seq<string>, m: Matrix)
    ensures WellFormed(assets, m) ==> |Flatten(m)| == |Dedup(assets)| * |Dedup(assets)|
    ensures WellFormed(assets, m) ==> (|Flatten(m)| > 0 <==> |assets| > 0)
    ensures WellFormed(assets, m) && |Flatten(m)| > 0 ==> -1.0 <= Mean(Flatten(m)) < 1.0
  {
    if WellFormed(assets, m) {
      WellFormedLength(assets, m);
      DedupNonEmpty(assets);
      if |Flatten(m)| > 0 {
        FlattenInRange(m);
        MeanInRange(Flatten(m));
      }
    }
  }

  lemma WellFormedLength(assets: seq<string>, m: Matrix)
    requires WellFormed(assets, m)
    ensures |Flatten(m)| == |Dedup(assets)| * |Dedup(assets)|
  {
    var w := |Dedup(assets)|;
    assert |m| == w by { assert |Keys(m)| == w; }
    forall i | 0 <= i < |m| ensures |m[i].value| == w {
      assert m[i] in m;
      assert |Keys(m[i].value)| == |m[i].value|;
    }
    FlattenLength(m, w);
  }

  lemma DedupNonEmpty(assets: seq<string>)
    ensures |Dedup(assets)| > 0 <==> |assets| > 0
    ensures |Dedup(assets)| * |Dedup(assets)| > 0 <==> |assets| > 0
  {
    if |assets| > 0 {
      assert assets[0] in Dedup(assets);
    } else {
      assert Dedup(assets) == [];
    }
  }

  lemma MeanInRange(all: seq<real>)
    requires |all| > 0 && forall i :: 0 <= i < |all| ==> -1.0 <= all[i] < 1.0
    ensures -1.0 <= Mean(all) < 1.0
  {
    MeanBetween(all, -1.0, 1.0);
    SumStrictUpper(all, 1.0);
    StrictMeanUpper(all);
  }

  lemma StrictMeanUpper(xs: seq<real>)
    requires |xs| > 0 && Sum(xs) < 1.0 * |xs| as real
    ensures Mean(xs) < 1.0
  {
  }
}
