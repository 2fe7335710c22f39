/** `CorrelationService` of `correlation/correlation-service.ts`: simple
    returns of each asset's closing prices and the matrix of pairwise
    correlations between them. The price history of each asset is an input
    (its fetch is not part of this model) and `mathjs.corr` is the parameter
    `corr`. */
module CorrelationService {
  import opened Results

  /** Returns are undefined (not finite) when some price but the last is zero. */
  predicate NonZeroPrices(prices: seq<real>)
  {
    forall i :: 0 <= i < |prices| - 1 ==> prices[i] != 0.0
  }

  /** `calculateReturns`: `(p[i + 1] - p[i]) / p[i]` for each consecutive pair. */
  function CalculateReturns(prices: seq<real>): (r: Result<seq<real>>)
    ensures r.Ok? <==> NonZeroPrices(prices)
    ensures r.Ok? ==> |r.value| == if |prices| == 0 then 0 else |prices| - 1
    ensures r.Ok? ==> forall i :: 0 <= i < |r.value| ==> r.value[i] * prices[i] == prices[i + 1] - prices[i]
  {
    if !NonZeroPrices(prices) then Err(DivisionByZero)
    else if |prices| == 0 then Ok([])
    else Ok(seq(|prices| - 1, i requires 0 <= i < |prices| - 1 => (prices[i + 1] - prices[i]) / prices[i]))
  }

  /** The prices are recovered from the first one and the returns. */
  lemma ReturnsRoundTrip(prices: seq<real>, i: nat)
    requires NonZeroPrices(prices) && i + 1 < |prices|
    ensures prices[i + 1] == prices[i] * (1.0 + CalculateReturns(prices).value[i])
  {
    GrowBy(prices[i], prices[i + 1], CalculateReturns(prices).value[i]);
  }

  /** A price grown by the return `r` over its predecessor. */
  lemma GrowBy(p: real, q: real, r: real)
    requires r * p == q - p
    ensures q == p * (1.0 + r)
  {
    assert p * (1.0 + r) == p + r * p;
  }

  /** Flat prices have no returns. */
  lemma ReturnsOfConstant(prices: seq<real>, c: real)
    requires c != 0.0 && forall i :: 0 <= i < |prices| ==> prices[i] == c
    ensures CalculateReturns(prices).Ok?
    ensures forall i :: 0 <= i < |CalculateReturns(prices).value| ==> CalculateReturns(prices).value[i] == 0.0
  {
  }

  /** The matrix `calculatePearsonCorrelations` builds, row i column j holding
      `corr(returns[i], returns[j])`. */
  function CorrelationTable(series: seq<seq<real>>, corr: (seq<real>, seq<real>) -> real): (t: seq<seq<real>>)
    ensures |t| == |series| && forall i :: 0 <= i < |t| ==> |t[i]| == |series|
  {
    seq(|series|, i requires 0 <= i < |series| =>
      seq(|series|, j requires 0 <= j < |series| => corr(series[i], series[j])))
  }

  /** `calculatePearsonCorrelations`: the nested loops pushing row by row. */
  method CalculatePearsonCorrelations(series: seq<seq<real>>, corr: (seq<real>, seq<real>) -> real)
    returns (matrix: seq<seq<real>>)
    ensures |matrix| == |series| && forall i :: 0 <= i < |series| ==> |matrix[i]| == |series|
    ensures forall i, j :: 0 <= i < |series| && 0 <= j < |series| ==> matrix[i][j] == corr(series[i], series[j])
  {
    matrix := [];
    var i := 0;
    while i < |series|
      invariant i <= |series| && |matrix| == i
      invariant forall k :: 0 <= k < i ==> |matrix[k]| == |series|
      invariant forall k, j :: 0 <= k < i && 0 <= j < |series| ==> matrix[k][j] == corr(series[k], series[j])
    {
      var row: seq<real> := [];
      var j := 0;
      while j < |series|
        invariant j <= |series| && |row| == j
        invariant forall l :: 0 <= l < j ==> row[l] == corr(series[i], series[l])
      {
        row := row + [corr(series[i], series[j])];
        j := j + 1;
      }
      matrix := matrix + [row];
      i := i + 1;
    }
  }

  /** A symmetric `corr` gives a symmetric matrix. */
  lemma TableSymmetric(series: seq<seq<real>>, corr: (seq<real>, seq<real>) -> real)
    requires forall a, b :: corr(a, b) == corr(b, a)
    ensures forall i, j :: 0 <= i < |series| && 0 <= j < |series| ==>
      CorrelationTable(series, corr)[i][j] == CorrelationTable(series, corr)[j][i]
  {
  }

  /** All the assets' returns, or the first failure. */
  function AllReturns(histories: seq<seq<real>>): (r: Result<seq<seq<real>>>)
    ensures r.Ok? <==> forall a :: 0 <= a < |histories| ==> NonZeroPrices(histories[a])
    ensures r.Ok? ==> |r.value| == |histories|
    ensures r.Ok? ==> forall a :: 0 <= a < |histories| ==> r.value[a] == CalculateReturns(histories[a]).value
  {
    if |histories| == 0 then Ok([])
    else
      var first := CalculateReturns(histories[0]);
      if first.Err? then Err(first.error)
      else
        var rest := AllReturns(histories[1..]);
        if rest.Err? then
          assert exists a :: 0 <= a < |histories| - 1 && !NonZeroPrices(histories[1..][a]);
          Err(rest.error)
        else Ok([first.value] + rest.value)
  }

  /** `computeCorrelationMatrix` once each asset's closing prices are known:
      one row and one column per asset, in the order given. */
  method ComputeCorrelationMatrix(histories: seq<seq<real>>, corr: (seq<real>, seq<real>) -> real)
    returns (r: Result<seq<seq<real>>>)
    ensures r.Ok? <==> forall a :: 0 <= a < |histories| ==> NonZeroPrices(histories[a])
    ensures r.Ok? ==> |r.value| == |histories|
    ensures r.Ok? ==> forall i :: 0 <= i < |histories| ==> |r.value[i]| == |histories|
    ensures r.Ok? ==> forall i, j :: 0 <= i < |histories| && 0 <= j < |histories| ==>
      r.value[i][j] == corr(CalculateReturns(histories[i]).value, CalculateReturns(histories[j]).value)
  {
    var series := AllReturns(histories);
    if series.Err? {
      return Err(series.error);
    }
    var matrix := CalculatePearsonCorrelations(series.value, corr);
    return Ok(matrix);
  }
}
