/** `RiskCalculator` of `riskCalculator.ts`: population volatility of a list
    of returns, historical value at risk read off the sorted rets, and a
    Monte Carlo jitter of an initial value. `Math.random` draws are inputs. */
module RiskCalculator {
  import opened Results
  import opened Stats
  import opened Sorting

  /** `calculateVolatility`: the population standard deviation (divisor n);
      for no returns the mean is 0 / 0. */
  function CalculateVolatility(rets: seq<real>, sqrt: real -> real): (r: Result<real>)
    requires IsSqrt(sqrt)
    ensures r.Ok? <==> |rets| > 0
    ensures r.Ok? ==> 0.0 <= r.value && Square(r.value) == PopulationVariance(rets)
  {
    if |rets| == 0 then Err(DivisionByZero)
    else
      PopulationVarianceNonNegative(rets);
      Ok(sqrt(PopulationVariance(rets)))
  }

  /** The volatility is zero exactly for constant returns. */
  lemma VolatilityZeroIff(rets: seq<real>, sqrt: real -> real)
    requires IsSqrt(sqrt) && |rets| > 0
    ensures CalculateVolatility(rets, sqrt).value == 0.0 <==> Constant(rets)
  {
    PopulationVarianceNonNegative(rets);
    PopulationVarianceZeroIffConstant(rets);
    SqrtZeroIff(sqrt, PopulationVariance(rets));
  }

  /** `Math.floor(sortedReturns.length * confidenceLevel)`. */
  function VaRIndex(n: nat, confidence: real): int
  {
    (n as real * confidence).Floor
  }

  /** `calculateVaR`: the element at `VaRIndex` of an ascending copy of the
      returns; an index outside the array reads `undefined`. */
  function CalculateVaR(confidence: real, rets: seq<real>): (r: Result<real>)
    ensures r.Ok? <==> 0 <= VaRIndex(|rets|, confidence) < |rets|
    ensures r.Ok? ==> r.value == Sort(rets)[VaRIndex(|rets|, confidence)]
    ensures r.Ok? ==> r.value in rets
    ensures r.Ok? ==> CountBelow(rets, r.value) <= VaRIndex(|rets|, confidence)
  {
    var sorted := Sort(rets);
    var k := VaRIndex(|rets|, confidence);
    if 0 <= k < |sorted| then
      InMultiset(sorted, rets, k);
      CountBelowSorted(sorted, k);
      CountBelowPermutation(sorted, rets, sorted[k]);
      Ok(sorted[k])
    else Err(IndexOutOfBounds)
  }

  /** Any non-empty list and any level in [0, 1) has a value at risk. */
  lemma VaRDefined(confidence: real, rets: seq<real>)
    requires |rets| > 0 && 0.0 <= confidence < 1.0
    ensures CalculateVaR(confidence, rets).Ok?
  {
    VaRIndexInRange(|rets|, confidence);
  }

  lemma VaRIndexInRange(n: nat, c: real)
    requires 0 < n && 0.0 <= c < 1.0
    ensures 0 <= VaRIndex(n, c) < n
  {
    var m := n as real;
    if 0.0 < c {
      MulPos(m, c);
      MulPos(m, 1.0 - c);
    }
    assert 0.0 <= m * c < m;
  }

  lemma VaRIndexMonotone(n: nat, c1: real, c2: real)
    requires c1 <= c2
    ensures VaRIndex(n, c1) <= VaRIndex(n, c2)
  {
    var m := n as real;
    assert m * c2 - m * c1 == m * (c2 - c1);
    if c1 < c2 && 0.0 < m { MulPos(m, c2 - c1); }
    assert m * c1 <= m * c2;
  }

  /** At full confidence the index is the length: out of bounds. */
  lemma VaRAtFullConfidence(rets: seq<real>)
    ensures CalculateVaR(1.0, rets) == Err(IndexOutOfBounds)
  {
  }

  /** A higher confidence level never gives a smaller value at risk. */
  lemma VaRMonotone(c1: real, c2: real, rets: seq<real>)
    requires c1 <= c2
    requires CalculateVaR(c1, rets).Ok? && CalculateVaR(c2, rets).Ok?
    ensures CalculateVaR(c1, rets).value <= CalculateVaR(c2, rets).value
  {
    VaRIndexMonotone(|rets|, c1, c2);
  }

  /** One jittered value: `v * (1 + (draw - 0.5) * 0.1)`. */
  function Jitter(v: real, draw: real): (r: real)
    ensures 0.0 <= v && 0.0 <= draw < 1.0 ==> 0.95 * v <= r <= 1.05 * v
    ensures 0.0 < v && 0.0 <= draw < 1.0 ==> r < 1.05 * v
  {
    var f := 1.0 + (draw - 0.5) * 0.1;
    JitterBounds(v, f);
    v * f
  }

  lemma JitterBounds(v: real, f: real)
    ensures 0.0 <= v && 0.95 <= f <= 1.05 ==> 0.95 * v <= v * f <= 1.05 * v
    ensures 0.0 < v && f < 1.05 ==> v * f < 1.05 * v
  {
    if 0.0 < v {
      if 0.95 < f { MulPos(v, f - 0.95); }
      if f < 1.05 { MulPos(v, 1.05 - f); }
    }
  }

  /** `monteCarloSimulation`: one value per iteration, the i-th jittered by
      the i-th draw of `Math.random`. */
  function MonteCarloSimulation(initial: real, iterations: nat, draws: seq<real>): (r: seq<real>)
    requires |draws| == iterations
    ensures |r| == iterations
    ensures forall i :: 0 <= i < iterations ==> r[i] == Jitter(initial, draws[i])
  {
    seq(iterations, i requires 0 <= i < iterations => Jitter(initial, draws[i]))
  }

  /** With draws in [0, 1) every simulated value of a non-negative initial
      value lies within 5% of it. */
  lemma MonteCarloWithinFivePercent(initial: real, iterations: nat, draws: seq<real>)
    requires |draws| == iterations && 0.0 <= initial
    requires forall i :: 0 <= i < iterations ==> 0.0 <= draws[i] < 1.0
    ensures forall i :: 0 <= i < iterations ==>
      0.95 * initial <= MonteCarloSimulation(initial, iterations, draws)[i] <= 1.05 * initial
  {
  }
}
