/** `PortfolioRiskAnalyzer` of `portfolio-stress-testing/risk-models.ts`:
    scenario losses and the assets a scenario hits, over a portfolio fixed at
    construction. The portfolio is never updated, so it is a value here. */
module StressRiskModels {

  datatype Asset = Asset(symbol: string, allocation: real, volatility: real)

  type Portfolio = seq<Asset>

  /** `calculatePotentialLoss`: the left fold
      `total + allocation * volatility * severity` from 0. */
  function PotentialLoss(p: Portfolio, severity: real): real
  {
    if |p| == 0 then 0.0
    else PotentialLoss(p[..|p| - 1], severity) + p[|p| - 1].allocation * p[|p| - 1].volatility * severity
  }

  /** The loss of the portfolio's exposure at unit severity. */
  function Exposure(p: Portfolio): real
  {
    PotentialLoss(p, 1.0)
  }

  /** The loss is linear in the severity. */
  lemma {:induction false} PotentialLossLinear(p: Portfolio, severity: real)
    ensures PotentialLoss(p, severity) == severity * Exposure(p)
  {
    if |p| > 0 {
      PotentialLossLinear(p[..|p| - 1], severity);
      PotentialLossLinear(p[..|p| - 1], 1.0);
    }
  }

  predicate NonNegativeWeights(p: Portfolio)
  {
    forall i :: 0 <= i < |p| ==> 0.0 <= p[i].allocation && 0.0 <= p[i].volatility
  }

  /** No loss is negative for non-negative allocations, volatilities and severity. */
  lemma {:induction false} PotentialLossNonNegative(p: Portfolio, severity: real)
    requires NonNegativeWeights(p) && 0.0 <= severity
    ensures 0.0 <= PotentialLoss(p, severity)
  {
    if |p| > 0 {
      var init := p[..|p| - 1];
      assert NonNegativeWeights(init) by {
        forall i | 0 <= i < |init| ensures 0.0 <= init[i].allocation && 0.0 <= init[i].volatility {
          assert init[i] == p[i];
        }
      }
      PotentialLossNonNegative(init, severity);
      var a := p[|p| - 1];
      assert 0.0 <= a.allocation * a.volatility;
      assert 0.0 <= a.allocation * a.volatility * severity;
    }
  }

  /** `identifyMostVulnerableAssets`: the symbols, in portfolio order, of the
      assets whose volatility exceeds the severity. */
  function Vulnerable(p: Portfolio, severity: real): (r: seq<string>)
    ensures |r| <= |p|
    ensures forall s :: s in r <==> exists i :: 0 <= i < |p| && p[i].volatility > severity && p[i].symbol == s
  {
    if |p| == 0 then []
    else
      var rest := Vulnerable(p[1..], severity);
      assert forall i :: 1 <= i < |p| ==> p[i] == p[1..][i - 1];
      if p[0].volatility > severity then [p[0].symbol] + rest else rest
  }

  /** Filtering distributes over concatenation, so portfolio order is kept. */
  lemma {:induction false} VulnerableAppend(a: Portfolio, b: Portfolio, severity: real)
    ensures Vulnerable(a + b, severity) == Vulnerable(a, severity) + Vulnerable(b, severity)
  {
    if |a| > 0 {
      assert (a + b)[1..] == a[1..] + b;
      VulnerableAppend(a[1..], b, severity);
    } else {
      assert a + b == b;
    }
  }

  /** `a` is `b` with some elements removed, order kept. */
  predicate Subsequence(a: seq<string>, b: seq<string>)
  {
    if |a| == 0 then true
    else if |b| == 0 then false
    else if a[0] == b[0] then Subsequence(a[1..], b[1..])
    else Subsequence(a, b[1..])
  }

  lemma {:induction false} SubsequenceSkip(a: seq<string>, x: string, b: seq<string>)
    requires Subsequence(a, b)
    ensures Subsequence(a, [x] + b)
    decreases |b|, 1
  {
    var xb := [x] + b;
    assert xb[1..] == b;
    if |a| > 0 && a[0] == x {
      SubsequenceDrop(a, b);
    }
  }

  /** Dropping the first element of `a` keeps it a subsequence. */
  lemma {:induction false} SubsequenceDrop(a: seq<string>, b: seq<string>)
    requires |a| > 0 && Subsequence(a, b)
    ensures Subsequence(a[1..], b)
    decreases |b|, 0
  {
    if a[0] == b[0] {
      SubsequenceSkip(a[1..], b[0], b[1..]);
      assert [b[0]] + b[1..] == b;
    } else {
      SubsequenceDrop(a, b[1..]);
      SubsequenceSkip(a[1..], b[0], b[1..]);
      assert [b[0]] + b[1..] == b;
    }
  }

  /** A harsher scenario hits a subsequence of the assets a milder one hits. */
  lemma {:induction false} VulnerableShrinks(p: Portfolio, s1: real, s2: real)
    requires s1 <= s2
    ensures Subsequence(Vulnerable(p, s2), Vulnerable(p, s1))
  {
    if |p| > 0 {
      VulnerableShrinks(p[1..], s1, s2);
      var r1, r2 := Vulnerable(p[1..], s1), Vulnerable(p[1..], s2);
      if p[0].volatility > s2 {
        assert ([p[0].symbol] + r2)[1..] == r2;
        assert ([p[0].symbol] + r1)[1..] == r1;
      } else if p[0].volatility > s1 {
        SubsequenceSkip(r2, p[0].symbol, r1);
      }
    }
  }

  datatype Scenario = Scenario(name: string, severity: real)

  const Scenarios: seq<Scenario> := [
    Scenario("Market Crash", 0.3),
    Scenario("Economic Recession", 0.25),
    Scenario("Geopolitical Tension", 0.2)
  ]

  datatype StressTestResult = StressTestResult(
    scenarioName: string,
    potentialLoss: real,
    probabilityOfOccurrence: real,
    impactedAssets: seq<string>)

  /** `monteCarloSimulation`: one result per fixed scenario, in order.
      `probability` is the value of `MathUtils.normalDistribution(0.15)`,
      which is not part of this model; `iterations` takes no part. */
  function MonteCarloSimulation(p: Portfolio, iterations: nat, probability: real): (r: seq<StressTestResult>)
    ensures |r| == |Scenarios| == 3
    ensures forall i :: 0 <= i < 3 ==>
      r[i].scenarioName == Scenarios[i].name
      && r[i].potentialLoss == Scenarios[i].severity * Exposure(p)
      && r[i].probabilityOfOccurrence == probability
      && r[i].impactedAssets == Vulnerable(p, Scenarios[i].severity)
  {
    PotentialLossLinear(p, 0.3);
    PotentialLossLinear(p, 0.25);
    PotentialLossLinear(p, 0.2);
    seq(3, i requires 0 <= i < 3 => StressTestResult(
      Scenarios[i].name,
      PotentialLoss(p, Scenarios[i].severity),
      probability,
      Vulnerable(p, Scenarios[i].severity)))
  }

  /** The simulation ignores its iteration count. */
  lemma MonteCarloIgnoresIterations(p: Portfolio, n1: nat, n2: nat, probability: real)
    ensures MonteCarloSimulation(p, n1, probability) == MonteCarloSimulation(p, n2, probability)
  {
  }

  /** The scenarios are listed from the harshest down, so each hits a
      subsequence of the assets the next one hits and loses at least as much
      when the exposure is non-negative. */
  lemma MonteCarloOrdered(p: Portfolio, probability: real)
    requires NonNegativeWeights(p)
    ensures var r := MonteCarloSimulation(p, 0, probability);
      forall i :: 0 <= i < 2 ==>
        r[i + 1].potentialLoss <= r[i].potentialLoss
        && Subsequence(r[i].impactedAssets, r[i + 1].impactedAssets)
  {
    PotentialLossNonNegative(p, 1.0);
    VulnerableShrinks(p, 0.25, 0.3);
    VulnerableShrinks(p, 0.2, 0.25);
  }
}
