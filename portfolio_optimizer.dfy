/** `PortfolioOptimizer` of `portfolio-stress-testing/optimization-strategy.ts`:
    risk-inverse weights per symbol and rebalancing deltas. The asset list is
    fixed at construction, so it is a value here. */
module PortfolioOptimizer {
  import opened Results
  import opened Stats
  import opened JsObject

  datatype Asset = Asset(symbol: string, expectedReturn: real, risk: real)

  function Symbols(assets: seq<Asset>): (s: seq<string>)
    ensures |s| == |assets| && forall i :: 0 <= i < |assets| ==> s[i] == assets[i].symbol
  {
    seq(|assets|, i requires 0 <= i < |assets| => assets[i].symbol)
  }

  function Risks(assets: seq<Asset>): (s: seq<real>)
    ensures |s| == |assets| && forall i :: 0 <= i < |assets| ==> s[i] == assets[i].risk
  {
    seq(|assets|, i requires 0 <= i < |assets| => assets[i].risk)
  }

  /** `totalRisk`: the sum of the risks. */
  function TotalRisk(assets: seq<Asset>): real
  {
    Sum(Risks(assets))
  }

  function Weight(a: Asset, total: real): real
    requires total != 0.0
  {
    1.0 - a.risk / total
  }

  /** The `reduce` that spreads the allocation so far and sets the asset's
      symbol: a repeated symbol keeps its first position and its last weight. */
  function Allocate(assets: seq<Asset>, total: real): (o: Obj<real>)
    requires |assets| > 0 ==> total != 0.0
    ensures Keys(o) == Dedup(Symbols(assets))
  {
    if |assets| == 0 then []
    else
      var init := assets[..|assets| - 1];
      var a := assets[|assets| - 1];
      assert Symbols(assets) == Symbols(init) + [a.symbol];
      Put(Allocate(init, total), a.symbol, Weight(a, total))
  }

  /** `optimizeAllocation`: with a zero total risk the weights are not finite. */
  function OptimizeAllocation(assets: seq<Asset>): (r: Result<Obj<real>>)
    ensures r.Ok? <==> |assets| == 0 || TotalRisk(assets) != 0.0
    ensures r.Ok? ==> Keys(r.value) == Dedup(Symbols(assets)) && UniqueKeys(r.value)
  {
    var total := TotalRisk(assets);
    if |assets| > 0 && total == 0.0 then Err(DivisionByZero)
    else Ok(Allocate(assets, total))
  }

  /** The weight of a symbol is that of its last occurrence. */
  lemma {:induction false} AllocateLastWins(assets: seq<Asset>, total: real, i: nat)
    requires total != 0.0 && i < |assets|
    requires forall j :: i < j < |assets| ==> assets[j].symbol != assets[i].symbol
    ensures Get(Allocate(assets, total), assets[i].symbol) == Some(Weight(assets[i], total))
  {
    var init := assets[..|assets| - 1];
    var a := assets[|assets| - 1];
    PutGet(Allocate(init, total), a.symbol, Weight(a, total), assets[i].symbol);
    if i < |assets| - 1 {
      AllocateLastWins(init, total, i);
    }
  }

  /** Every weight belongs to some asset. */
  lemma {:induction false} AllocateEntries(assets: seq<Asset>, total: real)
    requires total != 0.0
    ensures forall e :: e in Allocate(assets, total) ==>
      exists i :: 0 <= i < |assets| && e == Entry(assets[i].symbol, Weight(assets[i], total))
  {
    if |assets| > 0 {
      var init := assets[..|assets| - 1];
      var a := assets[|assets| - 1];
      AllocateEntries(init, total);
      PutEntries(Allocate(init, total), a.symbol, Weight(a, total));
      forall e | e in Allocate(assets, total)
        ensures exists i :: 0 <= i < |assets| && e == Entry(assets[i].symbol, Weight(assets[i], total))
      {
        if e != Entry(a.symbol, Weight(a, total)) {
          var i :| 0 <= i < |init| && e == Entry(init[i].symbol, Weight(init[i], total));
          assert assets[i] == init[i];
        }
      }
    }
  }

  predicate DistinctSymbols(assets: seq<Asset>)
  {
    forall i, j :: 0 <= i < j < |assets| ==> assets[i].symbol != assets[j].symbol
  }

  /** One entry per asset, in order. */
  function Pairs(assets: seq<Asset>, total: real): (o: Obj<real>)
    requires total != 0.0
    ensures |o| == |assets|
    ensures forall i :: 0 <= i < |assets| ==> o[i] == Entry(assets[i].symbol, Weight(assets[i], total))
  {
    seq(|assets|, i requires 0 <= i < |assets| => Entry(assets[i].symbol, Weight(assets[i], total)))
  }

  /** With distinct symbols every asset gets its own entry, in order. */
  lemma {:induction false} AllocateDistinct(assets: seq<Asset>, total: real)
    requires total != 0.0 && DistinctSymbols(assets)
    ensures Allocate(assets, total) == Pairs(assets, total)
  {
    if |assets| > 0 {
      var init, a := assets[..|assets| - 1], assets[|assets| - 1];
      var w := Weight(a, total);
      DistinctPrefix(assets);
      AllocateDistinct(init, total);
      var o := Pairs(init, total);
      assert a.symbol !in Keys(o) by {
        forall j | 0 <= j < |o| ensures Keys(o)[j] != a.symbol {
          assert init[j] == assets[j];
        }
      }
      PutAppends(o, a.symbol, w);
      assert Allocate(assets, total) == Put(o, a.symbol, w);
      assert Pairs(assets, total) == o + [Entry(a.symbol, w)];
    }
  }

  lemma DistinctPrefix(assets: seq<Asset>)
    requires |assets| > 0 && DistinctSymbols(assets)
    ensures DistinctSymbols(assets[..|assets| - 1])
  {
    var init := assets[..|assets| - 1];
    forall i, j | 0 <= i < j < |init| ensures init[i].symbol != init[j].symbol {
      assert init[i] == assets[i] && init[j] == assets[j];
    }
  }

  /** The weights of distinct symbols add up to n - 1, not to 1. */
  lemma WeightsSumDistinct(assets: seq<Asset>)
    requires DistinctSymbols(assets) && TotalRisk(assets) != 0.0
    ensures Sum(Values(OptimizeAllocation(assets).value)) == |assets| as real - 1.0
  {
    var total := TotalRisk(assets);
    AllocateDistinct(assets, total);
    PairsSum(assets, total);
  }

  lemma PairsSum(assets: seq<Asset>, total: real)
    requires total != 0.0
    ensures Sum(Values(Pairs(assets, total))) == |assets| as real - Sum(Risks(assets)) / total
  {
    var w := Values(Pairs(assets, total));
    PairsAffine(assets, total);
    SumAffine(Risks(assets), w, -1.0 / total, 1.0);
    AffineCombine(Sum(w), Sum(Risks(assets)), |assets| as real, total);
  }

  lemma PairsAffine(assets: seq<Asset>, total: real)
    requires total != 0.0
    ensures forall i :: 0 <= i < |assets| ==>
      Values(Pairs(assets, total))[i] == (-1.0 / total) * Risks(assets)[i] + 1.0
  {
    forall i | 0 <= i < |assets|
      ensures Values(Pairs(assets, total))[i] == (-1.0 / total) * Risks(assets)[i] + 1.0
    {
      WeightAffine(assets[i].risk, total);
    }
  }

  lemma AffineCombine(sw: real, s: real, n: real, total: real)
    requires total != 0.0 && sw == (-1.0 / total) * s + 1.0 * n
    ensures sw == n - s / total
  {
    WeightAffine(s, total);
  }

  lemma WeightAffine(r: real, total: real)
    requires total != 0.0
    ensures 1.0 - r / total == (-1.0 / total) * r + 1.0
  {
  }

  predicate NonNegativeRisks(assets: seq<Asset>)
  {
    forall i :: 0 <= i < |assets| ==> 0.0 <= assets[i].risk
  }

  /** One non-negative term is at most the sum of all. */
  lemma {:induction false} TermAtMostSum(xs: seq<real>, i: nat)
    requires i < |xs| && forall j :: 0 <= j < |xs| ==> 0.0 <= xs[j]
    ensures xs[i] <= Sum(xs)
  {
    var init := xs[..|xs| - 1];
    assert forall j :: 0 <= j < |init| ==> init[j] == xs[j];
    if i < |xs| - 1 {
      TermAtMostSum(init, i);
    } else {
      SumNonNegative(init);
    }
  }

  /** With non-negative risks every weight lies in [0, 1]. */
  lemma WeightsInUnitRange(assets: seq<Asset>)
    requires NonNegativeRisks(assets) && TotalRisk(assets) != 0.0
    ensures forall e :: e in OptimizeAllocation(assets).value ==> 0.0 <= e.value <= 1.0
  {
    var total := TotalRisk(assets);
    AllocateEntries(assets, total);
    forall i | 0 <= i < |assets| ensures 0.0 <= Weight(assets[i], total) <= 1.0 {
      TermAtMostSum(Risks(assets), i);
      DivUnit(assets[i].risk, total);
    }
  }

  /** A riskier asset never gets a larger weight. */
  lemma WeightAntitone(a: Asset, b: Asset, total: real)
    requires 0.0 < total && a.risk <= b.risk
    ensures Weight(b, total) <= Weight(a, total)
  {
    DivMonotone(a.risk, b.risk, total);
  }

  datatype Rebalance = Rebalance(
    symbol: string,
    currentWeight: real,
    suggestedWeight: Option<real>,
    adjustment: Option<real>)

  /** `suggestRebalancing`: one suggestion per key of the current allocation,
      in its order; a key missing from the target reads `undefined` and the
      adjustment is then `NaN`, here `None`. */
  function SuggestRebalancing(current: Obj<real>, target: Obj<real>): (r: seq<Rebalance>)
    ensures |r| == |current|
    ensures forall i :: 0 <= i < |r| ==>
      r[i].symbol == current[i].key
      && Some(r[i].currentWeight) == Get(current, current[i].key)
      && r[i].suggestedWeight == Get(target, current[i].key)
      && (r[i].adjustment.Some? <==> current[i].key in Keys(target))
      && (r[i].adjustment.Some? ==> r[i].currentWeight + r[i].adjustment.value == r[i].suggestedWeight.value)
  {
    seq(|current|, i requires 0 <= i < |current| =>
      var symbol := current[i].key;
      assert symbol in Keys(current);
      var now := Get(current, symbol).value;
      var goal := Get(target, symbol);
      Rebalance(symbol, now, goal, if goal.Some? then Some(goal.value - now) else None))
  }

  /** In a JavaScript object keys are unique, so the current weight is the
      property's own value. */
  lemma RebalanceCurrentWeight(current: Obj<real>, target: Obj<real>, i: nat)
    requires UniqueKeys(current) && i < |current|
    ensures SuggestRebalancing(current, target)[i].currentWeight == current[i].value
  {
    var k := current[i].key;
    var j :| 0 <= j < |current| && current[j] == Entry(k, Get(current, k).value);
    assert j == i;
  }
}
