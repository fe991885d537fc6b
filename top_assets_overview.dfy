/** The overview cards: the average suitability score, the asset with the
    best real return and the asset with the lowest volatility, each a
    `reduce` over the asset list. */
module TopAssetsOverview {
  import opened JsValues
  import opened AssetMetrics

  /** `reduce((acc, a) => acc + a.metrics.suitabilityScore, 0)`, folded from the left. */
  function SuitabilitySum(assets: seq<AssetClass>): real {
    if |assets| == 0 then 0.0
    else SuitabilitySum(assets[..|assets| - 1]) + assets[|assets| - 1].metrics.suitabilityScore
  }

  /** Bounds on every score bound the sum by the count times the bound. */
  lemma {:induction false} SumBetweenBounds(assets: seq<AssetClass>, lo: real, hi: real)
    requires forall k :: 0 <= k < |assets| ==> lo <= assets[k].metrics.suitabilityScore <= hi
    ensures lo * |assets| as real <= SuitabilitySum(assets) <= hi * |assets| as real
  {
    if |assets| > 0 {
      SumBetweenBounds(assets[..|assets| - 1], lo, hi);
    }
  }

  /** A sum between n·lo and n·hi has its mean between lo and hi. */
  lemma QuotientBetween(sum: real, n: real, lo: real, hi: real)
    requires n > 0.0 && lo * n <= sum <= hi * n
    ensures lo <= sum / n <= hi
  {
    RatioAtLeast(sum, n, lo);
    RatioAbove(sum, n, hi);
  }

  /** The smallest suitability score in a non-empty list. */
  function MinSuitability(assets: seq<AssetClass>): (m: real)
    requires |assets| > 0
    ensures exists k :: 0 <= k < |assets| && assets[k].metrics.suitabilityScore == m
    ensures forall k :: 0 <= k < |assets| ==> m <= assets[k].metrics.suitabilityScore
  {
    if |assets| == 1 then assets[0].metrics.suitabilityScore
    else
      var rest := MinSuitability(assets[..|assets| - 1]);
      assert forall k :: 0 <= k < |assets| - 1 ==> assets[..|assets| - 1][k] == assets[k];
      Min(rest, assets[|assets| - 1].metrics.suitabilityScore)
  }

  /** The largest suitability score in a non-empty list. */
  function MaxSuitability(assets: seq<AssetClass>): (m: real)
    requires |assets| > 0
    ensures exists k :: 0 <= k < |assets| && assets[k].metrics.suitabilityScore == m
    ensures forall k :: 0 <= k < |assets| ==> assets[k].metrics.suitabilityScore <= m
  {
    if |assets| == 1 then assets[0].metrics.suitabilityScore
    else
      var rest := MaxSuitability(assets[..|assets| - 1]);
      assert forall k :: 0 <= k < |assets| - 1 ==> assets[..|assets| - 1][k] == assets[k];
      Max(rest, assets[|assets| - 1].metrics.suitabilityScore)
  }

  /** avgSuitability: the sum over the count, which lies between the
      smallest and the largest score. The list is never empty. */
  function AverageSuitability(assets: seq<AssetClass>): (avg: real)
    requires |assets| > 0
    ensures MinSuitability(assets) <= avg <= MaxSuitability(assets)
  {
    var n, sum := |assets| as real, SuitabilitySum(assets);
    SumBetweenBounds(assets, MinSuitability(assets), MaxSuitability(assets));
    QuotientBetween(sum, n, MinSuitability(assets), MaxSuitability(assets));
    sum / n
  }

  /** On the shipped table the average suitability is 40.2 / 6 = 6.7. */
  lemma ShippedAverage()
    ensures AverageSuitability(AssetClasses) == 6.7
  {
    var a := AssetClasses;
    assert SuitabilitySum(a[..1]) == 7.9 by { assert a[..1][..0] == []; }
    assert SuitabilitySum(a[..2]) == 14.4 by { assert a[..2][..1] == a[..1]; }
    assert SuitabilitySum(a[..3]) == 21.2 by { assert a[..3][..2] == a[..2]; }
    assert SuitabilitySum(a[..4]) == 27.1 by { assert a[..4][..3] == a[..3]; }
    assert SuitabilitySum(a[..5]) == 33.3 by { assert a[..5][..4] == a[..4]; }
    assert SuitabilitySum(a) == 40.2 by { assert a[..5] == a[..|a| - 1]; }
  }

  /** bestPerformer: `reduce` without a seed, replacing the running best
      only on a strictly higher real return. The index of an asset whose
      return is the highest, and the first such asset. */
  function BestPerformerIndex(assets: seq<AssetClass>): (i: nat)
    requires |assets| > 0
    ensures i < |assets|
    ensures forall j :: 0 <= j < |assets| ==> assets[j].metrics.realReturnScore <= assets[i].metrics.realReturnScore
    ensures forall j :: 0 <= j < i ==> assets[j].metrics.realReturnScore < assets[i].metrics.realReturnScore
  {
    if |assets| == 1 then 0
    else
      var best := BestPerformerIndex(assets[..|assets| - 1]);
      assert assets[..|assets| - 1][best] == assets[best];
      assert forall j :: 0 <= j < |assets| - 1 ==> assets[..|assets| - 1][j] == assets[j];
      if assets[|assets| - 1].metrics.realReturnScore > assets[best].metrics.realReturnScore then |assets| - 1 else best
  }

  /** lowestVolatility: the same fold with a strict `<` on volatility. */
  function LowestVolatilityIndex(assets: seq<AssetClass>): (i: nat)
    requires |assets| > 0
    ensures i < |assets|
    ensures forall j :: 0 <= j < |assets| ==> assets[i].metrics.volatility <= assets[j].metrics.volatility
    ensures forall j :: 0 <= j < i ==> assets[i].metrics.volatility < assets[j].metrics.volatility
  {
    if |assets| == 1 then 0
    else
      var lowest := LowestVolatilityIndex(assets[..|assets| - 1]);
      assert assets[..|assets| - 1][lowest] == assets[lowest];
      assert forall j :: 0 <= j < |assets| - 1 ==> assets[..|assets| - 1][j] == assets[j];
      if assets[|assets| - 1].metrics.volatility < assets[lowest].metrics.volatility then |assets| - 1 else lowest
  }

  function BestPerformer(assets: seq<AssetClass>): AssetClass
    requires |assets| > 0
  {
    assets[BestPerformerIndex(assets)]
  }

  function LowestVolatility(assets: seq<AssetClass>): AssetClass
    requires |assets| > 0
  {
    assets[LowestVolatilityIndex(assets)]
  }

  /** On the shipped table the best real return is large-cap equity (8.7)
      and the lowest volatility is government bonds (5.8). */
  lemma ShippedLeaders()
    ensures BestPerformer(AssetClasses).name == "Equity (Large Cap)"
    ensures BestPerformer(AssetClasses).metrics.realReturnScore == 8.7
    ensures LowestVolatility(AssetClasses).name == "Government Bonds"
    ensures LowestVolatility(AssetClasses).metrics.volatility == 5.8
  {
    var b := BestPerformerIndex(AssetClasses);
    assert AssetClasses[0].metrics.realReturnScore <= AssetClasses[b].metrics.realReturnScore;
    assert b == 0;
    var l := LowestVolatilityIndex(AssetClasses);
    assert AssetClasses[l].metrics.volatility <= AssetClasses[1].metrics.volatility;
    assert l == 1;
  }
}
