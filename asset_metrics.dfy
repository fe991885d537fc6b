/** The retirement-suitability data: six asset classes, three model plans,
    the generated rolling-return series, and the suitability tiers that
    colour a score. */
module AssetMetrics {
  import opened JsValues

  // ---------------------------------------------------------------------
  // Asset classes

  datatype Metrics = Metrics(
    realReturnScore: real,
    volatility: real,
    maxDrawdown: real,
    suitabilityScore: real,
    inflationBeatingYears: int,
    recoveryTime: int,
    rolling10YReturns: real,
    rolling20YReturns: real)

  datatype AssetClass = AssetClass(id: int, name: string, category: string, color: string, metrics: Metrics, description: string)

  const EquityDescription: string := "Historically provided growth but with significant volatility during market cycles"
  const GovernmentBondsDescription: string := "Lower volatility with consistent income, but may not outpace inflation significantly"
  const CorporateBondsDescription: string := "Moderate returns with slightly higher volatility than government bonds"
  const GoldDescription: string := "Historical store of value with low correlation to financial markets"
  const RealEstateDescription: string := "Income generation with moderate growth potential and inflation linkage"
  const InternationalDescription: string := "Geographic diversification with varying correlation to domestic markets"

  const AssetClasses: seq<AssetClass> := [
    AssetClass(1, "Equity (Large Cap)", "Growth", "#3B82F6",
      Metrics(8.7, 18.2, -52.3, 7.9, 72, 42, 11.4, 10.2), EquityDescription),
    AssetClass(2, "Government Bonds", "Income", "#10B981",
      Metrics(3.2, 5.8, -12.1, 6.5, 65, 18, 6.8, 5.9), GovernmentBondsDescription),
    AssetClass(3, "Corporate Bonds", "Income", "#84CC16",
      Metrics(4.1, 7.4, -15.8, 6.8, 68, 22, 7.2, 6.3), CorporateBondsDescription),
    AssetClass(4, "Gold", "Hedge", "#F59E0B",
      Metrics(2.8, 15.6, -44.2, 5.9, 58, 64, 6.1, 4.7), GoldDescription),
    AssetClass(5, "Real Estate (REITs)", "Income & Growth", "#8B5CF6",
      Metrics(5.9, 12.8, -38.7, 6.2, 70, 36, 8.7, 7.4), RealEstateDescription),
    AssetClass(6, "International Equity", "Diversification", "#EC4899",
      Metrics(7.4, 19.8, -54.2, 6.9, 69, 48, 9.8, 8.6), InternationalDescription)
  ]

  /** The asset table has six entries numbered 1 to 6 in order, so the ids
      are distinct. */
  lemma AssetClassesNumbered()
    ensures |AssetClasses| == 6
    ensures forall k :: 0 <= k < |AssetClasses| ==> AssetClasses[k].id == k + 1
    ensures forall j, k :: 0 <= j < k < |AssetClasses| ==> AssetClasses[j].id != AssetClasses[k].id
  {
  }

  // ---------------------------------------------------------------------
  // Retirement plans

  datatype Allocation = Allocation(equity: int, bonds: int, gold: int, realEstate: int)

  datatype PlanMetrics = PlanMetrics(expectedRealReturn: real, volatility: real, maxDrawdown: real, suitabilityScore: real, inflationBeatingProbability: int)

  datatype Plan = Plan(id: string, name: string, description: string, allocation: Allocation, metrics: PlanMetrics)

  const RetirementPlans: seq<Plan> := [
    Plan("conservative", "Conservative Plan", "Emphasis on capital preservation with moderate growth",
      Allocation(30, 50, 10, 10), PlanMetrics(4.2, 8.4, -22.5, 6.8, 78)),
    Plan("balanced", "Balanced Plan", "Mix of growth and income for retirement accumulation",
      Allocation(50, 30, 10, 10), PlanMetrics(5.8, 11.2, -32.7, 7.2, 82)),
    Plan("growth", "Growth Plan", "Higher growth potential for longer time horizons",
      Allocation(70, 20, 5, 5), PlanMetrics(7.1, 15.8, -42.3, 7.5, 85))
  ]

  function AllocationTotal(a: Allocation): int {
    a.equity + a.bonds + a.gold + a.realEstate
  }

  /** Every plan allocates exactly 100% across its four asset groups. */
  lemma PlansAllocateEverything()
    ensures |RetirementPlans| == 3
    ensures forall k :: 0 <= k < |RetirementPlans| ==> AllocationTotal(RetirementPlans[k].allocation) == 100
  {
  }

  /** `plans.find(p => p.id === id)`: the first plan with the id, if any. */
  function FindPlan(plans: seq<Plan>, id: string): (r: Option<nat>)
    ensures r.Some? ==> r.value < |plans| && plans[r.value].id == id
    ensures r.Some? ==> forall k :: 0 <= k < r.value ==> plans[k].id != id
    ensures r.None? <==> forall k :: 0 <= k < |plans| ==> plans[k].id != id
  {
    if |plans| == 0 then None
    else if plans[0].id == id then Some(0)
    else match FindPlan(plans[1..], id)
      case None => None
      case Some(i) => Some(i + 1)
  }

  predicate DistinctPlanIds(plans: seq<Plan>) {
    forall j, k :: 0 <= j < k < |plans| ==> plans[j].id != plans[k].id
  }

  /** The three plan ids differ, so looking one up finds that plan and no
      other plan carries the id. */
  lemma PlanIdsDistinct()
    ensures DistinctPlanIds(RetirementPlans)
    ensures FindPlan(RetirementPlans, "conservative") == Some(0)
    ensures FindPlan(RetirementPlans, "balanced") == Some(1)
    ensures FindPlan(RetirementPlans, "growth") == Some(2)
  {
    assert RetirementPlans[0].id != RetirementPlans[1].id by {
      assert RetirementPlans[0].id[0] != RetirementPlans[1].id[0];
    }
    assert RetirementPlans[0].id != RetirementPlans[2].id by {
      assert RetirementPlans[0].id[0] != RetirementPlans[2].id[0];
    }
    assert RetirementPlans[1].id != RetirementPlans[2].id by {
      assert RetirementPlans[1].id[0] != RetirementPlans[2].id[0];
    }
  }

  /** With distinct ids, the plan found is the only one carrying the id. */
  lemma FoundPlanIsUnique(plans: seq<Plan>, id: string)
    requires DistinctPlanIds(plans) && FindPlan(plans, id).Some?
    ensures forall k :: 0 <= k < |plans| && plans[k].id == id ==> k == FindPlan(plans, id).value
  {
  }

  // ---------------------------------------------------------------------
  // Rolling returns

  /** The four Math.random draws taken for one year. */
  datatype Draws = Draws(equity: real, bonds: real, gold: real, inflation: real)

  predicate InUnitRange(u: real) {
    0.0 <= u < 1.0
  }

  predicate ValidDraws(d: Draws) {
    InUnitRange(d.equity) && InUnitRange(d.bonds) && InUnitRange(d.gold) && InUnitRange(d.inflation)
  }

  datatype RollingReturn = RollingReturn(year: int, equity: real, bonds: real, gold: real, inflation: real)

  /** One year of the series: a base rate plus a scaled draw. */
  function RollingReturnOf(i: nat, d: Draws): (r: RollingReturn)
    ensures r.year == 1995 + i
    ensures ValidDraws(d) ==>
      && 8.0 <= r.equity < 20.0
      && 5.0 <= r.bonds < 9.0
      && 3.0 <= r.gold < 11.0
      && 4.0 <= r.inflation < 7.0
  {
    RollingReturn(1995 + i, 8.0 + d.equity * 12.0, 5.0 + d.bonds * 4.0, 3.0 + d.gold * 8.0, 4.0 + d.inflation * 3.0)
  }

  /** rollingReturns: `Array.from({ length: 30 }, ...)`, with the random
      draws of each year passed in. */
  function RollingReturns(draws: seq<Draws>): (r: seq<RollingReturn>)
    requires |draws| == 30
    ensures |r| == 30
    ensures forall i :: 0 <= i < 30 ==> r[i] == RollingReturnOf(i, draws[i])
  {
    seq(30, i requires 0 <= i < 30 => RollingReturnOf(i, draws[i]))
  }

  /** The series covers 1995 to 2024 in ascending years and, for draws in
      [0, 1), every rate stays in its band. */
  lemma RollingReturnsShape(draws: seq<Draws>)
    requires |draws| == 30
    ensures forall i, j :: 0 <= i < j < 30 ==> RollingReturns(draws)[i].year < RollingReturns(draws)[j].year
    ensures RollingReturns(draws)[0].year == 1995 && RollingReturns(draws)[29].year == 2024
    ensures (forall i :: 0 <= i < 30 ==> ValidDraws(draws[i])) ==>
      forall i :: 0 <= i < 30 ==> 8.0 <= RollingReturns(draws)[i].equity < 20.0 && 4.0 <= RollingReturns(draws)[i].inflation < 7.0
  {
  }

  // ---------------------------------------------------------------------
  // Suitability tiers

  datatype Tier = High | Medium | Moderate | Low

  /** The tier a score falls in: 8 and up, 6 and up, 4 and up, below 4. */
  function TierOf(score: real): (t: Tier)
    ensures t == High <==> score >= 8.0
    ensures t == Medium <==> 6.0 <= score < 8.0
    ensures t == Moderate <==> 4.0 <= score < 6.0
    ensures t == Low <==> score < 4.0
  {
    if score >= 8.0 then High else if score >= 6.0 then Medium else if score >= 4.0 then Moderate else Low
  }

  function TierRank(t: Tier): nat {
    match t
    case Low => 0
    case Moderate => 1
    case Medium => 2
    case High => 3
  }

  /** A higher score never lands in a lower tier. */
  lemma TierMonotone(s1: real, s2: real)
    requires s1 <= s2
    ensures TierRank(TierOf(s1)) <= TierRank(TierOf(s2))
  {
  }

  /** The text colour classes of each tier. */
  function SuitabilityColorOfTier(t: Tier): string {
    match t
    case High => "text-emerald-600 bg-emerald-50"
    case Medium => "text-blue-600 bg-blue-50"
    case Moderate => "text-amber-600 bg-amber-50"
    case Low => "text-slate-600 bg-slate-50"
  }

  /** getSuitabilityColor: the same if-chain on the score, and so the colour
      of the score's tier. */
  function SuitabilityColor(score: real): (c: string)
    ensures c == SuitabilityColorOfTier(TierOf(score))
  {
    if score >= 8.0 then "text-emerald-600 bg-emerald-50"
    else if score >= 6.0 then "text-blue-600 bg-blue-50"
    else if score >= 4.0 then "text-amber-600 bg-amber-50"
    else "text-slate-600 bg-slate-50"
  }

  /** The leaderboard legend: each named tier with the lowest score it
      lists, from the top; scores under every bound are 'Low'. */
  const Legend: seq<(Tier, real)> := [(High, 8.0), (Medium, 6.0), (Moderate, 4.0)]

  /** Reading the legend from the top: the first entry whose bound the
      score reaches. */
  function LegendTier(legend: seq<(Tier, real)>, score: real): Tier {
    if |legend| == 0 then Low
    else if score >= legend[0].1 then legend[0].0
    else LegendTier(legend[1..], score)
  }

  /** The legend names the same tier as the colour function for every score. */
  lemma LegendMatchesTiers(score: real)
    ensures LegendTier(Legend, score) == TierOf(score)
  {
    var rest1, rest2 := Legend[1..], Legend[1..][1..];
    assert rest1 == [(Medium, 6.0), (Moderate, 4.0)];
    assert rest2 == [(Moderate, 4.0)] && rest2[1..] == [];
    assert LegendTier(rest2, score) == (if score >= 4.0 then Moderate else Low);
    assert LegendTier(rest1, score) == (if score >= 6.0 then Medium else LegendTier(rest2, score));
  }
}
