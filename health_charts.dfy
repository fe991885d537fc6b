/** The health impact charts: twenty years of medical costs inflating at 9%
    a year, rounded to the nearest 10,000, and the emergency-fund
    affordability list. */
module HealthCharts {
  import opened JsValues
  import opened HealthStress

  /** Today's cost of the scenario's event: everyday care, a planned
      procedure, and anything else priced as a major event. */
  function BaseCost(id: ScenarioId): (c: real)
    ensures c > 0.0
    ensures id == Everyday ==> c == 30000.0
    ensures id == Planned ==> c == 300000.0
    ensures id != Everyday && id != Planned ==> c == 1500000.0
  {
    match id
    case Everyday => 30000.0
    case Planned => 300000.0
    case _ => 1500000.0
  }

  /** Today's cost inflated at 9% a year for `i` years. */
  function Inflated(id: ScenarioId, i: nat): (x: real)
    ensures x > 0.0
  {
    PowPositive(1.09, i);
    BaseCost(id) * Pow(1.09, i)
  }

  lemma InflatedMonotone(id: ScenarioId, i: nat, j: nat)
    requires i <= j
    ensures Inflated(id, i) <= Inflated(id, j)
  {
    PowMonotoneInExponent(1.09, i, j);
    var base, pi, pj := BaseCost(id), Pow(1.09, i), Pow(1.09, j);
    assert base * pi <= base * pj by {
      assert base * (pj - pi) >= 0.0;
    }
  }

  /** The cost `i` years ahead, `Math.round(cost / 10000) * 10000`: the
      multiple of 10000 nearest to today's cost inflated at 9% a year. */
  function CostAt(id: ScenarioId, i: nat): (c: int)
    ensures c % 10000 == 0
    ensures c >= 0
    ensures Inflated(id, i) - 5000.0 < c as real <= Inflated(id, i) + 5000.0
  {
    var cost := Inflated(id, i);
    assert cost / 10000.0 > 0.0;
    Round(cost / 10000.0) * 10000
  }

  /** Medical inflation never lowers the charted cost from one year to a later one. */
  lemma CostNonDecreasing(id: ScenarioId, i: nat, j: nat)
    requires i <= j
    ensures CostAt(id, i) <= CostAt(id, j)
  {
    InflatedMonotone(id, i, j);
    RatioMonotone(Inflated(id, i), Inflated(id, j), 10000.0);
    RoundMonotone(Inflated(id, i) / 10000.0, Inflated(id, j) / 10000.0);
  }

  /** One point of the series; the year is shown as text, modelled as its number. */
  datatype CostPoint = CostPoint(year: int, cost: int, category: string)

  /** The series loop: twenty points from the current year on. */
  method MedicalInflationSeries(id: ScenarioId, title: string, currentYear: int) returns (points: seq<CostPoint>)
    ensures |points| == 20
    ensures forall i :: 0 <= i < 20 ==> points[i] == CostPoint(currentYear + i, CostAt(id, i), title)
  {
    points := [];
    for i := 0 to 20
      invariant |points| == i
      invariant forall k :: 0 <= k < i ==> points[k] == CostPoint(currentYear + k, CostAt(id, k), title)
    {
      var year := currentYear + i;
      points := points + [CostPoint(year, CostAt(id, i), title)];
    }
  }

  /** The years climb one by one and the costs never fall. */
  lemma SeriesShape(id: ScenarioId, title: string, currentYear: int, points: seq<CostPoint>)
    requires |points| == 20
    requires forall i :: 0 <= i < 20 ==> points[i] == CostPoint(currentYear + i, CostAt(id, i), title)
    ensures forall i, j :: 0 <= i < j < 20 ==> points[i].year < points[j].year && points[i].cost <= points[j].cost
  {
    forall i, j | 0 <= i < j < 20
      ensures points[i].cost <= points[j].cost
    {
      CostNonDecreasing(id, i, j);
    }
  }

  datatype Affordability = Affordability(scenario: string, days: int)

  const BaseAffordability: seq<Affordability> := [
    Affordability("Current Emergency Fund", 7),
    Affordability("With Health Buffer", 14),
    Affordability("Ideal Coverage", 30)
  ]

  /** The affordability list: three fixed rows, and for premium users a
      fourth for this scenario, 5 days for a high-impact event and 10
      otherwise. */
  method AffordabilityList(id: ScenarioId, isPremium: bool) returns (list: seq<Affordability>)
    ensures |list| == if isPremium then 4 else 3
    ensures list[..3] == BaseAffordability
    ensures isPremium ==> list[3] == Affordability("This Scenario", if id == HighImpact then 5 else 10)
  {
    list := BaseAffordability;
    if isPremium {
      list := list + [Affordability("This Scenario", if id == HighImpact then 5 else 10)];
    }
  }
}
