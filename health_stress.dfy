/** The health stress test: a simplified baseline corpus, the same corpus
    reduced by a scenario's compounding health-cost multiplier, and the
    five-yearly projection rows that compare the two. */
module HealthStress {
  import opened JsValues

  /** The scenario ids the multiplier distinguishes; any other id keeps its name. */
  datatype ScenarioId = Everyday | Planned | HighImpact | OtherScenario(name: string)

  /** The user inputs the projection reads. */
  datatype UserInputs = UserInputs(currentAge: int, lifespan: int, moneySaved: real, monthlySIP: real, expectedReturns: real)

  /** calculateBaselineCorpus: the lump sum compounded yearly plus the SIP
      annuity-due compounded monthly. The monthly rate divides, so it is
      defined only for a non-zero return. */
  function BaselineCorpus(u: UserInputs, years: nat): real
    requires u.expectedReturns != 0.0
  {
    var monthlyRate := u.expectedReturns / 100.0 / 12.0;
    var months := years * 12;
    var fvLumpSum := u.moneySaved * Pow(1.0 + u.expectedReturns / 100.0, years);
    var fvSip := u.monthlySIP * ((Pow(1.0 + monthlyRate, months) - 1.0) / monthlyRate) * (1.0 + monthlyRate);
    fvLumpSum + fvSip
  }

  /** At zero years the annuity term vanishes and the baseline is the savings. */
  lemma BaselineAtStart(u: UserInputs)
    requires u.expectedReturns != 0.0
    ensures BaselineCorpus(u, 0) == u.moneySaved
  {
  }

  /** With non-negative savings and SIP and a positive return, the baseline
      never falls below the savings. */
  lemma BaselineAtLeastSavings(u: UserInputs, years: nat)
    requires u.expectedReturns > 0.0 && u.moneySaved >= 0.0 && u.monthlySIP >= 0.0
    ensures BaselineCorpus(u, years) >= u.moneySaved >= 0.0
  {
    var monthlyRate := u.expectedReturns / 100.0 / 12.0;
    var lump := Pow(1.0 + u.expectedReturns / 100.0, years);
    var growth := Pow(1.0 + monthlyRate, years * 12);
    PowAtLeastOne(1.0 + u.expectedReturns / 100.0, years);
    PowAtLeastOne(1.0 + monthlyRate, years * 12);
    assert u.moneySaved * lump >= u.moneySaved * 1.0;
    var factor := (growth - 1.0) / monthlyRate;
    assert factor >= 0.0;
    assert u.monthlySIP * factor >= 0.0;
    assert u.monthlySIP * factor * (1.0 + monthlyRate) >= 0.0;
  }

  /** The yearly factor each scenario leaves of the corpus. */
  function HealthCostMultiplier(id: ScenarioId): (m: real)
    ensures 0.0 < m <= 1.0
    ensures m == 1.0 <==> id.OtherScenario?
  {
    match id
    case Everyday => 0.95
    case Planned => 0.85
    case HighImpact => 0.70
    case OtherScenario(_) => 1.0
  }

  /** The compounded health factor: the multiplier raised to the years,
      counted up to ten. */
  function HealthImpact(years: nat, id: ScenarioId): (f: real)
    ensures 0.0 <= f <= 1.0
    ensures id.OtherScenario? ==> f == 1.0
  {
    var m := HealthCostMultiplier(id);
    PowInUnitInterval(m, MinNat(years, 10));
    OneToAnyPower(MinNat(years, 10));
    Pow(m, MinNat(years, 10))
  }

  lemma {:induction false} OneToAnyPower(n: nat)
    ensures Pow(1.0, n) == 1.0
  {
    if n > 0 {
      OneToAnyPower(n - 1);
    }
  }

  /** From ten years on the factor no longer compounds, and before that a
      longer horizon never leaves more. */
  lemma HealthImpactShape(y1: nat, y2: nat, id: ScenarioId)
    requires y1 <= y2
    ensures HealthImpact(y2, id) <= HealthImpact(y1, id)
    ensures y1 >= 10 ==> HealthImpact(y2, id) == HealthImpact(y1, id)
  {
    PowAntitoneInExponent(HealthCostMultiplier(id), MinNat(y1, 10), MinNat(y2, 10));
  }

  function Scale(c: real, f: real): real {
    c * f
  }

  lemma ScaleMonotone(c: real, x: real, y: real)
    requires c >= 0.0 && x <= y
    ensures Scale(c, x) <= Scale(c, y)
  {
  }

  lemma ScaleWithinUnit(c: real, f: real)
    requires 0.0 <= f <= 1.0
    ensures c >= 0.0 ==> 0.0 <= Scale(c, f) <= c
    ensures f == 1.0 ==> Scale(c, f) == c
  {
    if c >= 0.0 {
      ScaleMonotone(c, f, 1.0);
    }
  }

  /** calculateHealthAdjustedCorpus: the baseline times the compounded
      factor. For a non-negative baseline the adjusted corpus lies between
      0 and the baseline, and an unknown scenario leaves the baseline
      unchanged. */
  function HealthAdjustedCorpus(baseline: real, years: nat, id: ScenarioId): (r: real)
    ensures baseline >= 0.0 ==> 0.0 <= r <= baseline
    ensures id.OtherScenario? ==> r == baseline
  {
    var impact := HealthImpact(years, id);
    ScaleWithinUnit(baseline, impact);
    Scale(baseline, impact)
  }

  /** From ten years on the adjustment no longer deepens. */
  lemma AdjustmentStopsAtTenYears(baseline: real, years: nat, id: ScenarioId)
    requires years >= 10
    ensures HealthAdjustedCorpus(baseline, years, id) == HealthAdjustedCorpus(baseline, 10, id)
  {
    HealthImpactShape(10, years, id);
  }

  /** A longer horizon never leaves more of a non-negative baseline. */
  lemma AdjustmentAntitoneInYears(baseline: real, y1: nat, y2: nat, id: ScenarioId)
    requires baseline >= 0.0 && y1 <= y2
    ensures HealthAdjustedCorpus(baseline, y2, id) <= HealthAdjustedCorpus(baseline, y1, id)
  {
    HealthImpactShape(y1, y2, id);
    var f1, f2 := HealthImpact(y1, id), HealthImpact(y2, id);
    ScaleMonotone(baseline, f2, f1);
  }

  // ---------------------------------------------------------------------
  // The projection rows

  datatype ProjectionRow = ProjectionRow(age: int, baseline: int, healthAdjusted: int, difference: int)

  /** `Math.max(lifespan, depletionAge) + 5`. The depletion age comes from
      the health engine; a non-numeric one (None) makes the bound NaN. */
  function EndAge(u: UserInputs, depletionAge: Option<int>): (e: Option<int>)
    ensures e.Some? <==> depletionAge.Some?
    ensures e.Some? ==> e.value >= u.lifespan + 5 && e.value >= depletionAge.value + 5
  {
    match depletionAge
    case None => None
    case Some(d) => Some(if u.lifespan >= d then u.lifespan + 5 else d + 5)
  }

  /** How many ages `start, start + 5, ...` the loop visits before passing
      the end; none against a NaN bound. */
  function RowCount(start: int, endAge: Option<int>): (n: nat)
    ensures endAge.None? || endAge.value < start ==> n == 0
    ensures endAge.Some? && start <= endAge.value ==> n > 0
    ensures endAge.Some? && n > 0 ==> start + 5 * (n - 1) <= endAge.value < start + 5 * n
  {
    if endAge.None? || endAge.value < start then 0 else (endAge.value - start) / 5 + 1
  }

  /** The loop makes a division by the monthly rate only when it makes a row. */
  predicate ProjectionDefined(u: UserInputs, depletionAge: Option<int>) {
    RowCount(u.currentAge, EndAge(u, depletionAge)) > 0 ==> u.expectedReturns != 0.0
  }

  /** The row `years` after the current age: rounded baseline and adjusted
      corpus, and the difference rounded from the unrounded pair. */
  function RowAt(u: UserInputs, id: ScenarioId, years: nat): (row: ProjectionRow)
    requires u.expectedReturns != 0.0
    ensures row.age == u.currentAge + years
    ensures BaselineCorpus(u, years) >= 0.0 ==> row.difference >= 0 && 0 <= row.healthAdjusted <= row.baseline
    ensures id.OtherScenario? ==> row.difference == 0 && row.healthAdjusted == row.baseline
  {
    var baseline := BaselineCorpus(u, years);
    var adjusted := HealthAdjustedCorpus(baseline, years, id);
    var row := ProjectionRow(u.currentAge + years, Round(baseline), Round(adjusted), Round(baseline - adjusted));
    if baseline >= 0.0 then
      RoundMonotone(adjusted, baseline);
      RoundMonotone(0.0, adjusted);
      RoundOfInt(0);
      row
    else
      row
  }

  /** The projection loop: ages from the current age in steps of five up to
      and including the end bound, one row each. */
  method ProjectCorpus(u: UserInputs, id: ScenarioId, depletionAge: Option<int>) returns (rows: seq<ProjectionRow>)
    requires ProjectionDefined(u, depletionAge)
    ensures |rows| == RowCount(u.currentAge, EndAge(u, depletionAge))
    ensures forall k :: 0 <= k < |rows| ==> u.expectedReturns != 0.0 && rows[k] == RowAt(u, id, 5 * k)
  {
    rows := [];
    var endAge := EndAge(u, depletionAge);
    if endAge.None? {
      return;
    }
    var startAge := u.currentAge;
    var age := startAge;
    while age <= endAge.value
      invariant age == startAge + 5 * |rows|
      invariant age <= endAge.value + 5 || |rows| == 0
      invariant |rows| <= RowCount(startAge, endAge)
      invariant age <= endAge.value ==> |rows| < RowCount(startAge, endAge)
      invariant age > endAge.value ==> |rows| == RowCount(startAge, endAge)
      invariant forall k :: 0 <= k < |rows| ==> u.expectedReturns != 0.0 && rows[k] == RowAt(u, id, 5 * k)
      decreases endAge.value - age
    {
      var yearsFromNow := age - startAge;
      var baselineCorpus := BaselineCorpus(u, yearsFromNow);
      var healthAdjustedCorpus := HealthAdjustedCorpus(baselineCorpus, yearsFromNow, id);
      rows := rows + [ProjectionRow(age, Round(baselineCorpus), Round(healthAdjustedCorpus), Round(baselineCorpus - healthAdjustedCorpus))];
      age := age + 5;
    }
  }

  /** The rows climb in steps of five from the current age, and the last
      one reaches within five years of the bound and never past it. */
  lemma ProjectionAges(u: UserInputs, id: ScenarioId, depletionAge: Option<int>, rows: seq<ProjectionRow>)
    requires u.expectedReturns != 0.0
    requires |rows| == RowCount(u.currentAge, EndAge(u, depletionAge))
    requires forall k :: 0 <= k < |rows| ==> rows[k] == RowAt(u, id, 5 * k)
    ensures forall j, k :: 0 <= j < k < |rows| ==> rows[j].age < rows[k].age
    ensures |rows| > 0 ==> rows[0].age == u.currentAge
    ensures |rows| > 0 ==> rows[|rows| - 1].age <= EndAge(u, depletionAge).value < rows[|rows| - 1].age + 5
    ensures depletionAge.None? ==> rows == []
  {
  }
}
