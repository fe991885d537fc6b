/** The SIP accelerator: the monthly SIP that would reach the required corpus
    (an annuity inversion), the extra amount over the current SIP, and a
    0-100 confidence score built from five tiered sub-scores. */
module SipAccelerator {
  import opened JsValues
  import Annuity

  /** The calculator inputs read here. None is an undefined field, which takes the
      destructuring default. A null field is passed as Some(0): every use of
      these fields here is arithmetic or a relational comparison, where null
      reads as 0. */
  datatype AcceleratorInputs = AcceleratorInputs(
    monthlySIP: Option<real>,
    currentAge: Option<int>,
    retirementAge: Option<int>,
    expectedReturns: Option<real>,
    inflationRate: Option<real>)

  datatype AcceleratorResults = AcceleratorResults(
    requiredCorpus: Option<real>,
    expectedCorpus: Option<real>)

  datatype ConfidenceLabel = Low | Moderate | Strong

  /** Which action sentence is shown, with the figures it carries. */
  datatype ActionSummary =
    | AlreadyAligned
    | SipSufficient
    | ReduceByYearsAndMonths(amount: int, years: int, months: int)
    | ReduceByYears(amount: int, years: int)
    | ReduceByMonths(amount: int, months: int)
      /** A positive accelerator over a zero SIP: the months impact is infinite. */
    | ReduceByUnboundedYears(amount: int)

  datatype ScoreComponents = ScoreComponents(
    corpusScore: int,
    timeBufferScore: int,
    returnScore: int,
    sipAdequacyScore: int,
    inflationAwarenessScore: int)

  datatype Accelerator = Accelerator(
    requiredMonthlySIP: real,
    acceleratorAmount: int,
    confidenceScore: int,
    confidenceLabel: ConfidenceLabel,
    actionSummary: ActionSummary,
    currentSIP: real,
    yearsToRetirement: int,
    scoreComponents: Option<ScoreComponents>)

  function MonthlySip(f: AcceleratorInputs): real { f.monthlySIP.GetOr(0.0) }
  function ExpectedReturns(f: AcceleratorInputs): real { f.expectedReturns.GetOr(12.0) }
  function InflationRate(f: AcceleratorInputs): real { f.inflationRate.GetOr(6.0) }
  function YearsToRetirement(f: AcceleratorInputs): int { f.retirementAge.GetOr(60) - f.currentAge.GetOr(30) }
  function RequiredCorpus(r: AcceleratorResults): real { r.requiredCorpus.GetOr(0.0) }
  function ExpectedCorpus(r: AcceleratorResults): real { r.expectedCorpus.GetOr(0.0) }

  /** The inputs for which the annuity formula is evaluated. */
  predicate TakesAnnuityPath(f: AcceleratorInputs, r: AcceleratorResults) {
    YearsToRetirement(f) > 0 && RequiredCorpus(r) > 0.0
  }

  /** What the monthly rate `(1 + expectedReturns/100)^(1/12) - 1` must be for
      the formula to be a number: above -1 and not zero. It is only needed when
      the formula is evaluated. */
  predicate RateUsable(form: Option<AcceleratorInputs>, results: Option<AcceleratorResults>, monthlyRate: real) {
    form.Some? && results.Some? && TakesAnnuityPath(form.value, results.value) ==>
      -1.0 < monthlyRate && monthlyRate != 0.0
  }

  // ---------------------------------------------------------------------
  // The five sub-scores

  /** Corpus coverage: the expected/required percentage, rounded and capped at
      100; 0 when nothing is expected. */
  function CorpusScore(expected: real, required: real): (s: int)
    requires required > 0.0
    ensures 0 <= s <= 100
    ensures expected <= 0.0 ==> s == 0
    ensures s == 100 <==> expected * 100.0 >= 99.5 * required
  {
    var corpusRatio := if expected > 0.0 then expected / required else 0.0;
    RatioAtLeast(expected, required, 0.995);
    var rounded := Round(corpusRatio * 100.0);
    if rounded < 100 then rounded else 100
  }

  /** A larger expected corpus never lowers the corpus score. */
  lemma CorpusScoreMonotone(e1: real, e2: real, required: real)
    requires required > 0.0 && e1 <= e2
    ensures CorpusScore(e1, required) <= CorpusScore(e2, required)
  {
    if e1 > 0.0 {
      RatioMonotone(e1, e2, required);
      RoundMonotone(e1 / required * 100.0, e2 / required * 100.0);
    }
  }

  /** Time-to-retirement buffer: 30+ years 100, 20+ 80, 10+ 60, else 30. */
  function TimeBufferScore(years: int): (s: int)
    ensures 30 <= s <= 100
    ensures s == 100 <==> years >= 30
    ensures s == 30 <==> years < 10
  {
    if years >= 30 then 100 else if years >= 20 then 80 else if years >= 10 then 60 else 30
  }

  lemma TimeBufferMonotone(y1: int, y2: int)
    requires y1 <= y2
    ensures TimeBufferScore(y1) <= TimeBufferScore(y2)
  {
  }

  /** Return sensitivity on the real return (expected minus inflation):
      8+ 100, 6+ 80, 4+ 60, 2+ 40, else 20. */
  function ReturnScore(realReturns: real): (s: int)
    ensures 20 <= s <= 100
    ensures s == 100 <==> realReturns >= 8.0
    ensures s == 20 <==> realReturns < 2.0
  {
    if realReturns >= 8.0 then 100
    else if realReturns >= 6.0 then 80
    else if realReturns >= 4.0 then 60
    else if realReturns >= 2.0 then 40
    else 20
  }

  lemma ReturnScoreMonotone(r1: real, r2: real)
    requires r1 <= r2
    ensures ReturnScore(r1) <= ReturnScore(r2)
  {
  }

  /** SIP adequacy on the accelerator/SIP ratio: no accelerator 100, then
      ratio at most 0.1 / 0.25 / 0.5 gives 90 / 70 / 50, else 30. A zero SIP
      makes the ratio infinite, so a positive accelerator then scores 30. */
  function SipAdequacyScore(acceleratorAmount: int, monthlySIP: real): (s: int)
    ensures 30 <= s <= 100
    ensures s == 100 <==> acceleratorAmount <= 0
    ensures acceleratorAmount > 0 && monthlySIP == 0.0 ==> s == 30
  {
    if acceleratorAmount <= 0 then 100
    else if monthlySIP == 0.0 then 30
    else
      var ratio := acceleratorAmount as real / monthlySIP;
      if ratio <= 0.1 then 90 else if ratio <= 0.25 then 70 else if ratio <= 0.5 then 50 else 30
  }

  /** For a positive SIP, a larger accelerator never raises the score. */
  lemma SipAdequacyAntitone(a1: int, a2: int, monthlySIP: real)
    requires a1 <= a2 && monthlySIP > 0.0
    ensures SipAdequacyScore(a2, monthlySIP) <= SipAdequacyScore(a1, monthlySIP)
  {
    RatioMonotone(a1 as real, a2 as real, monthlySIP);
  }

  /** Inflation awareness: 100 exactly when a positive inflation rate is assumed. */
  function InflationAwarenessScore(inflationRate: real): (s: int)
    ensures s == 100 <==> inflationRate > 0.0
    ensures s == 50 <==> inflationRate <= 0.0
  {
    if inflationRate > 0.0 then 100 else 50
  }

  // ---------------------------------------------------------------------
  // The composite score and its label

  /** The weighted sum 0.4c + 0.15t + 0.2r + 0.15s + 0.1i. */
  function WeightedSum(c: ScoreComponents): real {
    c.corpusScore as real * 0.4 + c.timeBufferScore as real * 0.15 + c.returnScore as real * 0.2
      + c.sipAdequacyScore as real * 0.15 + c.inflationAwarenessScore as real * 0.1
  }

  predicate ComponentsInRange(c: ScoreComponents) {
    && 0 <= c.corpusScore <= 100 && 0 <= c.timeBufferScore <= 100 && 0 <= c.returnScore <= 100
    && 0 <= c.sipAdequacyScore <= 100 && 0 <= c.inflationAwarenessScore <= 100
  }

  /** The rounded weighted sum, clamped to [0, 100]. */
  function ConfidenceScore(c: ScoreComponents): (s: int)
    ensures 0 <= s <= 100
  {
    var raw := Round(WeightedSum(c));
    if raw < 0 then 0 else if raw > 100 then 100 else raw
  }

  /** The weights sum to 1, so with every component in [0, 100] the clamp
      changes nothing: the score is the rounded weighted sum. */
  lemma ClampUnneeded(c: ScoreComponents)
    requires ComponentsInRange(c)
    ensures 0 <= Round(WeightedSum(c)) <= 100
    ensures ConfidenceScore(c) == Round(WeightedSum(c))
  {
    assert 0.0 <= WeightedSum(c) <= 100.0;
  }

  /** 75+ Strong, 50+ Moderate, else Low. */
  function LabelOf(score: int): (l: ConfidenceLabel)
    ensures l == Strong <==> score >= 75
    ensures l == Low <==> score < 50
  {
    if score >= 75 then Strong else if score >= 50 then Moderate else Low
  }

  function LabelRank(l: ConfidenceLabel): nat {
    match l
    case Low => 0
    case Moderate => 1
    case Strong => 2
  }

  /** A higher score never receives a lower label. */
  lemma LabelMonotone(s1: int, s2: int)
    requires s1 <= s2
    ensures LabelRank(LabelOf(s1)) <= LabelRank(LabelOf(s2))
  {
  }

  // ---------------------------------------------------------------------
  // The action sentence

  /** JavaScript `%` on integers: the remainder takes the sign of the dividend. */
  function JsRemainder(a: int, b: int): (r: int)
    requires b > 0
    ensures a >= 0 ==> 0 <= r < b && r == a % b
    ensures a < 0 ==> -b < r <= 0
  {
    if a >= 0 then a % b else -((-a) % b)
  }

  /** The months impact `round(accelerator / SIP * months * 0.2)`, for a non-zero SIP. */
  function MonthsImpact(acceleratorAmount: int, monthlySIP: real, months: nat): int
    requires monthlySIP != 0.0
  {
    Round((acceleratorAmount as real / monthlySIP) * months as real * 0.2)
  }

  /** Which sentence is shown. The years and months it names recombine into
      the months impact; a years-and-months sentence names 1 to 11 months. */
  function ActionSummaryOf(acceleratorAmount: int, monthlySIP: real, months: nat): (a: ActionSummary)
    ensures acceleratorAmount <= 0 <==> a == SipSufficient
    ensures acceleratorAmount > 0 && monthlySIP == 0.0 ==> a == ReduceByUnboundedYears(acceleratorAmount)
    ensures acceleratorAmount > 0 && monthlySIP != 0.0 ==>
      var mi := MonthsImpact(acceleratorAmount, monthlySIP, months);
      && (a.ReduceByYearsAndMonths? ==> a.years >= 1 && 1 <= a.months <= 11 && 12 * a.years + a.months == mi)
      && (a.ReduceByYears? ==> a.years >= 1 && 12 * a.years == mi)
      && (a.ReduceByMonths? ==> a.months == mi && mi < 12)
      && (a.ReduceByYearsAndMonths? || a.ReduceByYears? || a.ReduceByMonths?)
  {
    if acceleratorAmount <= 0 then SipSufficient
    else if monthlySIP == 0.0 then ReduceByUnboundedYears(acceleratorAmount)
    else
      var monthsImpact := MonthsImpact(acceleratorAmount, monthlySIP, months);
      var yearsImpact := monthsImpact / 12;
      var remainingMonths := JsRemainder(monthsImpact, 12);
      if yearsImpact > 0 && remainingMonths > 0 then ReduceByYearsAndMonths(acceleratorAmount, yearsImpact, remainingMonths)
      else if yearsImpact > 0 then ReduceByYears(acceleratorAmount, yearsImpact)
      else ReduceByMonths(acceleratorAmount, monthsImpact)
  }

  // ---------------------------------------------------------------------
  // computeSIPAccelerator

  /** The SIP whose future value after `months` months at `monthlyRate` is the
      required corpus, floored at 0. */
  function RequiredMonthlySip(requiredCorpus: real, monthlyRate: real, months: nat): real
    requires -1.0 < monthlyRate && monthlyRate != 0.0 && months >= 1
  {
    Max(0.0, requiredCorpus / Annuity.FutureValueFactor(monthlyRate, months))
  }

  function ComputeSipAccelerator(form: Option<AcceleratorInputs>, results: Option<AcceleratorResults>, monthlyRate: real): (r: Option<Accelerator>)
    requires RateUsable(form, results, monthlyRate)
    ensures r.None? <==> form.None? || results.None?
    ensures r.Some? ==> r.value.acceleratorAmount >= 0 && 0 <= r.value.confidenceScore <= 100
    ensures r.Some? ==> r.value.confidenceLabel == LabelOf(r.value.confidenceScore)
    ensures r.Some? ==> r.value.currentSIP == MonthlySip(form.value)
    ensures r.Some? && !TakesAnnuityPath(form.value, results.value) ==>
      r.value == Accelerator(MonthlySip(form.value), 0, 100, Strong, AlreadyAligned, MonthlySip(form.value),
                             YearsToRetirement(form.value), None)
    ensures r.Some? && TakesAnnuityPath(form.value, results.value) ==>
      var months := YearsToRetirement(form.value) * 12;
      var needed := RequiredMonthlySip(RequiredCorpus(results.value), monthlyRate, months);
      var shortfall := Round(needed - MonthlySip(form.value));
      && r.value.requiredMonthlySIP == Round(needed) as real
      && r.value.acceleratorAmount == (if shortfall > 0 then shortfall else 0)
      && (r.value.acceleratorAmount == 0 <==> needed - MonthlySip(form.value) < 0.5)
      && r.value.scoreComponents == Some(ScoreComponents(
           CorpusScore(ExpectedCorpus(results.value), RequiredCorpus(results.value)),
           TimeBufferScore(YearsToRetirement(form.value)),
           ReturnScore(ExpectedReturns(form.value) - InflationRate(form.value)),
           SipAdequacyScore(r.value.acceleratorAmount, MonthlySip(form.value)),
           InflationAwarenessScore(InflationRate(form.value))))
      && ComponentsInRange(r.value.scoreComponents.value)
      && r.value.confidenceScore == ConfidenceScore(r.value.scoreComponents.value)
      && r.value.actionSummary == ActionSummaryOf(r.value.acceleratorAmount, MonthlySip(form.value), months)
  {
    if form.None? || results.None? then None
    else
      var f, res := form.value, results.value;
      var monthlySIP := MonthlySip(f);
      var yearsToRetirement := YearsToRetirement(f);
      var requiredCorpus := RequiredCorpus(res);
      if yearsToRetirement <= 0 || requiredCorpus <= 0.0 then
        Some(Accelerator(monthlySIP, 0, 100, Strong, AlreadyAligned, monthlySIP, yearsToRetirement, None))
      else
        var monthsToRetirement := yearsToRetirement * 12;
        var requiredMonthlySIP := RequiredMonthlySip(requiredCorpus, monthlyRate, monthsToRetirement);
        var acceleratorAmount := Max(0.0, Round(requiredMonthlySIP - monthlySIP) as real).Floor;
        var components := ScoreComponents(
          CorpusScore(ExpectedCorpus(res), requiredCorpus),
          TimeBufferScore(yearsToRetirement),
          ReturnScore(ExpectedReturns(f) - InflationRate(f)),
          SipAdequacyScore(acceleratorAmount, monthlySIP),
          InflationAwarenessScore(InflationRate(f)));
        var confidenceScore := ConfidenceScore(components);
        Some(Accelerator(
          Round(requiredMonthlySIP) as real, acceleratorAmount, confidenceScore, LabelOf(confidenceScore),
          ActionSummaryOf(acceleratorAmount, monthlySIP, monthsToRetirement),
          monthlySIP, yearsToRetirement, Some(components)))
  }

  /** Before rounding, the SIP the accelerator asks for grows to exactly the
      required corpus: the inversion is undone by the future-value formula. */
  lemma RequiredSipReachesCorpus(requiredCorpus: real, monthlyRate: real, months: nat)
    requires requiredCorpus > 0.0 && -1.0 < monthlyRate && monthlyRate != 0.0 && months >= 1
    ensures RequiredMonthlySip(requiredCorpus, monthlyRate, months) > 0.0
    ensures Annuity.FutureValue(RequiredMonthlySip(requiredCorpus, monthlyRate, months), monthlyRate, months) == requiredCorpus
  {
    var fv := Annuity.FutureValueFactor(monthlyRate, months);
    assert fv > 0.0;
    assert requiredCorpus / fv > 0.0;
    Annuity.InversionReachesTarget(requiredCorpus, monthlyRate, months);
  }
}
