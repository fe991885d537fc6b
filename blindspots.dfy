/** The blind-spot analyzer: five fixed risk spots built from the calculator's
    inputs and results, each graded at-risk / needs-attention / on-track by
    ordered threshold rules and then enriched from fixed lookup tables. */
module BlindSpots {
  import opened JsValues
  import Calculations

  datatype Severity = AtRisk | NeedsAttention | OnTrack

  /** Worst to best: at-risk < needs-attention < on-track. */
  function Rank(s: Severity): nat {
    match s
    case AtRisk => 0
    case NeedsAttention => 1
    case OnTrack => 2
  }

  /** The string stored in `spot.severity`. */
  function SeverityName(s: Severity): string {
    match s
    case AtRisk => "at-risk"
    case NeedsAttention => "needs-attention"
    case OnTrack => "on-track"
  }

  /** The severity label table applied to every spot. */
  function SeverityLabel(s: Severity): string {
    match s
    case AtRisk => "At Risk"
    case NeedsAttention => "Needs Attention"
    case OnTrack => "On Track"
  }

  /** The spot ids. The analyzer builds only the first five; any other id
      reaches the default branches of the severity and text tables. */
  datatype SpotId = RetirementTimeline | CorpusGap | Sustainability | SipAdequacy | InflationLifestyle | Other(name: string)

  /** The id string stored in `spot.id`. */
  function IdString(id: SpotId): string {
    match id
    case RetirementTimeline => "retirement-timeline"
    case CorpusGap => "corpus-gap"
    case Sustainability => "sustainability"
    case SipAdequacy => "sip-adequacy"
    case InflationLifestyle => "inflation-lifestyle"
    case Other(name) => name
  }

  /** The five spot ids, in the order the analyzer returns them. */
  const SpotIds: seq<SpotId> := [RetirementTimeline, CorpusGap, Sustainability, SipAdequacy, InflationLifestyle]

  /** The calculator inputs the analyzer reads; None is a null or missing field. */
  datatype FormData = FormData(
    currentAge: Option<int>,
    retirementAge: Option<int>,
    monthlyExpenses: Option<real>,
    inflationRate: Option<real>,
    monthlySIP: Option<real>)

  /** The calculator results the analyzer reads. The two ages may be numbers or
      sentinel strings such as 'Achieved' and 'Never'. */
  datatype Results = Results(
    expectedCorpus: Option<real>,
    requiredCorpus: Option<real>,
    depletionAge: Value,
    sipGap: Option<real>,
    freedomAge: Value)

  datatype Unit = Currency | Age

  /** Which descriptive message a spot carries, with the figure it shows. */
  datatype Message =
    | SustainableThroughLifespan
    | MayDepleteByAge(freedomAge: Value)
    | Shortfall(amount: int)
    | MeetsRequired
    | FundsLastUntil(depletionAge: Value)
    | SustainabilityUnknown
    | SavingsNotAvailable
    | SavingsMayNeedIncrease(amount: int)
    | SavingsSufficient
    | ExpensesCouldGrowTo(amount: int)

  /** A spot as first built, before its severity is assigned. */
  datatype Draft = Draft(
    id: SpotId,
    title: string,
    value: Value,
    unit: Unit,
    rawValue: Value,
    message: Message,
    impact: string,
    editTargets: seq<string>,
    isResolvable: bool)

  /** A spot after the enrichment pass has added its severity fields. */
  datatype BlindSpot = BlindSpot(
    spot: Draft,
    severity: Severity,
    severityLabel: string,
    resolution: string,
    isResolved: bool)

  // ---------------------------------------------------------------------
  // Rounding

  /** roundThousand on a number: the nearest multiple of 1000. */
  function RoundThousandOf(x: real): (r: int)
    ensures r % 1000 == 0
    ensures x - 500.0 < r as real <= x + 500.0
    ensures x >= 0.0 ==> r >= 0
  {
    var n := Round(x / 1000.0);
    assert (n * 1000) as real == n as real * 1000.0;
    n * 1000
  }

  /** roundThousand: null for anything that is not a number. */
  function RoundThousand(v: Value): (r: Option<int>)
    ensures r.Some? <==> v.Num?
    ensures r.Some? ==> r.value == RoundThousandOf(v.x)
  {
    if v.Num? then Some(RoundThousandOf(v.x)) else None
  }

  // ---------------------------------------------------------------------
  // The five severity rules

  /** retirement-timeline: 'Achieved' or a numeric freedom age at least ten
      years past retirement is on track; any other numeric age below 90 is at
      risk; everything else, non-numeric values included, needs attention. */
  function TimelineSeverity(freedomAge: Value, retirementAge: int): (s: Severity)
    ensures s == OnTrack <==>
      freedomAge == Str("Achieved") || (freedomAge.Num? && freedomAge.x >= retirementAge as real + 10.0)
    ensures s == AtRisk <==>
      freedomAge.Num? && freedomAge.x < retirementAge as real + 10.0 && freedomAge.x < 90.0
  {
    if freedomAge == Str("Achieved") then OnTrack
    else if freedomAge.Num? && freedomAge.x >= retirementAge as real + 10.0 then OnTrack
    else if freedomAge.Num? && freedomAge.x < 90.0 then AtRisk
    else NeedsAttention
  }

  /** A later numeric freedom age never gets a worse grade. */
  lemma TimelineMonotone(a: real, b: real, retirementAge: int)
    requires a <= b
    ensures Rank(TimelineSeverity(Num(a), retirementAge)) <= Rank(TimelineSeverity(Num(b), retirementAge))
  {
  }

  /** corpus-gap, with gap = required - expected: no gap is on track; a gap
      with no positive expected corpus, or above 20% of it, is at risk. */
  function CorpusGapSeverity(expected: real, required: real): (s: Severity)
    ensures s == OnTrack <==> required - expected <= 0.0
    ensures s == AtRisk <==>
      required - expected > 0.0 && (expected <= 0.0 || required - expected > expected / 5.0)
  {
    var gap := required - expected;
    var gapPercentage := if expected > 0.0 then (gap / expected) * 100.0 else 100.0;
    RatioAbove(gap, expected, 0.2);
    if gap <= 0.0 then OnTrack
    else if gapPercentage > 20.0 then AtRisk
    else NeedsAttention
  }

  /** A larger expected corpus never gets a worse grade. */
  lemma CorpusGapMonotone(e1: real, e2: real, required: real)
    requires e1 <= e2
    ensures Rank(CorpusGapSeverity(e1, required)) <= Rank(CorpusGapSeverity(e2, required))
  {
    var s1, s2 := CorpusGapSeverity(e1, required), CorpusGapSeverity(e2, required);
    if s2 == AtRisk && e1 > 0.0 {
      assert required - e2 > e2 / 5.0;
      assert required - e1 > e1 / 5.0;
    }
  }

  /** sustainability: a missing or zero depletion age needs attention; a
      numeric age of 90 or more is on track, below 80 at risk and in between
      needs attention. A non-numeric string such as 'Never' fails both
      comparisons and needs attention. */
  function SustainabilitySeverity(depletionAge: Value): (s: Severity)
    ensures !Truthy(depletionAge) ==> s == NeedsAttention
    ensures depletionAge.Str? ==> s == NeedsAttention
    ensures depletionAge.Num? && depletionAge.x != 0.0 ==>
      (s == OnTrack <==> depletionAge.x >= 90.0) && (s == AtRisk <==> depletionAge.x < 80.0)
  {
    if !Truthy(depletionAge) then NeedsAttention
    else if AtLeast(depletionAge, 90.0) then OnTrack
    else if LessThan(depletionAge, 80.0) then AtRisk
    else NeedsAttention
  }

  /** The engine's 'Never' is graded needs-attention, not on-track. */
  lemma NeverDepletingNeedsAttention()
    ensures SustainabilitySeverity(Str("Never")) == NeedsAttention
  {
  }

  /** A later non-zero numeric depletion age never gets a worse grade. */
  lemma SustainabilityMonotone(a: real, b: real)
    requires a <= b && a != 0.0 && b != 0.0
    ensures Rank(SustainabilitySeverity(Num(a))) <= Rank(SustainabilitySeverity(Num(b)))
  {
  }

  /** sip-adequacy: a null gap needs attention; no gap is on track; a gap with
      no positive SIP, or above half the SIP, is at risk. */
  function SipAdequacySeverity(sipGap: Option<real>, monthlySIP: real): (s: Severity)
    ensures sipGap.None? ==> s == NeedsAttention
    ensures sipGap.Some? ==> (s == OnTrack <==> sipGap.value <= 0.0)
    ensures sipGap.Some? ==>
      (s == AtRisk <==> sipGap.value > 0.0 && (monthlySIP <= 0.0 || sipGap.value > monthlySIP / 2.0))
  {
    if sipGap.None? then NeedsAttention
    else if sipGap.value <= 0.0 then OnTrack
    else
      var sipGapPercentage := if monthlySIP > 0.0 then (sipGap.value / monthlySIP) * 100.0 else 100.0;
      RatioAbove(sipGap.value, monthlySIP, 0.5);
      if sipGapPercentage > 50.0 then AtRisk else NeedsAttention
  }

  /** A larger SIP gap never gets a better grade. */
  lemma SipAdequacyMonotone(g1: real, g2: real, monthlySIP: real)
    requires g1 <= g2
    ensures Rank(SipAdequacySeverity(Some(g2), monthlySIP)) <= Rank(SipAdequacySeverity(Some(g1), monthlySIP))
  {
  }

  /** inflation-lifestyle: the ratio of projected to current expenses above 3
      is at risk, above 2 needs attention, otherwise on track; with no positive
      current expenses the ratio is taken as 1. */
  function InflationSeverity(currentExpenses: real, projected: real): (s: Severity)
    ensures currentExpenses <= 0.0 ==> s == OnTrack
    ensures currentExpenses > 0.0 ==>
      (s == AtRisk <==> projected > 3.0 * currentExpenses) && (s == OnTrack <==> projected <= 2.0 * currentExpenses)
  {
    var inflationFactor := if currentExpenses > 0.0 then projected / currentExpenses else 1.0;
    RatioAbove(projected, currentExpenses, 3.0);
    RatioAbove(projected, currentExpenses, 2.0);
    if inflationFactor > 3.0 then AtRisk
    else if inflationFactor > 2.0 then NeedsAttention
    else OnTrack
  }

  /** Higher projected expenses never get a better grade. */
  lemma InflationMonotone(current: real, p1: real, p2: real)
    requires p1 <= p2
    ensures Rank(InflationSeverity(current, p2)) <= Rank(InflationSeverity(current, p1))
  {
  }

  /** determineSeverity: dispatch on the spot id. In the analyzer the form
      always carries a retirement age when it is present. */
  function DetermineSeverity(spot: Draft, form: Option<FormData>, results: Option<Results>): (s: Severity)
    requires form.Some? ==> form.value.retirementAge.Some?
    ensures form.None? || results.None? ==> s == NeedsAttention
    ensures spot.id.Other? ==> s == NeedsAttention
  {
    if results.None? || form.None? then NeedsAttention
    else
      var f, r := form.value, results.value;
      if spot.id == RetirementTimeline then TimelineSeverity(r.freedomAge, f.retirementAge.value)
      else if spot.id == CorpusGap then CorpusGapSeverity(r.expectedCorpus.GetOr(0.0), r.requiredCorpus.GetOr(0.0))
      else if spot.id == Sustainability then SustainabilitySeverity(r.depletionAge)
      else if spot.id == SipAdequacy then SipAdequacySeverity(r.sipGap, f.monthlySIP.GetOr(0.0))
      else if spot.id == InflationLifestyle then InflationSeverity(f.monthlyExpenses.GetOr(0.0), NumOrZero(spot.value))
      else NeedsAttention
  }

  // ---------------------------------------------------------------------
  // Lookup tables

  const FallbackResolution: string := "Reviewing and adjusting inputs can help address this consideration."
  const FallbackImpact: string := "This factor influences long-term retirement readiness and deserves regular review."

  const ResolutionRetirementTimelineAtRisk: string := "Consider adjusting your retirement age, increasing monthly contributions, or revisiting expected returns."
  const ResolutionRetirementTimelineNeedsAttention: string := "Small improvements in savings rate or investment horizon can better align your timeline."
  const ResolutionRetirementTimelineOnTrack: string := "Your current timeline appears sustainable under these assumptions."
  const ResolutionCorpusGapAtRisk: string := "This gap can be closed by increasing monthly SIP, extending investment horizon, or revisiting return assumptions."
  const ResolutionCorpusGapNeedsAttention: string := "Minor adjustments to contributions or timeline can help close this gap."
  const ResolutionCorpusGapOnTrack: string := "Your expected corpus meets your retirement needs under current assumptions."
  const ResolutionSustainabilityAtRisk: string := "Consider creating a withdrawal buffer, planning for lower expenses, or adding a post-retirement income stream."
  const ResolutionSustainabilityNeedsAttention: string := "Adding a safety margin to your withdrawal plan can improve sustainability."
  const ResolutionSustainabilityOnTrack: string := "Your withdrawal strategy appears sustainable through retirement."
  const ResolutionSipAdequacyAtRisk: string := "Gradually increasing your monthly SIP or starting earlier can materially improve outcomes."
  const ResolutionSipAdequacyNeedsAttention: string := "Small, regular increases to your SIP can compound significantly over time."
  const ResolutionSipAdequacyOnTrack: string := "Your current SIP appears adequate for your retirement goals."
  const ResolutionInflationLifestyleAtRisk: string := "Plan for conservative inflation assumptions and consider building an inflation-protected income stream."
  const ResolutionInflationLifestyleNeedsAttention: string := "Regularly reviewing and adjusting for inflation helps maintain lifestyle expectations."
  const ResolutionInflationLifestyleOnTrack: string := "Your inflation planning appears aligned with lifestyle expectations."
  const ImpactRetirementTimeline: string := "Delaying retirement affects not just finances, but freedom, health, and quality of life during your most valuable years."
  const ImpactCorpusGap: string := "Even small gaps today can become significant shortfalls over decades, potentially reducing retirement lifestyle choices."
  const ImpactSustainability: string := "Running out of funds later in life creates dependency risk when you have fewer options to recover."
  const ImpactSipAdequacy: string := "Insufficient savings today compounds into large future gaps, making later corrections much more difficult."
  const ImpactInflationLifestyle: string := "Inflation silently erodes purchasing power, meaning today's comfortable expenses may not sustain tomorrow's lifestyle."

  /** generateResolutionText: the (id, severity) table, with a generic fallback. */
  function ResolutionText(id: SpotId, severity: Severity): string
  {
    if id == RetirementTimeline then
      match severity
      case AtRisk => ResolutionRetirementTimelineAtRisk
      case NeedsAttention => ResolutionRetirementTimelineNeedsAttention
      case OnTrack => ResolutionRetirementTimelineOnTrack
    else if id == CorpusGap then
      match severity
      case AtRisk => ResolutionCorpusGapAtRisk
      case NeedsAttention => ResolutionCorpusGapNeedsAttention
      case OnTrack => ResolutionCorpusGapOnTrack
    else if id == Sustainability then
      match severity
      case AtRisk => ResolutionSustainabilityAtRisk
      case NeedsAttention => ResolutionSustainabilityNeedsAttention
      case OnTrack => ResolutionSustainabilityOnTrack
    else if id == SipAdequacy then
      match severity
      case AtRisk => ResolutionSipAdequacyAtRisk
      case NeedsAttention => ResolutionSipAdequacyNeedsAttention
      case OnTrack => ResolutionSipAdequacyOnTrack
    else if id == InflationLifestyle then
      match severity
      case AtRisk => ResolutionInflationLifestyleAtRisk
      case NeedsAttention => ResolutionInflationLifestyleNeedsAttention
      case OnTrack => ResolutionInflationLifestyleOnTrack
    else FallbackResolution
  }

  /** generateImpactText: one fixed text per spot id, with a generic fallback. */
  function ImpactText(id: SpotId): string
  {
    if id == RetirementTimeline then ImpactRetirementTimeline
    else if id == CorpusGap then ImpactCorpusGap
    else if id == Sustainability then ImpactSustainability
    else if id == SipAdequacy then ImpactSipAdequacy
    else if id == InflationLifestyle then ImpactInflationLifestyle
    else FallbackImpact
  }

  /** getEditTargets: the calculator fields a remediation should highlight. */
  function EditTargets(id: SpotId): (t: seq<string>)
    ensures id.Other? <==> |t| == 0
  {
    if id == RetirementTimeline then ["monthlySIP", "retirementAge", "investmentYears"]
    else if id == CorpusGap then ["monthlySIP", "expectedReturns", "sipIncreaseRate"]
    else if id == Sustainability then ["monthlyExpenses", "inflationRate", "retirementReturns"]
    else if id == SipAdequacy then ["monthlySIP", "sipIncreaseRate"]
    else if id == InflationLifestyle then ["inflationRate", "monthlyExpenses"]
    else []
  }

  // ---------------------------------------------------------------------
  // Building and enriching the five spots

  /** The four inputs the analyzer refuses to run without. */
  predicate HasRequiredInputs(f: FormData) {
    f.currentAge.Some? && f.retirementAge.Some? && f.monthlyExpenses.Some? && f.inflationRate.Some?
  }

  /** Monthly expenses inflated over the years left to retirement (none if
      retirement is not ahead). */
  function ProjectedMonthlyExpenses(f: FormData): real
    requires HasRequiredInputs(f)
  {
    var years := f.retirementAge.value - f.currentAge.value;
    var yearsToRetire: nat := if years > 0 then years else 0;
    f.monthlyExpenses.value * Pow(1.0 + f.inflationRate.value / 100.0, yearsToRetire)
  }

  function RetirementTimelineDraft(r: Results): Draft {
    var fa := r.freedomAge;
    Draft(
      RetirementTimeline, "Retirement Timeline Risk",
      if fa.Undefined? then Null else fa, Age, fa,
      if fa == Str("Achieved") || IsNullish(fa) then SustainableThroughLifespan else MayDepleteByAge(fa),
      ImpactText(RetirementTimeline), EditTargets(RetirementTimeline), true)
  }

  function CorpusGapDraft(r: Results): Draft {
    var rawGap := r.requiredCorpus.GetOr(0.0) - r.expectedCorpus.GetOr(0.0);
    var rounded := RoundThousandOf(Abs(rawGap));
    Draft(
      CorpusGap, "Corpus Shortfall Risk",
      Num(rounded as real), Currency, Num(rawGap),
      if rawGap > 0.0 then Shortfall(rounded) else MeetsRequired,
      ImpactText(CorpusGap), EditTargets(CorpusGap), true)
  }

  function SustainabilityDraft(r: Results): Draft {
    var da := r.depletionAge;
    Draft(
      Sustainability, "Sustainability Risk",
      if Truthy(da) then da else Null, Age, da,
      if Truthy(da) then FundsLastUntil(da) else SustainabilityUnknown,
      ImpactText(Sustainability), EditTargets(Sustainability), true)
  }

  function SipAdequacyDraft(r: Results): Draft {
    var g := r.sipGap;
    Draft(
      SipAdequacy, "Savings Adequacy Risk",
      if g.Some? then Num(RoundThousandOf(Abs(g.value)) as real) else Null, Currency,
      if g.Some? then Num(g.value) else Null,
      if g.None? then SavingsNotAvailable
      else if g.value > 0.0 then SavingsMayNeedIncrease(RoundThousandOf(Abs(g.value)))
      else SavingsSufficient,
      ImpactText(SipAdequacy), EditTargets(SipAdequacy), true)
  }

  function InflationLifestyleDraft(f: FormData): Draft
    requires HasRequiredInputs(f)
  {
    var projected := ProjectedMonthlyExpenses(f);
    var rounded := RoundThousandOf(projected);
    Draft(
      InflationLifestyle, "Inflation Risk",
      Num(rounded as real), Currency, Num(projected),
      ExpensesCouldGrowTo(rounded),
      ImpactText(InflationLifestyle), EditTargets(InflationLifestyle), true)
  }

  /** The five spots in the order the analyzer lists them. */
  function Drafts(f: FormData, r: Results): (ds: seq<Draft>)
    requires HasRequiredInputs(f)
    ensures |ds| == 5 && forall k :: 0 <= k < 5 ==> ds[k].id == SpotIds[k]
  {
    [RetirementTimelineDraft(r), CorpusGapDraft(r), SustainabilityDraft(r), SipAdequacyDraft(r), InflationLifestyleDraft(f)]
  }

  /** The fields the enrichment pass adds to one spot. */
  function Enrich(d: Draft, form: Option<FormData>, results: Option<Results>): BlindSpot
    requires form.Some? ==> form.value.retirementAge.Some?
  {
    var severity := DetermineSeverity(d, form, results);
    BlindSpot(d, severity, SeverityLabel(severity), ResolutionText(d.id, severity), severity == OnTrack)
  }

  /** What computeBlindSpots returns: null when the form, the results or one of
      the four required inputs is missing, the five enriched spots otherwise. */
  function BlindSpotsOf(form: Option<FormData>, results: Option<Results>): (r: Option<seq<BlindSpot>>)
    ensures r.None? <==> form.None? || results.None? || !HasRequiredInputs(form.value)
    ensures r.Some? ==> |r.value| == 5
  {
    if results.None? || form.None? || !HasRequiredInputs(form.value) then None
    else
      var ds := Drafts(form.value, results.value);
      Some(seq(5, k requires 0 <= k < 5 => Enrich(ds[k], form, results)))
  }

  method ComputeBlindSpots(form: Option<FormData>, results: Option<Results>) returns (r: Option<seq<BlindSpot>>)
    ensures r == BlindSpotsOf(form, results)
  {
    if results.None? || form.None? {
      return None;
    }
    var f := form.value;
    if f.currentAge.None? || f.retirementAge.None? || f.monthlyExpenses.None? || f.inflationRate.None? {
      return None;
    }
    var spots := Drafts(f, results.value);
    var enriched: seq<BlindSpot> := [];
    for i := 0 to |spots|
      invariant |enriched| == i
      invariant forall k :: 0 <= k < i ==> enriched[k] == Enrich(spots[k], form, results)
    {
      var severity := DetermineSeverity(spots[i], form, results);
      enriched := enriched + [BlindSpot(spots[i], severity, SeverityLabel(severity),
                                        ResolutionText(spots[i].id, severity), severity == OnTrack)];
    }
    ghost var expected := BlindSpotsOf(form, results).value;
    assert forall k :: 0 <= k < 5 ==> enriched[k] == expected[k];
    assert enriched == expected;
    r := Some(enriched);
  }

  /** Every returned spot is in the fixed order, resolved exactly when on
      track, labelled after its severity, and carries the table entries for
      its id and severity. */
  lemma BlindSpotsEnriched(form: Option<FormData>, results: Option<Results>)
    requires BlindSpotsOf(form, results).Some?
    ensures var s := BlindSpotsOf(form, results).value;
      forall k :: 0 <= k < 5 ==>
        && s[k].spot.id == SpotIds[k]
        && (s[k].isResolved <==> s[k].severity == OnTrack)
        && s[k].severityLabel == SeverityLabel(s[k].severity)
        && s[k].resolution == ResolutionText(SpotIds[k], s[k].severity)
        && s[k].spot.editTargets == EditTargets(SpotIds[k])
        && s[k].spot.impact == ImpactText(SpotIds[k])
  {
    var ds := Drafts(form.value, results.value);
    forall k | 0 <= k < 5
      ensures ds[k].editTargets == EditTargets(SpotIds[k]) && ds[k].impact == ImpactText(SpotIds[k])
    {
    }
  }

  /** Each spot is graded by its own rule, applied to the inputs and results. */
  lemma BlindSpotsSeverities(form: Option<FormData>, results: Option<Results>)
    requires BlindSpotsOf(form, results).Some?
    ensures var s := BlindSpotsOf(form, results).value;
      var f, r := form.value, results.value;
      && s[0].severity == TimelineSeverity(r.freedomAge, f.retirementAge.value)
      && s[1].severity == CorpusGapSeverity(r.expectedCorpus.GetOr(0.0), r.requiredCorpus.GetOr(0.0))
      && s[2].severity == SustainabilitySeverity(r.depletionAge)
      && s[3].severity == SipAdequacySeverity(r.sipGap, f.monthlySIP.GetOr(0.0))
      && s[4].severity == InflationSeverity(f.monthlyExpenses.value, RoundThousandOf(ProjectedMonthlyExpenses(f)) as real)
  {
  }

  /** The corpus-gap figure is the absolute gap rounded to a non-negative
      multiple of 1000 within 500 of it. */
  lemma CorpusGapValue(form: Option<FormData>, results: Option<Results>)
    requires BlindSpotsOf(form, results).Some?
    ensures var v := BlindSpotsOf(form, results).value[1].spot.value;
      var r := results.value;
      var gap := Abs(r.requiredCorpus.GetOr(0.0) - r.expectedCorpus.GetOr(0.0));
      && v == Num(RoundThousandOf(gap) as real)
      && RoundThousandOf(gap) % 1000 == 0
      && v.x >= 0.0 && gap - 500.0 < v.x <= gap + 500.0
  {
  }

  /** The inflation-lifestyle figure is the projected monthly expense at
      retirement, rounded to the nearest thousand. */
  lemma InflationValue(form: Option<FormData>, results: Option<Results>)
    requires BlindSpotsOf(form, results).Some?
    ensures var v := BlindSpotsOf(form, results).value[4].spot.value;
      var projected := ProjectedMonthlyExpenses(form.value);
      && v == Num(RoundThousandOf(projected) as real)
      && RoundThousandOf(projected) % 1000 == 0
      && projected - 500.0 < v.x <= projected + 500.0
  {
  }

  /** A zero SIP gap puts sip-adequacy on track and marks it resolved. */
  lemma ZeroSipGapResolved(form: Option<FormData>, results: Option<Results>)
    requires BlindSpotsOf(form, results).Some? && results.value.sipGap == Some(0.0)
    ensures BlindSpotsOf(form, results).value[3].severity == OnTrack
    ensures BlindSpotsOf(form, results).value[3].isResolved
  {
  }

  /** How the engine's depletion result reaches this analyzer: a number, or
      the string 'Never'. */
  function DepletionValue(d: Calculations.Depletion): (v: Value)
    ensures d.Never? <==> v == Str("Never")
  {
    match d
    case DepletedAt(age) => Num(age as real)
    case Never => Str("Never")
  }
}
