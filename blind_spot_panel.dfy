/** The blind-spot panel: the state behind the "Run Analysis" button, the
    severity badge of each card, the age formatting, and the summary counts
    and message over the analyzer's spots. */
module BlindSpotPanel {
  import opened JsValues
  import opened BlindSpots

  // ---------------------------------------------------------------------
  // Severity badges

  datatype Badge = Badge(badgeClass: string, icon: string, badgeLabel: string)

  const EmeraldBadge: string := "bg-emerald-100 text-emerald-800 border-emerald-200"
  const RedBadge: string := "bg-red-100 text-red-800 border-red-200"
  const AmberBadge: string := "bg-amber-100 text-amber-800 border-amber-200"
  const SlateBadge: string := "bg-slate-100 text-slate-800 border-slate-200"
  const CheckIcon: string := "\U{2713}"
  const WarningIcon: string := "\U{26A0}"
  const InfoIcon: string := "\U{2139}"

  /** getSeverityStyles: a resolved spot shows 'Resolved' whatever its
      severity; otherwise each of the three severity strings has its own
      badge, and any other string is shown as 'Review'. */
  function SeverityBadge(severity: string, isResolved: bool): (b: Badge)
    ensures isResolved ==> b == Badge(EmeraldBadge, CheckIcon, "Resolved")
    ensures !isResolved && severity == "at-risk" ==> b.badgeLabel == "At Risk" && b.badgeClass == RedBadge
    ensures !isResolved && severity == "needs-attention" ==> b.badgeLabel == "Needs Attention" && b.badgeClass == AmberBadge
    ensures !isResolved && severity == "on-track" ==> b.badgeLabel == "On Track" && b.badgeClass == EmeraldBadge
    ensures !isResolved && severity !in {"at-risk", "needs-attention", "on-track"} ==> b == Badge(SlateBadge, InfoIcon, "Review")
  {
    if isResolved then Badge(EmeraldBadge, CheckIcon, "Resolved")
    else if severity == "at-risk" then Badge(RedBadge, WarningIcon, "At Risk")
    else if severity == "needs-attention" then Badge(AmberBadge, InfoIcon, "Needs Attention")
    else if severity == "on-track" then Badge(EmeraldBadge, CheckIcon, "On Track")
    else Badge(SlateBadge, InfoIcon, "Review")
  }

  /** A spot from the analyzer is badged 'Resolved' exactly when it is on
      track, and otherwise with the analyzer's own severity label. */
  lemma AnalyzerSpotBadge(s: BlindSpot)
    requires s.isResolved <==> s.severity == OnTrack
    requires s.severityLabel == SeverityLabel(s.severity)
    ensures var b := SeverityBadge(SeverityName(s.severity), s.isResolved);
      (b.badgeLabel == "Resolved" <==> s.severity == OnTrack) && (s.severity != OnTrack ==> b.badgeLabel == s.severityLabel)
  {
  }

  // ---------------------------------------------------------------------
  // Age formatting

  /** How an age value is shown: a dash, a string as it is, or 'N years'. */
  datatype AgeDisplay = Dash | Verbatim(text: string) | Years(age: real)

  /** formatAge: null or missing shows a dash, strings (such as 'Never') pass
      through unchanged, numbers are shown as years. */
  function FormatAge(v: Value): (d: AgeDisplay)
    ensures IsNullish(v) <==> d == Dash
    ensures v.Str? ==> d == Verbatim(v.s)
    ensures v.Num? ==> d == Years(v.x)
  {
    match v
    case Undefined => Dash
    case Null => Dash
    case Str(s) => Verbatim(s)
    case Num(x) => Years(x)
  }

  // ---------------------------------------------------------------------
  // The analysis summary

  /** The number of resolved spots. */
  function CountResolved(spots: seq<BlindSpot>): (n: nat)
    ensures n <= |spots|
    ensures n == |spots| <==> forall k :: 0 <= k < |spots| ==> spots[k].isResolved
  {
    if |spots| == 0 then 0
    else CountResolved(spots[..|spots| - 1]) + (if spots[|spots| - 1].isResolved then 1 else 0)
  }

  /** The number of spots with the given severity. */
  function CountSeverity(spots: seq<BlindSpot>, severity: Severity): (n: nat)
    ensures n <= |spots|
    ensures n == 0 <==> forall k :: 0 <= k < |spots| ==> spots[k].severity != severity
  {
    if |spots| == 0 then 0
    else CountSeverity(spots[..|spots| - 1], severity) + (if spots[|spots| - 1].severity == severity then 1 else 0)
  }

  predicate ResolvedMeansOnTrack(spots: seq<BlindSpot>) {
    forall k :: 0 <= k < |spots| ==> (spots[k].isResolved <==> spots[k].severity == OnTrack)
  }

  /** When resolved means on track, the resolved count is the on-track count,
      and it is disjoint from the at-risk count. */
  lemma {:induction false} ResolvedCountIsOnTrackCount(spots: seq<BlindSpot>)
    requires ResolvedMeansOnTrack(spots)
    ensures CountResolved(spots) == CountSeverity(spots, OnTrack)
    ensures CountResolved(spots) + CountSeverity(spots, AtRisk) <= |spots|
  {
    if |spots| > 0 {
      assert ResolvedMeansOnTrack(spots[..|spots| - 1]) by {
        forall k | 0 <= k < |spots| - 1
          ensures spots[..|spots| - 1][k] == spots[k]
        {
        }
      }
      ResolvedCountIsOnTrackCount(spots[..|spots| - 1]);
    }
  }

  /** The analyzer's five spots satisfy the resolved/on-track agreement. */
  lemma AnalyzerResolvedMeansOnTrack(form: Option<FormData>, results: Option<Results>)
    requires BlindSpotsOf(form, results).Some?
    ensures ResolvedMeansOnTrack(BlindSpotsOf(form, results).value)
  {
    BlindSpotsEnriched(form, results);
  }

  datatype SummaryMessage = AllOnTrack | ImmediateAttention(atRisk: nat) | ReviewConsiderations

  /** getSummaryMessage: all resolved first, then any at-risk spot, then the
      generic review message. The colour follows the same three branches. */
  function SummaryOf(spots: seq<BlindSpot>): (m: SummaryMessage)
    ensures m == AllOnTrack <==> forall k :: 0 <= k < |spots| ==> spots[k].isResolved
    ensures m.ImmediateAttention? ==> m.atRisk == CountSeverity(spots, AtRisk) > 0
    ensures m == ReviewConsiderations ==>
      (exists k :: 0 <= k < |spots| && !spots[k].isResolved) && (forall k :: 0 <= k < |spots| ==> spots[k].severity != AtRisk)
  {
    var total, resolved, atRisk := |spots|, CountResolved(spots), CountSeverity(spots, AtRisk);
    if resolved == total then AllOnTrack
    else if atRisk > 0 then ImmediateAttention(atRisk)
    else ReviewConsiderations
  }

  function SummaryColor(m: SummaryMessage): string {
    match m
    case AllOnTrack => "text-emerald-700 bg-emerald-100 border-emerald-200"
    case ImmediateAttention(_) => "text-amber-700 bg-amber-100 border-amber-200"
    case ReviewConsiderations => "text-blue-700 bg-blue-100 border-blue-200"
  }

  const AllOnTrackText: string := "All areas appear on track under current assumptions."
  const ReviewText: string := "Review these considerations to strengthen your retirement plan."

  /** The summary sentence, with 'area'/'areas' and 'needs'/'need' agreeing
      with the count. */
  function SummaryText(m: SummaryMessage): string {
    match m
    case AllOnTrack => AllOnTrackText
    case ImmediateAttention(n) => NatToString(n) + AttentionTail(n)
    case ReviewConsiderations => ReviewText
  }

  /** The words after the count: 'area' takes an s above one, 'need' takes
      an s at exactly one. */
  function AttentionTail(n: nat): string {
    " area" + (if n > 1 then "s" else "") + " need" + (if n == 1 then "s" else "") + " immediate attention."
  }

  /** One at-risk area takes the singular. */
  lemma SingularAttentionTail()
    ensures AttentionTail(1) == " area needs immediate attention."
  {
  }

  /** More than one takes the plural. */
  lemma PluralAttentionTail(n: nat)
    requires n > 1
    ensures AttentionTail(n) == " areas need immediate attention."
  {
  }

  // ---------------------------------------------------------------------
  // The panel state and runAnalysis

  const NoFormDataError: string := "Please complete the retirement calculator first."
  const AnalysisFailedError: string := "Analysis failed. Please check your calculator inputs and try again."

  /** hasValidData: the button is enabled once the three ages/expenses are
      present (inflationRate is not checked). */
  predicate HasValidData(form: Option<FormData>) {
    form.Some? && form.value.currentAge.Some? && form.value.retirementAge.Some? && form.value.monthlyExpenses.Some?
  }

  /** The button's validity check is weaker than the analyzer's: valid data
      with no inflation rate still yields no spots. */
  lemma ValidDataWithoutInflationFails(form: Option<FormData>, results: Option<Results>)
    requires HasValidData(form) && form.value.inflationRate.None?
    ensures BlindSpotsOf(form, results).None?
  {
  }

  class Panel {
    var blindSpots: Option<seq<BlindSpot>>
    var running: bool
    var error: Option<string>
    var resolvedCount: nat

    constructor()
      ensures blindSpots.None? && !running && error.None? && resolvedCount == 0
    {
      blindSpots := None;
      running := false;
      error := None;
      resolvedCount := 0;
    }

    /** The effect on a change of results: the old analysis is discarded. */
    method OnResultsChanged()
      modifies this
      ensures blindSpots.None? && error.None?
      ensures running == old(running) && resolvedCount == old(resolvedCount)
    {
      blindSpots := None;
      error := None;
    }

    /** The effect on a change of spots: the resolved count follows a present
        spot list and is kept when the list is cleared. */
    method OnBlindSpotsChanged()
      modifies this
      ensures blindSpots.Some? ==> resolvedCount == CountResolved(blindSpots.value)
      ensures blindSpots.None? ==> resolvedCount == old(resolvedCount)
      ensures blindSpots == old(blindSpots) && running == old(running) && error == old(error)
    {
      if blindSpots.Some? {
        resolvedCount := CountResolved(blindSpots.value);
      }
    }

    /** runAnalysis. Without form data only the error is set. Otherwise the
        results are reused or, when absent, taken from `calculated` (the
        calculator's own recomputation); a missing computation or a null
        analyzer result becomes the failure message and never a spot list,
        and the run always ends with `running` false. */
    method RunAnalysis(form: Option<FormData>, results: Option<Results>, calculated: Option<Results>)
      modifies this
      ensures form.None? ==>
        error == Some(NoFormDataError) && blindSpots == old(blindSpots) && running == old(running)
      ensures form.Some? ==>
        var computed := if results.Some? then results else calculated;
        var spots := BlindSpotsOf(form, computed);
        && !running
        && (spots.None? ==> error == Some(AnalysisFailedError) && blindSpots == old(blindSpots))
        && (spots.Some? ==> error.None? && blindSpots == spots)
      ensures resolvedCount == old(resolvedCount)
    {
      if form.None? {
        error := Some(NoFormDataError);
        return;
      }
      running := true;
      error := None;
      var computed := if results.Some? then results else calculated;
      if computed.None? {
        error := Some(AnalysisFailedError);
      } else {
        var spots := ComputeBlindSpots(form, computed);
        if spots.None? {
          error := Some(AnalysisFailedError);
        } else {
          blindSpots := spots;
        }
      }
      running := false;
    }
  }
}
