# Vinca Wealth retirement core, modelled in Dafny

Vinca Wealth is a retirement-planning calculator. This project models its
deterministic core and proves properties of it:

- **The corpus projection engine.** A year-by-year accumulation phase
  (contribute, then grow, then step up the SIP), a withdrawal phase (withdraw,
  grow only a positive remainder, step up the withdrawal, stop after the first
  year that runs dry), the depletion age, and the simplified SIP-gap rule.
- **The analyzers built on the engine's results.** The five-spot blind-spot
  analyzer and its panel, the SIP accelerator and its confidence score, the
  aggressive early-retirement scenarios, and the dashboard's readiness score.
- **The presentation logic that decides something.** The status banner's
  branch, the corpus table's pagination, the insurance checklist, the asset
  leaderboard's sort and state machine, the overview reductions, the
  suitability tiers and badges, the health stress projection, the medical
  inflation series, and the form's input field (its `parseFloat` reading and
  its bounded increment/decrement).

There is one Dafny module per source file, plus `JsValues`. `JsValues` holds
the shared vocabulary:

- `Value` stands for JavaScript's dynamic values: missing, null, a number or
  a string.
- `Option` is an optional value.
- `Round` is `Math.round`.
- `Pow` is `Math.pow` with a whole exponent.

Money and rates are `real`. Code that runs a loop or keeps component state
is modelled as imperative Dafny:

- Loops become methods proved against specification functions, for example
  `Calculations.CalculateSipGrowth` and `HealthStress.ProjectCorpus`.
- Component state becomes a class whose handlers are methods, for example
  `CorpusTable.Pager` and `AssetLeaderboard.Leaderboard`.

The leaderboard sort is an insertion sort in place on an array. It is proved
to return a permutation sorted by the chosen column. Pure rules are functions
with lemmas beside them.

Calls the core makes but that cannot be modelled become parameters:

- The fractional power `(1 + r/100)^(1/12) - 1` is passed in as `monthlyRate`.
- `Math.random` draws are passed in as `Draws`.
- The current year is passed in as `currentYear`.
- The depletion age comes from the health engine, which is not part of this
  model. It is passed in as `depletionAge`.
- The calculator's recomputation in the blind-spot panel is passed in as
  `calculated`.

## Model

| member | source | states |
|---|---|---|
| Calculations.CalculateSipGrowth | src/lib/calculations.js:1-36 | The loop returns one row per year 1..years, and none when years is not positive. Row k is the contribute-then-grow recurrence's year k+1, with year k+1 and age year + 29 whatever the inputs. |
| Calculations.AnnualContributionClosedForm | src/lib/calculations.js:10-20 | Year k+1 contributes the first year's 12·monthlySIP stepped up k times by 1 + sipIncreaseRate/100. |
| Calculations.SipRowStartingCorpus | src/lib/calculations.js:20-26 | A row's startingCorpus is its ending corpus less that year's contribution, so it is computed after growth. Its monthlySIP is the already stepped-up contribution over 12. |
| Calculations.SipRowTotalInvested | src/lib/calculations.js:30 | totalInvested is initialInvestment + year·12·monthlySIP, which ignores the step-up. |
| Calculations.AnnualContributionNonNegative | src/lib/calculations.js:10-20 | With monthlySIP ≥ 0 and a step-up of at least -100%, no year's contribution is negative. |
| Calculations.CorpusMonotone | src/lib/calculations.js:14-20 | With non-negative money, a non-negative return and a step-up of at least -100%, the corpus never falls from year to year and never drops below the initial investment. |
| Calculations.CorpusZero | src/lib/calculations.js:9-17 | No initial investment and no SIP keep the corpus at zero in every year. |
| Calculations.ExpectedCorpusOfRun | src/lib/calculations.js:38-40 | The corpus at retirement is the corpus after the last simulated year. With no years it is 0, not the initial investment. |
| Calculations.CalculateWithdrawalPhase | src/lib/calculations.js:42-86 | Each year withdraws 12 months, grows only a positive remainder, and steps the withdrawal up by the larger of inflation and withdrawalIncrease. There are at most lifespan − currentAge rows, every year but the last leaves a positive corpus, and the loop stops right after the first year that does not. |
| Calculations.WithdrawalRowsShape | src/lib/calculations.js:56-82 | Every withdrawal row reports a non-negative ending corpus and the age currentAge + k + 1. Every row before the last has a positive ending corpus. |
| Calculations.DepletionAgeIsFirstDepletion | src/lib/calculations.js:88-91 | The reported depletion age is the first withdrawal year within the horizon whose corpus is not positive. It is 'Never' when there is no such year, including for an empty run. |
| Calculations.CalculateSipGap | src/lib/calculations.js:93-96 | The gap is never negative. It is zero exactly when the current SIP covers 300·expenses/years; otherwise gap + SIP equals that requirement. |
| Calculations.SipGapAntitone | src/lib/calculations.js:93-96 | A larger current SIP never increases the gap, and the return argument has no effect. |
| Annuity.FutureValueFactor | src/components/SIPAccelerator.jsx:43 | The future-value-of-annuity factor is positive for a monthly rate above -1 and at least one month. |
| Annuity.InversionReachesTarget | src/components/SIPAccelerator.jsx:43-44 | Paying target/factor every month accumulates exactly the target. |
| SipAccelerator.CorpusScore | src/components/SIPAccelerator.jsx:53-54 | The score is in [0, 100] and is 0 when the expected corpus is not positive. It reaches 100 exactly when expected/required rounds to 100% or more. |
| SipAccelerator.CorpusScoreMonotone | src/components/SIPAccelerator.jsx:53-54 | A larger expected corpus never lowers the corpus score. |
| SipAccelerator.TimeBufferScore | src/components/SIPAccelerator.jsx:57-59 | The score is in [30, 100]. It is 100 exactly from 30 years and 30 exactly below 10 years. |
| SipAccelerator.TimeBufferMonotone | src/components/SIPAccelerator.jsx:57-59 | More years to retirement never lower the time score. |
| SipAccelerator.ReturnScore | src/components/SIPAccelerator.jsx:62-66 | The score is in [20, 100]. It is 100 exactly for a real return of 8 or more and 20 exactly below 2. |
| SipAccelerator.ReturnScoreMonotone | src/components/SIPAccelerator.jsx:62-66 | A higher real return never lowers the return score. |
| SipAccelerator.SipAdequacyScore | src/components/SIPAccelerator.jsx:69-72 | The score is in [30, 100] and is 100 exactly when no accelerator is needed. A positive accelerator over a zero SIP gives 30. |
| SipAccelerator.SipAdequacyAntitone | src/components/SIPAccelerator.jsx:69-72 | For a positive SIP, a larger accelerator never raises the adequacy score. |
| SipAccelerator.InflationAwarenessScore | src/components/SIPAccelerator.jsx:75 | The score is 100 exactly when a positive inflation rate is assumed, and 50 otherwise. |
| SipAccelerator.ConfidenceScore | src/components/SIPAccelerator.jsx:78-87 | The clamped, rounded weighted sum lies in [0, 100]. |
| SipAccelerator.ClampUnneeded | src/components/SIPAccelerator.jsx:78-87 | The weights sum to 1, so with every component in [0, 100] the rounded sum is already in range and the clamp changes nothing. |
| SipAccelerator.LabelOf | src/components/SIPAccelerator.jsx:90-92 | The label is Strong exactly from 75 and Low exactly below 50. |
| SipAccelerator.LabelMonotone | src/components/SIPAccelerator.jsx:90-92 | A higher confidence score never gets a lower label. |
| SipAccelerator.JsRemainder | src/components/SIPAccelerator.jsx:101 | JavaScript `%`: on a non-negative dividend it is Dafny's remainder, and on a negative one the result lies in (-b, 0]. |
| SipAccelerator.ActionSummaryOf | src/components/SIPAccelerator.jsx:95-110 | 'Sufficient' is chosen exactly when no accelerator is needed. Otherwise the years and months named recombine into the months impact, and a years-and-months sentence names 1 to 11 months. A zero SIP gives the unbounded case. |
| SipAccelerator.ComputeSipAccelerator | src/components/SIPAccelerator.jsx:7-128 | The result is null exactly when the form or the results are missing. The early return gives accelerator 0, score 100 and 'Strong'. Otherwise: the required SIP is the rounded annuity inversion; the accelerator is the rounded shortfall floored at 0, which is 0 exactly when the shortfall is below 0.5; the five components are the corpus, time, real-return, adequacy and inflation sub-scores of the inputs; the confidence score is the clamped weighted sum of those components; and the label and action summary follow the score and the accelerator. |
| SipAccelerator.RequiredSipReachesCorpus | src/components/SIPAccelerator.jsx:40-44 | Before rounding, the required SIP is positive and grows to exactly the required corpus. |
| AggressiveScenarios.ScenarioFor | src/app/dashboard/financial-readiness/page.js:35-65 | A kept target has yearsToTarget = target − currentAge ≥ 5. Its required SIP is the rounded SIP that closes the savings gap to the inflated 25-year corpus, and its required income is that SIP + expenses + 20000. The current income is today's, and incomeGap = requiredIncome − income. It is realistic exactly when requiredIncome ≤ 1.3·income, and its message asks for additional income exactly when it is not realistic. The additional-income message carries the income gap. The income-growth message carries Round((requiredIncome/income − 1)·100), or no number when income is 0. |
| AggressiveScenarios.CalculateAggressiveScenarios | src/app/dashboard/financial-readiness/page.js:20-69 | The loop over the ladder returns the scenarios of the kept rungs, in ladder order. |
| AggressiveScenarios.ScenariosOverKept | src/app/dashboard/financial-readiness/page.js:34-38 | There are no more scenarios than rungs. Each one is a kept rung at least five years ahead, and a ladder with no kept rung gives none. |
| AggressiveScenarios.ScenariosOverDescending | src/app/dashboard/financial-readiness/page.js:31-34 | Over a strictly decreasing ladder the targets come out strictly decreasing. |
| AggressiveScenarios.ScenariosOverComplete | src/app/dashboard/financial-readiness/page.js:34-38 | Every kept rung yields a scenario. |
| AggressiveScenarios.LadderScenarios | src/app/dashboard/financial-readiness/page.js:31-38 | On 55, 50, 45, 40, 35 there are at most five scenarios, latest target first. A target appears exactly when it is at least five years ahead. |
| AggressiveScenarios.NoScenariosAfterFifty | src/app/dashboard/financial-readiness/page.js:35-38 | Someone older than 50 gets no scenario. |
| AggressiveScenarios.SipClosesTheGap | src/app/dashboard/financial-readiness/page.js:41-48 | Before rounding, the SIP's future value plus the savings is exactly the inflated 25-year corpus. |
| AggressiveScenarios.SavingsAboveTargetGiveNonPositiveSip | src/app/dashboard/financial-readiness/page.js:48 | The SIP is not clamped: savings above the required corpus give a required SIP of zero or less. |
| Readiness.SipComponent | src/app/dashboard/page.js:24-25 | The SIP component never exceeds 25. |
| Readiness.SavingsComponent | src/app/dashboard/page.js:28-29 | The savings component never exceeds 25. |
| Readiness.YearsComponent | src/app/dashboard/page.js:32-33 | The years component never exceeds 25, and is full exactly from 30 years to retirement. |
| Readiness.ReturnGapComponent | src/app/dashboard/page.js:36-37 | The return-gap component never exceeds 25, and is full exactly from a 6-point gap. |
| Readiness.ReadinessTotal | src/app/dashboard/page.js:24-39 | The sum of the four components never exceeds 100. |
| Readiness.ComputeReadinessScore | src/app/dashboard/page.js:18-41 | The score is the rounded sum of the four capped components and is at most 100. |
| Readiness.SipComponentFull | src/app/dashboard/page.js:24-25 | The SIP component is full exactly when the SIP is at least 20% of expenses. |
| Readiness.SavingsComponentFull | src/app/dashboard/page.js:28-29 | The savings component is full exactly when savings cover 12 years of expenses. |
| Readiness.ScoreMonotoneInSip | src/app/dashboard/page.js:24-39 | A larger SIP never lowers the score. |
| Readiness.ScoreCanBeNegative | src/app/dashboard/page.js:32-39 | Only an upper cap is applied, so a past retirement age and a negative return gap produce a score of -50. |
| Readiness.ReadinessLevelOf | src/app/dashboard/page.js:43-47 | The level is Excellent exactly from 80 and Needs Work exactly below 60. |
| Readiness.ReadinessLevelMonotone | src/app/dashboard/page.js:43-47 | A higher score never gets a lower level. |
| Readiness.Dashboard.constructor | src/app/dashboard/page.js:16 | The readiness score starts at 0. |
| Readiness.Dashboard.OnFormData | src/app/dashboard/page.js:18-41 | With form data the score becomes the rounded total; without it the score is left as it was. |
| BlindSpots.RoundThousandOf | src/lib/blindspots.js:2-5 | The result is a multiple of 1000 within 500 of the input, and is non-negative for a non-negative input. |
| BlindSpots.RoundThousand | src/lib/blindspots.js:2-5 | The result is null exactly for a non-number; otherwise it is the rounded thousand. |
| BlindSpots.TimelineSeverity | src/lib/blindspots.js:20-30 | On track exactly for 'Achieved' or a numeric age at least ten past the retirement age. At risk exactly for any other numeric age below 90. Everything else, non-numeric values included, needs attention. |
| BlindSpots.TimelineMonotone | src/lib/blindspots.js:20-30 | A later numeric freedom age never gets a worse grade. |
| BlindSpots.CorpusGapSeverity | src/lib/blindspots.js:32-40 | On track exactly when required − expected ≤ 0. At risk exactly when there is a gap and expected ≤ 0 or the gap exceeds 20% of expected. Needs attention otherwise. |
| BlindSpots.CorpusGapMonotone | src/lib/blindspots.js:32-40 | A larger expected corpus never gets a worse grade. |
| BlindSpots.SustainabilitySeverity | src/lib/blindspots.js:42-48 | A missing or zero depletion age, or a string, needs attention. A number is on track from 90, at risk below 80, and needs attention in between. |
| BlindSpots.NeverDepletingNeedsAttention | src/lib/blindspots.js:42-48 | The engine's 'Never' is graded needs-attention, not on-track. |
| BlindSpots.SustainabilityMonotone | src/lib/blindspots.js:42-48 | A later non-zero depletion age never gets a worse grade. |
| BlindSpots.SipAdequacySeverity | src/lib/blindspots.js:50-57 | A null gap needs attention, and a gap ≤ 0 is on track. A positive gap is at risk exactly when the SIP is zero or the gap exceeds half of it. |
| BlindSpots.SipAdequacyMonotone | src/lib/blindspots.js:50-57 | A larger SIP gap never gets a better grade. |
| BlindSpots.InflationSeverity | src/lib/blindspots.js:59-65 | Zero current expenses are on track. Otherwise the projected/current ratio is at risk above 3, needs attention above 2, and is on track otherwise. |
| BlindSpots.InflationMonotone | src/lib/blindspots.js:59-65 | Higher projected expenses never get a better grade. |
| BlindSpots.DetermineSeverity | src/lib/blindspots.js:13-70 | Missing form data or results need attention, and so does an unknown spot id. |
| BlindSpots.EditTargets | src/lib/blindspots.js:125-135 | Every known spot id has a non-empty list of fields to highlight, and an unknown id has none. |
| BlindSpots.Drafts | src/lib/blindspots.js:170-253 | Five spots are built, in the order retirement-timeline, corpus-gap, sustainability, sip-adequacy, inflation-lifestyle. |
| BlindSpots.BlindSpotsOf | src/lib/blindspots.js:142-271 | The result is null exactly when the form, the results, or one of currentAge, retirementAge, monthlyExpenses and inflationRate is missing. Otherwise there are five spots. |
| BlindSpots.ComputeBlindSpots | src/lib/blindspots.js:142-271 | The enrichment loop over the five drafts returns the analyzer's result. |
| BlindSpots.BlindSpotsEnriched | src/lib/blindspots.js:253-268 | Every spot keeps the fixed order and is resolved exactly when on track. Its label follows its severity. Its resolution is the `ResolutionText` table entry for its id and severity, or that table's fallback (blindspots.js:75-104). Its impact is the `ImpactText` entry for its id (blindspots.js:109-119), and its edit targets come from `EditTargets`. |
| BlindSpots.BlindSpotsSeverities | src/lib/blindspots.js:255-258 | Each spot is graded by its own rule, applied to the inputs and results it reads. |
| BlindSpots.CorpusGapValue | src/lib/blindspots.js:187-193 | The corpus-gap figure is the absolute gap rounded to the nearest thousand: a non-negative multiple of 1000 within 500 of \|required − expected\|. |
| BlindSpots.InflationValue | src/lib/blindspots.js:237-243 | The inflation-lifestyle figure is the monthly expense inflated to retirement, rounded to the nearest thousand: a multiple of 1000 within 500 of it. |
| BlindSpots.ZeroSipGapResolved | src/lib/blindspots.js:50-52 | A zero SIP gap puts sip-adequacy on track and marks it resolved. |
| BlindSpots.DepletionValue | src/lib/calculations.js:88-91 | The engine's depletion result reaches the analyzer as the string 'Never' exactly when it does not deplete. |
| BlindSpotPanel.SeverityBadge | src/components/BlindSpot.jsx:97-132 | Resolved overrides severity and shows 'Resolved'. The three severities map to their fixed labels and colours, and any other string maps to 'Review'. |
| BlindSpotPanel.AnalyzerSpotBadge | src/components/BlindSpot.jsx:97-132 | An analyzer spot shows 'Resolved' exactly when it is on track, and otherwise its severity's label. |
| BlindSpotPanel.FormatAge | src/components/BlindSpot.jsx:90-94 | null or undefined shows a dash, a string shows unchanged, and a number shows as 'N years'. |
| BlindSpotPanel.CountResolved | src/components/BlindSpot.jsx:220-222 | The resolved count is at most the total, and equals it exactly when every spot is resolved. |
| BlindSpotPanel.CountSeverity | src/components/BlindSpot.jsx:220-222 | The count of a severity is at most the total, and is zero exactly when no spot has it. |
| BlindSpotPanel.ResolvedCountIsOnTrackCount | src/components/BlindSpot.jsx:220-222 | When resolved means on track, the resolved count is the on-track count, and resolved + at-risk ≤ total. |
| BlindSpotPanel.AnalyzerResolvedMeansOnTrack | src/lib/blindspots.js:267 | The analyzer's spots are resolved exactly when on track. |
| BlindSpotPanel.SummaryOf | src/components/BlindSpot.jsx:224-234 | 'All on track' is chosen exactly when every spot is resolved. Otherwise any at-risk spot gives the attention message with the at-risk count, and the review message is left for no at-risk spot. The banner's text and colour are `SummaryText` and `SummaryColor` of this message, one fixed colour per message (BlindSpot.jsx:224-234). |
| BlindSpotPanel.SingularAttentionTail | src/components/BlindSpot.jsx:232 | One at-risk area reads 'area needs'. |
| BlindSpotPanel.PluralAttentionTail | src/components/BlindSpot.jsx:232 | More than one reads 'areas need'. |
| BlindSpotPanel.ValidDataWithoutInflationFails | src/components/BlindSpot.jsx:72-75 | The button's check omits inflationRate, so valid data without it makes the analyzer return null. |
| BlindSpotPanel.Panel.constructor | src/components/BlindSpot.jsx:11-14 | No spots, not running, no error, and a resolved count of 0. |
| BlindSpotPanel.Panel.OnResultsChanged | src/components/BlindSpot.jsx:17-20 | New results discard the spots and the error. |
| BlindSpotPanel.Panel.OnBlindSpotsChanged | src/components/BlindSpot.jsx:23-28 | The resolved count follows a present spot list and is kept when there is none. |
| BlindSpotPanel.Panel.RunAnalysis | src/components/BlindSpot.jsx:30-64 | Without form data only the error is set. Otherwise the results are reused or recomputed. A missing computation or a null analyzer result becomes the failure message and never a spot list, and the run ends not running. |
| StatusBanner.FlagsExclusive | src/components/StatusBanner.jsx:4-6 | At most one of achieved, at-risk and critical holds, and for a numeric freedom age exactly one does. |
| StatusBanner.StatusConfig | src/components/StatusBanner.jsx:8-34 | The achievable banner is shown exactly when achieved, and at-risk exactly when at risk. Everything else asks for action. The achieved description falls back to age 60 for a falsy age. |
| StatusBanner.NonNumericAgeAsksForAction | src/components/StatusBanner.jsx:5-33 | Unless achieved, 'Never', a missing age and other non-numeric strings get the action banner. |
| StatusBanner.CriticalMeansAction | src/components/StatusBanner.jsx:6-33 | The critical flag always leads to the action banner. |
| StatusBanner.CorpusGapDisplay | src/components/StatusBanner.jsx:37-66 | The amount shown is \|required − expected\|. It is marked short exactly when required exceeds expected, and surplus otherwise. |
| StatusBanner.Cells | src/components/StatusBanner.jsx:53-82 | The detail rows appear exactly when not achieved and show the expected and required corpus. The freedom-age cell shows the check mark exactly when achieved. |
| CorpusTable.TotalPages | src/components/CorpusTable.jsx:18 | `ceil(n/10)`: zero exactly for no rows, and (t−1)·10 < n ≤ t·10. |
| CorpusTable.PageSlice | src/components/CorpusTable.jsx:19-21 | A page holds at most 10 rows. A page within range holds the rows (p−1)·10 up to min(p·10, n), and at least one of them. Pages past the end are empty. |
| CorpusTable.PagesUpToIsPrefix | src/components/CorpusTable.jsx:19-21 | Pages 1..k read in order are the first min(10k, n) rows. |
| CorpusTable.PagesPartitionData | src/components/CorpusTable.jsx:18-21 | Pages 1..totalPages read in order give back the data. |
| CorpusTable.PreviousPage | src/components/CorpusTable.jsx:106 | Previous never goes below page 1 and moves back by at most one. |
| CorpusTable.NextPage | src/components/CorpusTable.jsx:116 | Next never passes the last page and moves on by at most one. |
| CorpusTable.DisabledExactlyAtTheEnds | src/components/CorpusTable.jsx:105-117 | Previous is disabled exactly on page 1 and Next exactly on the last page. These are the pages where pressing them would change nothing. |
| CorpusTable.Showing | src/components/CorpusTable.jsx:99-102 | The range text appears exactly when there are more than 10 rows. It starts at (p−1)·10 + 1 and spans the rows on the page. |
| CorpusTable.Render | src/components/CorpusTable.jsx:8-21 | Missing or empty data renders the no-data card. Otherwise the current page is shown, with controls exactly when there is more than one page. |
| CorpusTable.FlowCellOf | src/components/CorpusTable.jsx:82-85 | A SIP or SWP cell shows '-' exactly when the amount is not positive. |
| CorpusTable.Pager.constructor | src/components/CorpusTable.jsx:5 | The cursor starts on page 1. |
| CorpusTable.Pager.CurrentRows | src/components/CorpusTable.jsx:19-21 | For non-empty data the current page holds 1 to 10 rows. |
| CorpusTable.Pager.Previous | src/components/CorpusTable.jsx:106 | The cursor moves by the Previous clamp and stays within 1..totalPages. |
| CorpusTable.Pager.Next | src/components/CorpusTable.jsx:116 | The cursor moves by the Next clamp and stays within 1..totalPages. |
| InsuranceChecklist.Toggle | src/components/insuranceChecklist.jsx:19-25 | Length, order, ids, titles and descriptions are kept. An item's tick flips exactly when it carries the id. |
| InsuranceChecklist.ToggleTwiceRestores | src/components/insuranceChecklist.jsx:19-25 | Ticking the same id twice gives back the list. |
| InsuranceChecklist.ToggleUnknownId | src/components/insuranceChecklist.jsx:19-25 | An id no item carries leaves the list unchanged. |
| InsuranceChecklist.CheckedCount | src/components/insuranceChecklist.jsx:37 | The count is at most the length. It is 0 exactly when nothing is ticked and the length exactly when everything is. |
| InsuranceChecklist.ToggleMovesCountByOne | src/components/insuranceChecklist.jsx:19-37 | With distinct ids, ticking a present item moves the count by exactly one, in the direction of its new tick. |
| InsuranceChecklist.Progress | src/components/insuranceChecklist.jsx:38 | Progress lies in [0, 100]. It is 0 exactly when nothing is ticked and 100 exactly when everything is. |
| InsuranceChecklist.DefaultChecklistStartsEmpty | src/components/insuranceChecklist.jsx:5-12 | The default list has six items numbered 1 to 6, nothing ticked, and progress 0. |
| InsuranceChecklist.Checklist.constructor | src/components/insuranceChecklist.jsx:15-17 | It starts with the default list, an empty email and not submitted. |
| InsuranceChecklist.Checklist.CurrentProgress | src/components/insuranceChecklist.jsx:37-38 | The progress shown lies in [0, 100]. |
| InsuranceChecklist.Checklist.HandleCheck | src/components/insuranceChecklist.jsx:19-25 | The list becomes its toggle, still six numbered items, and the email and submitted flag are unchanged. |
| InsuranceChecklist.Checklist.SetEmail | src/components/insuranceChecklist.jsx:123 | Only the email changes. |
| InsuranceChecklist.Checklist.HandleSubmit | src/components/insuranceChecklist.jsx:27-35 | Only a non-empty email marks the form submitted; an empty one changes nothing. |
| AssetMetrics.AssetClassesNumbered | src/lib/retirementAssetMetrics.js:4-107 | There are six asset classes, numbered 1 to 6 in order, so the ids are distinct. |
| AssetMetrics.PlansAllocateEverything | src/lib/retirementAssetMetrics.js:109-164 | Each of the three plans allocates exactly 100% across equity, bonds, gold and real estate. |
| AssetMetrics.FindPlan | src/components/PlanComparison.jsx:13-14 | `find` returns the first plan with the id, and none exactly when no plan has it. |
| AssetMetrics.PlanIdsDistinct | src/lib/retirementAssetMetrics.js:109-164 | The plan ids differ, and looking each one up finds its own plan. |
| AssetMetrics.FoundPlanIsUnique | src/components/PlanComparison.jsx:13-14 | With distinct ids, the plan found is the only one carrying the id. |
| AssetMetrics.RollingReturnOf | src/lib/retirementAssetMetrics.js:167-173 | Entry i has year 1995 + i. For draws in [0, 1) each rate lies in its band: equity [8, 20), bonds [5, 9), gold [3, 11), inflation [4, 7). |
| AssetMetrics.RollingReturns | src/lib/retirementAssetMetrics.js:167-173 | There are thirty entries, entry i being built from draw i. |
| AssetMetrics.RollingReturnsShape | src/lib/retirementAssetMetrics.js:167-173 | The years run from 1995 to 2024 in ascending order, and for valid draws the equity and inflation rates stay in their bands. |
| AssetMetrics.TierOf | src/lib/retirementAssetMetrics.js:185-190 | Every score falls in exactly one tier: High from 8, Medium in [6, 8), Moderate in [4, 6), and Low below 4. |
| AssetMetrics.TierMonotone | src/lib/retirementAssetMetrics.js:185-190 | A higher score never falls in a lower tier. |
| AssetMetrics.SuitabilityColor | src/lib/retirementAssetMetrics.js:185-190 | The colour is the colour of the score's tier. |
| AssetMetrics.LegendMatchesTiers | src/components/top-assets/AssetLeaderboard.jsx:229-243 | The leaderboard legend names the same tier as the colour scale for every score. |
| AssetScoreBadge.ScoreColor | src/components/top-assets/AssetScoreBadge.jsx:6-11 | The badge colour is the colour of the score's tier. |
| AssetScoreBadge.ScoreLabel | src/components/top-assets/AssetScoreBadge.jsx:13-18 | The badge label is the label of the score's tier. |
| AssetScoreBadge.LabelsIdentifyTiers | src/components/top-assets/AssetScoreBadge.jsx:13-18 | Two tiers have the same label exactly when they are the same tier. |
| AssetScoreBadge.ColorAndLabelAgree | src/components/top-assets/AssetScoreBadge.jsx:6-18 | Two scores share a label exactly when they share a tier, and then they also share the badge colour and the asset-scale colour. |
| AssetLeaderboard.Rank | src/components/top-assets/AssetLeaderboard.jsx:14-18 | The metric is negated for a descending sort and kept for an ascending one. |
| AssetLeaderboard.PrecedesTotal | src/components/top-assets/AssetLeaderboard.jsx:14-18 | The comparator is total. |
| AssetLeaderboard.PrecedesTransitive | src/components/top-assets/AssetLeaderboard.jsx:14-18 | The comparator is transitive. |
| AssetLeaderboard.InsertAt | src/components/top-assets/AssetLeaderboard.jsx:14-18 | One insertion step extends the sorted prefix by one element and keeps the array's multiset. |
| AssetLeaderboard.SortedAssets | src/components/top-assets/AssetLeaderboard.jsx:14-18 | The result is a permutation of the assets, sorted by the chosen metric: non-increasing for desc and non-decreasing for asc. |
| AssetLeaderboard.Flip | src/components/top-assets/AssetLeaderboard.jsx:22 | Flipping always changes the direction. |
| AssetLeaderboard.SortClicked | src/components/top-assets/AssetLeaderboard.jsx:20-27 | The clicked column becomes current. The current column flips its direction, and a new column starts descending. |
| AssetLeaderboard.SortClickedTwice | src/components/top-assets/AssetLeaderboard.jsx:20-22 | Clicking the current column twice restores the state. |
| AssetLeaderboard.NewColumnStartsDescending | src/components/top-assets/AssetLeaderboard.jsx:23-26 | Clicking a new column gives the same state whatever came before. |
| AssetLeaderboard.RowToggled | src/components/top-assets/AssetLeaderboard.jsx:35-37 | The expanded row closes, and any other row opens in its place, so at most one row is open. |
| AssetLeaderboard.RowToggledTwice | src/components/top-assets/AssetLeaderboard.jsx:35-37 | Toggling a row twice, from closed or from that row open, restores the state. |
| AssetLeaderboard.Leaderboard.constructor | src/components/top-assets/AssetLeaderboard.jsx:10-12 | It starts sorted by suitability, descending, with no row expanded. |
| AssetLeaderboard.Leaderboard.HandleSort | src/components/top-assets/AssetLeaderboard.jsx:20-27 | The sort state follows the click rule and the expanded row is kept. |
| AssetLeaderboard.Leaderboard.ToggleRowExpansion | src/components/top-assets/AssetLeaderboard.jsx:35-37 | The expanded row follows the toggle rule and the sort state is kept. |
| AssetLeaderboard.Leaderboard.Rows | src/components/top-assets/AssetLeaderboard.jsx:14-18 | The rows shown are the asset table, permuted and sorted by the current state. |
| TopAssetsOverview.SumBetweenBounds | src/components/top-assets/TopAssetsOverview.jsx:7-8 | Scores bounded by lo and hi bound the sum by n·lo and n·hi. |
| TopAssetsOverview.AverageSuitability | src/components/top-assets/TopAssetsOverview.jsx:7-8 | The average lies between the smallest and the largest score. |
| TopAssetsOverview.ShippedAverage | src/components/top-assets/TopAssetsOverview.jsx:7-8 | On the shipped table the average is 6.7. |
| TopAssetsOverview.BestPerformerIndex | src/components/top-assets/TopAssetsOverview.jsx:10-12 | The result is a list member whose real return is at least every other, and the first such member. |
| TopAssetsOverview.LowestVolatilityIndex | src/components/top-assets/TopAssetsOverview.jsx:14-16 | The result is a list member whose volatility is at most every other, and the first such member. |
| TopAssetsOverview.ShippedLeaders | src/components/top-assets/TopAssetsOverview.jsx:10-16 | On the shipped table the best performer is Equity (Large Cap) at 8.7 and the lowest volatility is Government Bonds at 5.8. |
| HealthStress.BaselineAtStart | src/components/HealthStressTest.jsx:54-66 | At zero years the annuity term vanishes and the baseline is the savings. |
| HealthStress.BaselineAtLeastSavings | src/components/HealthStressTest.jsx:54-66 | With non-negative savings and SIP and a positive return, the baseline is at least the savings. |
| HealthStress.HealthCostMultiplier | src/components/HealthStressTest.jsx:71-85 | The multiplier lies in (0, 1], and is 1 exactly for an unknown scenario. |
| HealthStress.HealthImpact | src/components/HealthStressTest.jsx:88 | The compounded factor lies in [0, 1], and is 1 for an unknown scenario. |
| HealthStress.HealthImpactShape | src/components/HealthStressTest.jsx:88 | A longer horizon never gives a larger factor, and from ten years on the factor is constant. |
| HealthStress.HealthAdjustedCorpus | src/components/HealthStressTest.jsx:69-90 | For a non-negative baseline the adjusted corpus lies in [0, baseline]. An unknown scenario leaves the baseline unchanged. |
| HealthStress.AdjustmentStopsAtTenYears | src/components/HealthStressTest.jsx:88-89 | From ten years on the adjustment no longer deepens. |
| HealthStress.AdjustmentAntitoneInYears | src/components/HealthStressTest.jsx:88-89 | A longer horizon never leaves more of a non-negative baseline. |
| HealthStress.EndAge | src/components/HealthStressTest.jsx:27 | The bound is at least lifespan + 5 and depletionAge + 5. It is NaN (none) exactly when the depletion age is not a number. |
| HealthStress.RowCount | src/components/HealthStressTest.jsx:29 | The number of ages start, start+5, … that do not pass the bound. It is positive exactly when the bound is a number at or after the start. The last age lies within five years below the bound, and there are none against a NaN bound. |
| HealthStress.RowAt | src/components/HealthStressTest.jsx:30-48 | The row's age is currentAge + years. For a non-negative baseline the difference is ≥ 0 and 0 ≤ adjusted ≤ baseline, and an unknown scenario gives a zero difference. |
| HealthStress.ProjectCorpus | src/components/HealthStressTest.jsx:25-49 | The loop returns one row per visited age, row k being the row for 5k years. |
| HealthStress.ProjectionAges | src/components/HealthStressTest.jsx:26-29 | The ages ascend from the current age. The last row lies within five years below the bound, and a NaN bound gives no rows. |
| HealthCharts.BaseCost | src/components/HealthImpactCharts.jsx:24-26 | Everyday care costs 30000, a planned procedure 300000, and any other scenario 1500000. |
| HealthCharts.CostAt | src/components/HealthImpactCharts.jsx:29-33 | Each charted cost is a non-negative multiple of 10000, and lies within 5000 of the base cost inflated at 9% a year, so it is the nearest such multiple. |
| HealthCharts.CostNonDecreasing | src/components/HealthImpactCharts.jsx:29-33 | Medical inflation never lowers the charted cost in a later year. |
| HealthCharts.MedicalInflationSeries | src/components/HealthImpactCharts.jsx:19-36 | The loop returns twenty points, point i being year currentYear + i with that year's cost. |
| HealthCharts.SeriesShape | src/components/HealthImpactCharts.jsx:22-36 | The years ascend and the costs never fall. |
| HealthCharts.AffordabilityList | src/components/HealthImpactCharts.jsx:41-52 | The three fixed rows come first. Premium users get a fourth, with 5 days for a high-impact event and 10 days otherwise. |
| InputField.ParseFloat | src/components/InputField.jsx:29 | Text that is empty or all whitespace reads as NaN. |
| InputField.ParseOrZero | src/components/InputField.jsx:29 | NaN becomes 0, and any parsed number is kept. |
| InputField.ParseFloatOfMinus | src/components/InputField.jsx:29 | A minus sign negates the number that follows it. |
| InputField.ParseFloatOfNumber | src/components/InputField.jsx:29 | parseFloat reads back the digits of a whole number, also with trailing text that does not continue it. |
| InputField.ParseFloatOfNegatedNumber | src/components/InputField.jsx:29 | The same holds with a minus sign in front. |
| InputField.ReadsBackNumber | src/components/InputField.jsx:29 | `parseFloat(String(n)) \|\| 0` is n. |
| InputField.ReadsBackNegatedNumber | src/components/InputField.jsx:29 | `parseFloat(String(-n)) \|\| 0` is -n. |
| InputField.NonNumericReadsZero | src/components/InputField.jsx:29 | Text that starts with anything but whitespace, a sign, a point or a digit reads as NaN, and so as 0. |
| InputField.LonePointReadsZero | src/components/InputField.jsx:29 | A lone point reads as 0. |
| InputField.LoneMinusReadsZero | src/components/InputField.jsx:29 | A lone minus sign reads as 0. |
| InputField.Increment | src/components/InputField.jsx:36-41 | value + 1 is emitted exactly when there is no maximum or it stays within the maximum, with a non-numeric value read as 0. |
| InputField.Decrement | src/components/InputField.jsx:43-48 | value − 1 is emitted exactly when there is no minimum or it stays within the minimum. |
| InputField.StepsStayWithin | src/components/InputField.jsx:36-48 | A value within the bounds stays within them after any sequence of clicks. |
| InputField.IncrementThenDecrement | src/components/InputField.jsx:36-48 | From a value that respects the minimum, a step up that was taken is undone by a step down. |
| InputField.DecrementThenIncrement | src/components/InputField.jsx:36-48 | From a value that respects the maximum, a step down that was taken is undone by a step up. |
| InputField.TypedNumberEmitted | src/components/InputField.jsx:24-34 | Typing a whole number into a number, currency or percentage field emits that number. |
| InputField.TypedNegativeEmitted | src/components/InputField.jsx:24-34 | Typing it with a minus sign emits its negation. |
| InputField.InputType | src/components/InputField.jsx:50-53 | Currency and percentage render as number inputs, and every other type passes through. |
| InputField.InputTypeIdempotent | src/components/InputField.jsx:50-53 | Mapping twice changes nothing more, and a field is numeric exactly when it renders as a number input. |
| InputField.Field.constructor | src/components/InputField.jsx:18 | The displayed value starts as the value prop. |
| InputField.Field.OnValue | src/components/InputField.jsx:20-22 | A new value prop replaces the displayed value. |
| InputField.Field.HandleChange | src/components/InputField.jsx:24-34 | The typed text is displayed. Numeric fields emit the parsed number or 0, and other fields emit the text. |
| JsValues.ToNumber | src/components/StatusBanner.jsx:5-6 | The conversion a comparison applies keeps a number, makes undefined NaN and null 0, makes the empty string 0, and makes every other string NaN. |

## Left out

- JavaScript numbers are modelled as unbounded reals:
  - NaN and the infinities are not represented;
  - a division the source would make by zero, or a rate for which the annuity factor is not a positive number, is excluded by a `requires` where the code reaches it: `expectedReturns ≠ 0` in the health baseline, `yearsToRetirement ≠ 0` in the SIP gap, `monthlyExpenses > 0` in the readiness score, and a step-up ≠ -100% in the accumulation rows;
  - the monthly rate must satisfy `-1 < monthlyRate ≠ 0` wherever the annuity factor is evaluated, through `SipAccelerator.RateUsable`, `AggressiveScenarios.RateUsable` and the requires of `AggressiveScenarios.ScenarioFor`. An expected return of 0 makes the source compute the factor as 0/0 and return NaN figures, and the model does not cover that input.
- Numeric strings are not converted: `Value` comparisons treat every non-empty string as NaN (null and "" as 0, as JavaScript does), and `parseFloat(expectedCorpus) || 0` in the analyzer reads a missing figure as 0.
- In the SIP accelerator and the aggressive scenarios, `None` is an undefined field, which takes the destructuring default. A null field is not the same: JavaScript does not apply the default to null. The caller passes a null field as `Some(0)`, since every use there is arithmetic or a relational comparison, where null reads as 0. For example, a null currentAge gives 60 − 0 years to retirement, and a null inflationRate inflates at 0%. The one difference not captured is that the echoed `currentSIP`, `requiredMonthlySIP` (early return) and `currentIncome` would be null rather than 0. Elsewhere null and undefined are both `None` where the source treats them alike.
- The fractional power `(1 + r/100)^(1/12) - 1` is a `monthlyRate` parameter. Its relation to the annual return is not modelled.
- `Math.random` and `new Date()` are parameters (`Draws`, `currentYear`).
- `calculateHealthImpact` belongs to a health engine that is not part of this model. Its `metrics.depletionAge` is an input.
- The realistic-retirement optimizer is not part of this model. Its logic lives in a library that is not part of this model either.
- Text formatting is not modelled: `toLocaleString`, `toFixed`, `Intl.NumberFormat` and `formatDisplayValue`. The action-summary and scenario sentences are modelled by which sentence is chosen and the figures it carries, not by their text.
- localStorage writes on checklist submit, session storage, routing and the async/try/console plumbing of runAnalysis are left out. Only the outcomes of runAnalysis are kept.
- Rendering, hooks beyond the state transitions above, and charts are left out.
- The `drawdownRecovery` table is constant data that no core operation reads.
- BlindSpots.ComputeBlindSpots: the source mutates the five spots in place in its `forEach`. The model builds new values, so aliasing of the spot objects is not captured.
- AssetLeaderboard.SortedAssets: it is not proved to be stable. JavaScript's sort is stable, so ties may come out in another order than the source's.
- AssetLeaderboard.Leaderboard.Rows: the copy `[...assetClasses]` is implicit in Dafny's value semantics for sequences.
- InsuranceChecklist.Progress: it requires a non-empty list. The component always holds six items.
- TopAssetsOverview.AverageSuitability: it requires a non-empty list, as `reduce` without a seed does for the two leaders. The shipped table has six entries.
- Readiness.ComputeReadinessScore: it requires monthlyExpenses > 0. A zero divisor gives NaN or Infinity in the source.
- InputField.ParseFloat: exponents, `Infinity`, and whitespace beyond space, tab, newline and carriage return are not read. Its contract states only where it reads NaN; the lemmas beside it state what it reads.
- InputField.HandleChange: the text-field branch, which emits the raw text, is stated in the method's contract only. There is no separate lemma for it.
- AssetScoreBadge.LabelsIdentifyTiers: it is proved for labels only. That the badge colours are pairwise distinct is not stated.
- HealthStress.BaselineCorpus has no contract of its own. Its properties are the two baseline lemmas.
- BlindSpots.DetermineSeverity: its own contract states only the fallbacks. The per-spot grades are stated through BlindSpots.BlindSpotsSeverities and the five rule functions.
