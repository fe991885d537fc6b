/** The corpus projection engine: a year-by-year accumulation phase
    (contribute, then grow, then step the contribution up), a withdrawal phase
    that stops at the first year the corpus is exhausted, and the summary
    figures derived from them. */
module Calculations {
  import opened JsValues

  /** One simulated year, with the fields the engine pushes for it. */
  datatype Row = Row(
    age: int,
    year: int,
    startingCorpus: real,
    monthlySIP: real,
    monthlySWP: real,
    returnRate: real,
    endingCorpus: real,
    totalInvested: real,
    totalWealth: real)

  /** The age at which the withdrawal phase runs dry, or the sentinel 'Never'. */
  datatype Depletion = DepletedAt(age: int) | Never

  /** `1 + ratePct / 100`, the factor a percentage rate grows a value by. */
  function Growth(ratePct: real): real {
    1.0 + ratePct / 100.0
  }

  // ---------------------------------------------------------------------
  // Accumulation phase

  datatype SipParams = SipParams(
    initialInvestment: real,
    monthlySIP: real,
    years: int,
    annualReturn: real,
    sipIncreaseRate: real)

  /** The annual contribution `currentSIP` holds after k step-ups. */
  function AnnualContribution(p: SipParams, k: nat): real {
    if k == 0 then p.monthlySIP * 12.0
    else AnnualContribution(p, k - 1) * Growth(p.sipIncreaseRate)
  }

  /** The corpus at the end of year y: year y adds the contribution of that
      year and then grows the sum by the annual return. */
  function CorpusAfter(p: SipParams, y: nat): real {
    if y == 0 then p.initialInvestment
    else (CorpusAfter(p, y - 1) + AnnualContribution(p, y - 1)) * Growth(p.annualReturn)
  }

  /** The row the accumulation loop pushes for year y. The starting corpus and
      the monthly SIP are read after the growth and after the step-up. */
  function SipRow(p: SipParams, y: nat): Row
    requires p.sipIncreaseRate != -100.0
  {
    Row(
      y + 29,
      y,
      CorpusAfter(p, y) - AnnualContribution(p, y) / Growth(p.sipIncreaseRate),
      AnnualContribution(p, y) / 12.0,
      0.0,
      p.annualReturn,
      CorpusAfter(p, y),
      p.initialInvestment + p.monthlySIP * 12.0 * y as real,
      CorpusAfter(p, y))
  }

  function YearsRun(p: SipParams): nat {
    if p.years > 0 then p.years else 0
  }

  /** `data` is what the accumulation loop produces for `p`. */
  ghost predicate IsSipGrowth(p: SipParams, data: seq<Row>)
    requires p.sipIncreaseRate != -100.0
  {
    |data| == YearsRun(p) && forall k :: 0 <= k < |data| ==> data[k] == SipRow(p, k + 1)
  }

  method CalculateSipGrowth(p: SipParams) returns (data: seq<Row>)
    requires p.sipIncreaseRate != -100.0
    ensures IsSipGrowth(p, data)
    ensures forall k :: 0 <= k < |data| ==> data[k].year == k + 1 && data[k].age == k + 30
  {
    data := [];
    var corpus := p.initialInvestment;
    var currentSIP := p.monthlySIP * 12.0;
    var year := 1;
    while year <= p.years
      invariant 1 <= year <= YearsRun(p) + 1
      invariant |data| == year - 1
      invariant corpus == CorpusAfter(p, year - 1)
      invariant currentSIP == AnnualContribution(p, year - 1)
      invariant forall k :: 0 <= k < |data| ==> data[k] == SipRow(p, k + 1)
    {
      corpus := corpus + currentSIP;
      corpus := corpus * (1.0 + p.annualReturn / 100.0);
      currentSIP := currentSIP * (1.0 + p.sipIncreaseRate / 100.0);
      data := data + [Row(
        year + 29,
        year,
        corpus - currentSIP / (1.0 + p.sipIncreaseRate / 100.0),
        currentSIP / 12.0,
        0.0,
        p.annualReturn,
        corpus,
        p.initialInvestment + p.monthlySIP * 12.0 * year as real,
        corpus)];
      year := year + 1;
    }
  }

  /** The contribution of year k+1 is the first year's 12 monthly SIPs stepped up k times. */
  lemma {:induction false} AnnualContributionClosedForm(p: SipParams, k: nat)
    ensures AnnualContribution(p, k) == 12.0 * p.monthlySIP * Pow(Growth(p.sipIncreaseRate), k)
  {
    if k > 0 {
      AnnualContributionClosedForm(p, k - 1);
      var g := Growth(p.sipIncreaseRate);
      calc {
        AnnualContribution(p, k);
        AnnualContribution(p, k - 1) * g;
        12.0 * p.monthlySIP * Pow(g, k - 1) * g;
        { assert Pow(g, k) == g * Pow(g, k - 1); }
        12.0 * p.monthlySIP * Pow(g, k);
      }
    }
  }

  /** A row's startingCorpus is its endingCorpus less the contribution of that
      same year: it is taken after growth, not at the start of the year. */
  lemma SipRowStartingCorpus(p: SipParams, y: nat)
    requires p.sipIncreaseRate != -100.0 && y >= 1
    ensures SipRow(p, y).startingCorpus == SipRow(p, y).endingCorpus - AnnualContribution(p, y - 1)
    ensures SipRow(p, y).monthlySIP * 12.0 == AnnualContribution(p, y - 1) * Growth(p.sipIncreaseRate)
  {
    var g := Growth(p.sipIncreaseRate);
    assert g != 0.0;
    assert AnnualContribution(p, y) / g == AnnualContribution(p, y - 1);
  }

  /** totalInvested counts every year at the first year's SIP, whatever the step-up. */
  lemma SipRowTotalInvested(p: SipParams, y: nat)
    requires p.sipIncreaseRate != -100.0
    ensures SipRow(p, y).totalInvested == p.initialInvestment + (y as real) * AnnualContribution(p, 0)
  {
  }

  /** With a non-negative first contribution and a step-up rate of at least
      -100%, every contribution is non-negative. */
  lemma {:induction false} AnnualContributionNonNegative(p: SipParams, k: nat)
    requires p.monthlySIP >= 0.0 && p.sipIncreaseRate >= -100.0
    ensures AnnualContribution(p, k) >= 0.0
  {
    if k > 0 {
      AnnualContributionNonNegative(p, k - 1);
      assert AnnualContribution(p, k - 1) * Growth(p.sipIncreaseRate) >= 0.0;
    }
  }

  /** Monotonic growth: under non-negative money, a non-negative return and a
      step-up of at least -100%, the corpus never shrinks from one year to the
      next and never falls below the initial investment. */
  lemma {:induction false} CorpusMonotone(p: SipParams, y: nat)
    requires p.initialInvestment >= 0.0 && p.monthlySIP >= 0.0
    requires p.annualReturn >= 0.0 && p.sipIncreaseRate >= -100.0
    ensures p.initialInvestment <= CorpusAfter(p, y) <= CorpusAfter(p, y + 1)
  {
    if y > 0 {
      CorpusMonotone(p, y - 1);
    }
    AnnualContributionNonNegative(p, y);
    var c := CorpusAfter(p, y);
    var s := c + AnnualContribution(p, y);
    var g := Growth(p.annualReturn);
    assert s >= c >= 0.0 && g >= 1.0;
    assert s * g - s == s * (g - 1.0) >= 0.0;
  }

  /** No money in and no initial corpus leaves the corpus at zero. */
  lemma {:induction false} CorpusZero(p: SipParams, y: nat)
    requires p.initialInvestment == 0.0 && p.monthlySIP == 0.0
    ensures CorpusAfter(p, y) == 0.0
  {
    if y > 0 {
      CorpusZero(p, y - 1);
      AnnualContributionClosedForm(p, y - 1);
    }
  }

  /** calculateCorpusAtRetirement: the last row's ending corpus, 0 for no rows. */
  function CorpusAtRetirement(data: seq<Row>): real {
    if |data| == 0 then 0.0 else data[|data| - 1].endingCorpus
  }

  /** The expected corpus is the corpus after the last simulated year; an
      empty accumulation gives 0, not the initial investment. */
  lemma ExpectedCorpusOfRun(p: SipParams, data: seq<Row>)
    requires p.sipIncreaseRate != -100.0 && IsSipGrowth(p, data)
    ensures CorpusAtRetirement(data) == if p.years > 0 then CorpusAfter(p, p.years) else 0.0
  {
    if p.years > 0 {
      assert data[|data| - 1] == SipRow(p, p.years);
    }
  }

  // ---------------------------------------------------------------------
  // Withdrawal phase

  datatype WithdrawalParams = WithdrawalParams(
    initialCorpus: real,
    currentAge: int,
    lifespan: int,
    monthlyExpenses: real,
    inflationRate: real,
    withdrawalIncrease: real,
    annualReturn: real)

  /** The number of years the withdrawal loop may run. */
  function Horizon(p: WithdrawalParams): nat {
    if p.lifespan - p.currentAge > 0 then p.lifespan - p.currentAge else 0
  }

  /** The factor the monthly withdrawal grows by after each year. */
  function StepUp(p: WithdrawalParams): real {
    1.0 + Max(p.inflationRate, p.withdrawalIncrease) / 100.0
  }

  /** The monthly withdrawal after k years. */
  function MonthlyWithdrawal(p: WithdrawalParams, k: nat): real {
    if k == 0 then p.monthlyExpenses else MonthlyWithdrawal(p, k - 1) * StepUp(p)
  }

  /** The corpus after k withdrawal years: withdraw the year's amount, then grow
      what is left only if it is still positive. */
  function WCorpus(p: WithdrawalParams, k: nat): real {
    if k == 0 then p.initialCorpus
    else
      var c := WCorpus(p, k - 1) - MonthlyWithdrawal(p, k - 1) * 12.0;
      if c > 0.0 then c * (1.0 + p.annualReturn / 100.0) else c
  }

  /** The row the withdrawal loop pushes for year k (k >= 1). */
  function WRow(p: WithdrawalParams, k: nat): Row
    requires k >= 1
  {
    Row(
      p.currentAge + k,
      k + 30,
      WCorpus(p, k) + MonthlyWithdrawal(p, k - 1) * 12.0,
      0.0,
      MonthlyWithdrawal(p, k),
      p.annualReturn,
      Max(WCorpus(p, k), 0.0),
      0.0,
      Max(WCorpus(p, k), 0.0))
  }

  /** `data` is what the withdrawal loop produces for `p`: at most Horizon rows,
      every year but the last leaves a positive corpus, and the loop stops
      either at the horizon or right after the first non-positive year. */
  ghost predicate IsWithdrawalRun(p: WithdrawalParams, data: seq<Row>) {
    && |data| <= Horizon(p)
    && (forall k :: 0 <= k < |data| ==> data[k] == WRow(p, k + 1))
    && (forall k :: 1 <= k < |data| ==> WCorpus(p, k) > 0.0)
    && (|data| == Horizon(p) || (|data| >= 1 && WCorpus(p, |data|) <= 0.0))
  }

  method CalculateWithdrawalPhase(p: WithdrawalParams) returns (data: seq<Row>)
    ensures IsWithdrawalRun(p, data)
  {
    data := [];
    var corpus := p.initialCorpus;
    var currentAgeVar := p.currentAge;
    var monthlyWithdrawal := p.monthlyExpenses;
    var year := 1;
    while year <= p.lifespan - p.currentAge
      invariant 1 <= year <= Horizon(p) + 1
      invariant |data| == year - 1
      invariant corpus == WCorpus(p, year - 1)
      invariant monthlyWithdrawal == MonthlyWithdrawal(p, year - 1)
      invariant forall k :: 0 <= k < |data| ==> data[k] == WRow(p, k + 1)
      invariant forall k :: 1 <= k < year ==> WCorpus(p, k) > 0.0
    {
      var annualWithdrawal := monthlyWithdrawal * 12.0;
      corpus := corpus - annualWithdrawal;
      if corpus > 0.0 {
        corpus := corpus * (1.0 + p.annualReturn / 100.0);
      }
      assert corpus == WCorpus(p, year);
      monthlyWithdrawal := monthlyWithdrawal * (1.0 + Max(p.inflationRate, p.withdrawalIncrease) / 100.0);
      var row := Row(
        currentAgeVar + year,
        year + 30,
        corpus + annualWithdrawal,
        0.0,
        monthlyWithdrawal,
        p.annualReturn,
        Max(corpus, 0.0),
        0.0,
        Max(corpus, 0.0));
      assert row == WRow(p, year);
      data := data + [row];
      if corpus <= 0.0 {
        break;
      }
      year := year + 1;
    }
  }

  /** Every withdrawal row reports a non-negative corpus, every row but the
      last a positive one, and the ages run currentAge+1, currentAge+2, ... */
  lemma WithdrawalRowsShape(p: WithdrawalParams, data: seq<Row>)
    requires IsWithdrawalRun(p, data)
    ensures forall k :: 0 <= k < |data| ==> data[k].endingCorpus >= 0.0 && data[k].age == p.currentAge + k + 1
    ensures forall k :: 0 <= k < |data| - 1 ==> data[k].endingCorpus > 0.0
  {
    forall k | 0 <= k < |data| - 1
      ensures data[k].endingCorpus > 0.0
    {
      assert WCorpus(p, k + 1) > 0.0;
    }
  }

  /** calculateDepletionAge: the last row's age when its corpus is exhausted,
      otherwise (also for no rows at all) 'Never'. */
  function DepletionAge(data: seq<Row>): Depletion {
    if |data| > 0 && data[|data| - 1].endingCorpus <= 0.0 then DepletedAt(data[|data| - 1].age)
    else Never
  }

  /** Reference definition: the first year in k..Horizon whose corpus is not positive. */
  function FirstDepletionFrom(p: WithdrawalParams, k: nat): Depletion
    requires k >= 1
    decreases Horizon(p) + 1 - k
  {
    if k > Horizon(p) then Never
    else if WCorpus(p, k) <= 0.0 then DepletedAt(p.currentAge + k)
    else FirstDepletionFrom(p, k + 1)
  }

  /** The depletion age the engine reports is the first withdrawal year, within
      the horizon, whose corpus is not positive; 'Never' if there is none. */
  lemma DepletionAgeIsFirstDepletion(p: WithdrawalParams, data: seq<Row>)
    requires IsWithdrawalRun(p, data)
    ensures DepletionAge(data) == FirstDepletionFrom(p, 1)
  {
    var n := |data|;
    if n >= 1 {
      FirstDepletionSkips(p, 1, n);
      assert data[n - 1] == WRow(p, n);
    }
  }

  /** When years k..n-1 all leave a positive corpus, searching from year k
      finds what searching from year n finds. */
  lemma {:induction false} FirstDepletionSkips(p: WithdrawalParams, k: nat, n: nat)
    requires 1 <= k <= n <= Horizon(p)
    requires forall j :: k <= j < n ==> WCorpus(p, j) > 0.0
    ensures FirstDepletionFrom(p, k) == FirstDepletionFrom(p, n)
    decreases n - k
  {
    if k < n {
      FirstDepletionSkips(p, k + 1, n);
    }
  }

  // ---------------------------------------------------------------------
  // SIP gap

  /** calculateSipGap: the simplified rule `requiredSIP = 300 * expenses / years`,
      clamped below at zero. the return rate plays no part. */
  function CalculateSipGap(currentSIP: real, monthlyExpenses: real, returnRate: real, yearsToRetirement: real): (gap: real)
    requires yearsToRetirement != 0.0
    ensures gap >= 0.0
    ensures gap == 0.0 <==> currentSIP >= monthlyExpenses * 300.0 / yearsToRetirement
    ensures gap > 0.0 ==> gap + currentSIP == monthlyExpenses * 300.0 / yearsToRetirement
  {
    var requiredSIP := (monthlyExpenses * 300.0) / yearsToRetirement;
    Max(0.0, requiredSIP - currentSIP)
  }

  /** A larger current SIP never increases the gap, and the return rate is ignored. */
  lemma SipGapAntitone(c1: real, c2: real, e: real, r1: real, r2: real, y: real)
    requires y != 0.0 && c1 <= c2
    ensures CalculateSipGap(c2, e, r1, y) <= CalculateSipGap(c1, e, r2, y)
  {
  }
}
