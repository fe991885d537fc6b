/** The dashboard's financial-readiness score: four components, each capped
    at 25 points from above only, summed and rounded, then bucketed into a
    readiness level. */
module Readiness {
  import opened JsValues

  /** The form fields the score reads. The components divide by monthly
      expenses, so a score exists only for positive expenses. */
  datatype ReadinessInputs = ReadinessInputs(
    monthlySIP: real,
    monthlyExpenses: real,
    moneySaved: real,
    retirementAge: real,
    currentAge: real,
    expectedReturns: real,
    inflationRate: real)

  /** SIP as a percentage of expenses; 20% earns the full 25 points. */
  function SipComponent(f: ReadinessInputs): (c: real)
    requires f.monthlyExpenses > 0.0
    ensures c <= 25.0
  {
    var sipRatio := (f.monthlySIP / f.monthlyExpenses) * 100.0;
    Min(sipRatio / 20.0 * 25.0, 25.0)
  }

  /** Savings in years of expenses; 12 years earns the full 25 points. */
  function SavingsComponent(f: ReadinessInputs): (c: real)
    requires f.monthlyExpenses > 0.0
    ensures c <= 25.0
  {
    var savingsRatio := f.moneySaved / (f.monthlyExpenses * 12.0);
    Min(savingsRatio / 12.0 * 25.0, 25.0)
  }

  /** Years to retirement; 30 years earns the full 25 points. */
  function YearsComponent(f: ReadinessInputs): (c: real)
    ensures c <= 25.0
    ensures c == 25.0 <==> f.retirementAge - f.currentAge >= 30.0
  {
    var yearsToRetirement := f.retirementAge - f.currentAge;
    Min(yearsToRetirement / 30.0 * 25.0, 25.0)
  }

  /** Expected return over inflation; a gap of 6 points earns the full 25. */
  function ReturnGapComponent(f: ReadinessInputs): (c: real)
    ensures c <= 25.0
    ensures c == 25.0 <==> f.expectedReturns - f.inflationRate >= 6.0
  {
    var returnGap := f.expectedReturns - f.inflationRate;
    Min(returnGap / 6.0 * 25.0, 25.0)
  }

  /** The unrounded sum of the four components. */
  function ReadinessTotal(f: ReadinessInputs): (t: real)
    requires f.monthlyExpenses > 0.0
    ensures t <= 100.0
  {
    SipComponent(f) + SavingsComponent(f) + YearsComponent(f) + ReturnGapComponent(f)
  }

  /** The readiness score: the four components added up one by one and rounded. */
  method ComputeReadinessScore(f: ReadinessInputs) returns (score: int)
    requires f.monthlyExpenses > 0.0
    ensures score == Round(ReadinessTotal(f))
    ensures score <= 100
  {
    var total := 0.0;
    var sipRatio := (f.monthlySIP / f.monthlyExpenses) * 100.0;
    total := total + Min(sipRatio / 20.0 * 25.0, 25.0);
    var savingsRatio := f.moneySaved / (f.monthlyExpenses * 12.0);
    total := total + Min(savingsRatio / 12.0 * 25.0, 25.0);
    var yearsToRetirement := f.retirementAge - f.currentAge;
    total := total + Min(yearsToRetirement / 30.0 * 25.0, 25.0);
    var returnGap := f.expectedReturns - f.inflationRate;
    total := total + Min(returnGap / 6.0 * 25.0, 25.0);
    score := Round(total);
  }

  /** The SIP component is full exactly when the SIP is at least 20% of expenses. */
  lemma SipComponentFull(f: ReadinessInputs)
    requires f.monthlyExpenses > 0.0
    ensures SipComponent(f) == 25.0 <==> f.monthlySIP >= 0.2 * f.monthlyExpenses
  {
    RatioAtLeast(f.monthlySIP, f.monthlyExpenses, 0.2);
  }

  /** The savings component is full exactly when savings cover 12 years
      (144 months) of expenses. */
  lemma SavingsComponentFull(f: ReadinessInputs)
    requires f.monthlyExpenses > 0.0
    ensures SavingsComponent(f) == 25.0 <==> f.moneySaved >= 144.0 * f.monthlyExpenses
  {
    RatioAtLeast(f.moneySaved, f.monthlyExpenses * 12.0, 12.0);
  }

  /** A larger SIP never lowers the score. */
  lemma ScoreMonotoneInSip(f: ReadinessInputs, moreSip: real)
    requires f.monthlyExpenses > 0.0 && f.monthlySIP <= moreSip
    ensures Round(ReadinessTotal(f)) <= Round(ReadinessTotal(f.(monthlySIP := moreSip)))
  {
    RatioMonotone(f.monthlySIP, moreSip, f.monthlyExpenses);
    RoundMonotone(ReadinessTotal(f), ReadinessTotal(f.(monthlySIP := moreSip)));
  }

  /** Retiring thirty years in the past with a negative return gap: the
      missing lower cap lets the score fall to -50. */
  lemma ScoreCanBeNegative()
    ensures Round(ReadinessTotal(ReadinessInputs(0.0, 1.0, 0.0, 30.0, 60.0, 0.0, 6.0))) == -50
  {
    var f := ReadinessInputs(0.0, 1.0, 0.0, 30.0, 60.0, 0.0, 6.0);
    assert SipComponent(f) == 0.0 && SavingsComponent(f) == 0.0;
    assert YearsComponent(f) == -25.0 && ReturnGapComponent(f) == -25.0;
    RoundOfInt(-50);
  }

  datatype ReadinessLevel = Excellent | Good | NeedsWork

  /** The colour token shown with each level. */
  function LevelColor(l: ReadinessLevel): string {
    match l
    case Excellent => "primary"
    case Good => "warning"
    case NeedsWork => "danger"
  }

  /** getReadinessLevel: 80+ Excellent, 60+ Good, else Needs Work. */
  function ReadinessLevelOf(score: int): (l: ReadinessLevel)
    ensures l == Excellent <==> score >= 80
    ensures l == NeedsWork <==> score < 60
  {
    if score >= 80 then Excellent else if score >= 60 then Good else NeedsWork
  }

  function LevelRank(l: ReadinessLevel): nat {
    match l
    case NeedsWork => 0
    case Good => 1
    case Excellent => 2
  }

  /** A higher score never gets a lower level. */
  lemma ReadinessLevelMonotone(s1: int, s2: int)
    requires s1 <= s2
    ensures LevelRank(ReadinessLevelOf(s1)) <= LevelRank(ReadinessLevelOf(s2))
  {
  }

  /** The dashboard's readiness state: 0 until form data arrives, then the
      score of that data. */
  class Dashboard {
    var readinessScore: int

    constructor()
      ensures readinessScore == 0
    {
      readinessScore := 0;
    }

    /** The effect that runs when the form data changes: without data the
        score is left as it was. */
    method OnFormData(form: Option<ReadinessInputs>)
      requires form.Some? ==> form.value.monthlyExpenses > 0.0
      modifies this
      ensures form.Some? ==> readinessScore == Round(ReadinessTotal(form.value))
      ensures form.None? ==> readinessScore == old(readinessScore)
    {
      if form.Some? {
        var score := ComputeReadinessScore(form.value);
        readinessScore := score;
      }
    }
  }
}
