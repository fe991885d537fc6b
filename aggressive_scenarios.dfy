/** Aggressive early-retirement scenarios: for each target age on a fixed
    ladder, the corpus needed then, the SIP that reaches it, the income that
    SIP implies, and whether that income is within 30% of today's. */
module AggressiveScenarios {
  import opened JsValues
  import Annuity

  /** The form fields read here. None is an undefined field, which takes the
      destructuring default. A null field is passed as Some(0): every use of
      these fields here is arithmetic or a relational comparison, where null
      reads as 0. */
  datatype ScenarioInputs = ScenarioInputs(
    currentAge: Option<int>,
    monthlyExpenses: Option<real>,
    inflationRate: Option<real>,
    monthlyIncome: Option<real>,
    moneySaved: Option<real>)

  /** The scenario's message: the income growth it needs (None when today's
      income is zero, where the percentage is not a number), or the extra
      monthly income it needs. */
  datatype ScenarioMessage =
    | PossibleWithIncomeGrowth(percent: Option<int>)
    | RequiresAdditionalIncome(incomeGap: real)

  datatype Scenario = Scenario(
    targetAge: int,
    requiredSIP: int,
    requiredIncome: real,
    currentIncome: real,
    incomeGap: real,
    isRealistic: bool,
    yearsToTarget: int,
    message: ScenarioMessage)

  /** The ladder of target ages, latest first. */
  const TargetAges: seq<int> := [55, 50, 45, 40, 35]

  function CurrentAge(f: ScenarioInputs): int { f.currentAge.GetOr(30) }
  function MonthlyExpenses(f: ScenarioInputs): real { f.monthlyExpenses.GetOr(0.0) }
  function InflationRate(f: ScenarioInputs): real { f.inflationRate.GetOr(6.0) }
  function MonthlyIncome(f: ScenarioInputs): real { f.monthlyIncome.GetOr(0.0) }
  function MoneySaved(f: ScenarioInputs): real { f.moneySaved.GetOr(0.0) }

  /** A target is tried only if it is ahead and at least five years away (the
      second condition implies the first). */
  predicate Kept(f: ScenarioInputs, targetAge: int) {
    targetAge > CurrentAge(f) && targetAge - CurrentAge(f) >= 5
  }

  /** The monthly rate `(1 + expectedReturns/100)^(1/12) - 1` must be above -1
      and not zero whenever some target is kept. */
  predicate RateUsable(f: ScenarioInputs, monthlyRate: real) {
    CurrentAge(f) <= 50 ==> -1.0 < monthlyRate && monthlyRate != 0.0
  }

  /** Twenty-five years of expenses, inflated to the target age. */
  function RequiredCorpus(f: ScenarioInputs, yearsToTarget: nat): real {
    MonthlyExpenses(f) * 12.0 * 25.0 * Pow(1.0 + InflationRate(f) / 100.0, yearsToTarget)
  }

  /** The SIP that, with the savings counted at face value, reaches the
      required corpus; before rounding. */
  function UnroundedSip(f: ScenarioInputs, monthlyRate: real, yearsToTarget: nat): real
    requires -1.0 < monthlyRate && monthlyRate != 0.0 && yearsToTarget >= 1
  {
    (RequiredCorpus(f, yearsToTarget) - MoneySaved(f)) / Annuity.FutureValueFactor(monthlyRate, yearsToTarget * 12)
  }

  function ScenarioFor(f: ScenarioInputs, monthlyRate: real, targetAge: int): (s: Scenario)
    requires Kept(f, targetAge) && -1.0 < monthlyRate && monthlyRate != 0.0
    ensures s.targetAge == targetAge && s.yearsToTarget == targetAge - CurrentAge(f) >= 5
    ensures s.requiredSIP == Round(UnroundedSip(f, monthlyRate, targetAge - CurrentAge(f)))
    ensures s.requiredIncome == s.requiredSIP as real + MonthlyExpenses(f) + 20000.0
    ensures s.currentIncome == MonthlyIncome(f)
    ensures s.isRealistic <==> s.requiredIncome <= MonthlyIncome(f) * 1.3
    ensures s.incomeGap == s.requiredIncome - MonthlyIncome(f)
    ensures s.message.RequiresAdditionalIncome? <==> !s.isRealistic
    ensures s.message.RequiresAdditionalIncome? ==> s.message.incomeGap == s.incomeGap
    ensures s.message.PossibleWithIncomeGrowth? ==>
      (s.message.percent.None? <==> MonthlyIncome(f) == 0.0) &&
      (MonthlyIncome(f) != 0.0 ==> s.message.percent == Some(Round((s.requiredIncome / MonthlyIncome(f) - 1.0) * 100.0)))
  {
    var yearsToTarget := targetAge - CurrentAge(f);
    var requiredSIP := Round(UnroundedSip(f, monthlyRate, yearsToTarget));
    var requiredIncome := requiredSIP as real + MonthlyExpenses(f) + 20000.0;
    var monthlyIncome := MonthlyIncome(f);
    var isRealistic := requiredIncome <= monthlyIncome * 1.3;
    var incomeGap := requiredIncome - monthlyIncome;
    Scenario(targetAge, requiredSIP, requiredIncome, monthlyIncome, incomeGap, isRealistic, yearsToTarget,
      if isRealistic then
        PossibleWithIncomeGrowth(if monthlyIncome == 0.0 then None else Some(Round((requiredIncome / monthlyIncome - 1.0) * 100.0)))
      else RequiresAdditionalIncome(incomeGap))
  }

  /** Every rung of a ladder is at most 55, so a kept rung implies a current
      age of at most 50 and a usable rate. */
  predicate LadderBelow56(ages: seq<int>) {
    forall k :: 0 <= k < |ages| ==> ages[k] <= 55
  }

  /** The scenarios the loop has produced after visiting `ages` in order. */
  function ScenariosOver(f: ScenarioInputs, monthlyRate: real, ages: seq<int>): seq<Scenario>
    requires RateUsable(f, monthlyRate) && LadderBelow56(ages)
  {
    if |ages| == 0 then []
    else
      var last := ages[|ages| - 1];
      ScenariosOver(f, monthlyRate, ages[..|ages| - 1]) + (if Kept(f, last) then [ScenarioFor(f, monthlyRate, last)] else [])
  }

  method CalculateAggressiveScenarios(f: ScenarioInputs, monthlyRate: real) returns (scenarios: seq<Scenario>)
    requires RateUsable(f, monthlyRate)
    ensures scenarios == ScenariosOver(f, monthlyRate, TargetAges)
  {
    scenarios := [];
    var currentAge := CurrentAge(f);
    for i := 0 to |TargetAges|
      invariant scenarios == ScenariosOver(f, monthlyRate, TargetAges[..i])
    {
      var targetAge := TargetAges[i];
      assert TargetAges[..i + 1][..i] == TargetAges[..i];
      if targetAge <= currentAge {
        continue;
      }
      var yearsToTarget := targetAge - currentAge;
      if yearsToTarget < 5 {
        continue;
      }
      scenarios := scenarios + [ScenarioFor(f, monthlyRate, targetAge)];
    }
    assert TargetAges[..|TargetAges|] == TargetAges;
  }

  predicate StrictlyDecreasing(xs: seq<int>) {
    forall i, j :: 0 <= i < j < |xs| ==> xs[i] > xs[j]
  }

  predicate DescendingTargets(ss: seq<Scenario>) {
    forall i, j :: 0 <= i < j < |ss| ==> ss[i].targetAge > ss[j].targetAge
  }

  predicate HasTarget(ss: seq<Scenario>, t: int) {
    exists k :: 0 <= k < |ss| && ss[k].targetAge == t
  }

  /** No more scenarios than rungs, and each one is a kept rung, at least
      five years ahead. */
  lemma {:induction false} ScenariosOverKept(f: ScenarioInputs, monthlyRate: real, ages: seq<int>)
    requires RateUsable(f, monthlyRate) && LadderBelow56(ages)
    ensures var ss := ScenariosOver(f, monthlyRate, ages);
      && |ss| <= |ages|
      && forall k :: 0 <= k < |ss| ==>
           ss[k].targetAge in ages && Kept(f, ss[k].targetAge) && ss[k].yearsToTarget == ss[k].targetAge - CurrentAge(f) >= 5
    ensures (forall t :: t in ages ==> !Kept(f, t)) ==> ScenariosOver(f, monthlyRate, ages) == []
  {
    if |ages| > 0 {
      var init := ages[..|ages| - 1];
      ScenariosOverKept(f, monthlyRate, init);
      var prev := ScenariosOver(f, monthlyRate, init);
      var ss := ScenariosOver(f, monthlyRate, ages);
      assert forall k :: 0 <= k < |prev| ==> ss[k] == prev[k];
      assert forall t :: t in init ==> t in ages;
    }
  }

  /** Over a strictly decreasing ladder the scenarios come out in strictly
      decreasing target age. */
  lemma {:induction false} ScenariosOverDescending(f: ScenarioInputs, monthlyRate: real, ages: seq<int>)
    requires RateUsable(f, monthlyRate) && LadderBelow56(ages) && StrictlyDecreasing(ages)
    ensures DescendingTargets(ScenariosOver(f, monthlyRate, ages))
  {
    if |ages| > 0 {
      var init := ages[..|ages| - 1];
      var last := ages[|ages| - 1];
      ScenariosOverDescending(f, monthlyRate, init);
      ScenariosOverKept(f, monthlyRate, init);
      var prev := ScenariosOver(f, monthlyRate, init);
      forall k | 0 <= k < |prev|
        ensures prev[k].targetAge > last
      {
        EarlierRungAbove(ages, prev[k].targetAge);
      }
      var tail := if Kept(f, last) then [ScenarioFor(f, monthlyRate, last)] else [];
      DescendingAppend(prev, tail, last);
    }
  }

  /** In a strictly decreasing ladder every rung before the last is above it. */
  lemma EarlierRungAbove(ages: seq<int>, t: int)
    requires StrictlyDecreasing(ages) && |ages| > 0 && t in ages[..|ages| - 1]
    ensures t > ages[|ages| - 1]
  {
    var j :| 0 <= j < |ages| - 1 && ages[..|ages| - 1][j] == t;
    assert ages[j] == t;
  }

  /** Appending at most one scenario below all earlier targets keeps the
      targets strictly decreasing. */
  lemma DescendingAppend(prev: seq<Scenario>, tail: seq<Scenario>, last: int)
    requires DescendingTargets(prev)
    requires forall k :: 0 <= k < |prev| ==> prev[k].targetAge > last
    requires |tail| <= 1 && forall k :: 0 <= k < |tail| ==> tail[k].targetAge == last
    ensures DescendingTargets(prev + tail)
  {
  }

  /** Every kept rung yields a scenario. */
  lemma {:induction false} ScenariosOverComplete(f: ScenarioInputs, monthlyRate: real, ages: seq<int>)
    requires RateUsable(f, monthlyRate) && LadderBelow56(ages)
    ensures forall t :: t in ages && Kept(f, t) ==> HasTarget(ScenariosOver(f, monthlyRate, ages), t)
  {
    if |ages| > 0 {
      var init := ages[..|ages| - 1];
      var last := ages[|ages| - 1];
      ScenariosOverComplete(f, monthlyRate, init);
      var prev := ScenariosOver(f, monthlyRate, init);
      var ss := ScenariosOver(f, monthlyRate, ages);
      assert forall k :: 0 <= k < |prev| ==> ss[k] == prev[k];
      forall t | t in ages && Kept(f, t)
        ensures HasTarget(ss, t)
      {
        if t == last {
          assert ss[|ss| - 1].targetAge == t;
        } else {
          assert t in init;
          var k :| 0 <= k < |prev| && prev[k].targetAge == t;
          assert ss[k].targetAge == t;
        }
      }
    }
  }

  /** On the shipped ladder: at most five scenarios, latest target first,
      each at least five years ahead, and a target present exactly when it is
      at least five years ahead. */
  lemma LadderScenarios(f: ScenarioInputs, monthlyRate: real)
    requires RateUsable(f, monthlyRate)
    ensures var ss := ScenariosOver(f, monthlyRate, TargetAges);
      && |ss| <= 5
      && DescendingTargets(ss)
      && (forall k :: 0 <= k < |ss| ==> ss[k].targetAge in TargetAges && ss[k].yearsToTarget == ss[k].targetAge - CurrentAge(f) >= 5)
      && (forall t :: t in TargetAges ==> (t - CurrentAge(f) >= 5 <==> HasTarget(ss, t)))
  {
    ScenariosOverKept(f, monthlyRate, TargetAges);
    ScenariosOverDescending(f, monthlyRate, TargetAges);
    ScenariosOverComplete(f, monthlyRate, TargetAges);
  }

  /** Someone older than 50 gets no scenario at all. */
  lemma NoScenariosAfterFifty(f: ScenarioInputs, monthlyRate: real)
    requires RateUsable(f, monthlyRate) && CurrentAge(f) > 50
    ensures ScenariosOver(f, monthlyRate, TargetAges) == []
  {
    ScenariosOverKept(f, monthlyRate, TargetAges);
    assert forall t :: t in TargetAges ==> !Kept(f, t);
  }

  /** Before rounding, the SIP grows to exactly what the savings leave missing
      of the required corpus; the savings themselves are not grown. */
  lemma SipClosesTheGap(f: ScenarioInputs, monthlyRate: real, yearsToTarget: nat)
    requires -1.0 < monthlyRate && monthlyRate != 0.0 && yearsToTarget >= 1
    ensures Annuity.FutureValue(UnroundedSip(f, monthlyRate, yearsToTarget), monthlyRate, yearsToTarget * 12) + MoneySaved(f)
      == RequiredCorpus(f, yearsToTarget)
  {
    Annuity.InversionReachesTarget(RequiredCorpus(f, yearsToTarget) - MoneySaved(f), monthlyRate, yearsToTarget * 12);
  }

  /** With savings above the required corpus the SIP is not clamped at zero:
      it rounds to zero or below. */
  lemma SavingsAboveTargetGiveNonPositiveSip(f: ScenarioInputs, monthlyRate: real, targetAge: int)
    requires Kept(f, targetAge) && -1.0 < monthlyRate && monthlyRate != 0.0
    requires MoneySaved(f) > RequiredCorpus(f, targetAge - CurrentAge(f))
    ensures ScenarioFor(f, monthlyRate, targetAge).requiredSIP <= 0
  {
    var y := targetAge - CurrentAge(f);
    var fv := Annuity.FutureValueFactor(monthlyRate, y * 12);
    var num := RequiredCorpus(f, y) - MoneySaved(f);
    assert fv > 0.0 && num < 0.0;
    var q := num / fv;
    assert q * fv == num;
    assert q < 0.0;
  }
}
