/** The results status banner: whether financial freedom is achievable, at
    risk or needs action, and how the corpus gap is shown. */
module StatusBanner {
  import opened JsValues

  /** isAchieved: the calculator's status is exactly 'Achieved'. */
  predicate IsAchieved(status: Value) {
    status == Str("Achieved")
  }

  /** isAtRisk: not achieved and a freedom age below 85. */
  predicate IsAtRisk(status: Value, freedomAge: Value) {
    !IsAchieved(status) && LessThan(freedomAge, 85.0)
  }

  /** isCritical: not achieved and a freedom age of 85 or more. */
  predicate IsCritical(status: Value, freedomAge: Value) {
    !IsAchieved(status) && AtLeast(freedomAge, 85.0)
  }

  /** The three flags exclude each other, and for a numeric freedom age one
      of them always holds. */
  lemma FlagsExclusive(status: Value, freedomAge: Value)
    ensures !(IsAchieved(status) && IsAtRisk(status, freedomAge))
    ensures !(IsAchieved(status) && IsCritical(status, freedomAge))
    ensures !(IsAtRisk(status, freedomAge) && IsCritical(status, freedomAge))
    ensures freedomAge.Num? ==>
      IsAchieved(status) || IsAtRisk(status, freedomAge) || IsCritical(status, freedomAge)
  {
  }

  /** Which banner is shown. */
  datatype BannerKind = FreedomAchievable | FreedomAtRisk | ActionRequired

  /** The banner's description, with the age it names. */
  datatype Description =
    | AchievableByAge(age: Value)
    | MayDepleteByAge(age: Value)
    | PlanMayNotSustain

  datatype BannerConfig = BannerConfig(kind: BannerKind, title: string, description: Description, bgColor: string, borderColor: string, textColor: string)

  /** getStatusConfig: achieved first, then at risk, and everything else,
      a non-numeric freedom age included, asks for action. The achieved
      description falls back to age 60 when the freedom age is falsy. */
  function StatusConfig(status: Value, freedomAge: Value): (c: BannerConfig)
    ensures c.kind == FreedomAchievable <==> IsAchieved(status)
    ensures c.kind == FreedomAtRisk <==> IsAtRisk(status, freedomAge)
    ensures c.kind == ActionRequired <==> !IsAchieved(status) && !IsAtRisk(status, freedomAge)
    ensures c.kind == FreedomAchievable ==>
      c.description == AchievableByAge(if Truthy(freedomAge) then freedomAge else Num(60.0))
  {
    if IsAchieved(status) then
      BannerConfig(FreedomAchievable, "\U{1F389} Financial Freedom Achievable!",
        AchievableByAge(if Truthy(freedomAge) then freedomAge else Num(60.0)),
        "bg-green-50", "border-green-200", "text-green-800")
    else if IsAtRisk(status, freedomAge) then
      BannerConfig(FreedomAtRisk, "\U{26A0}\U{FE0F} Freedom at Risk", MayDepleteByAge(freedomAge),
        "bg-orange-50", "border-orange-200", "text-orange-800")
    else
      BannerConfig(ActionRequired, "\U{1F6A8} Action Required", PlanMayNotSustain,
        "bg-red-50", "border-red-200", "text-red-800")
  }

  /** 'Never', a missing age and any other non-numeric string all take the
      action-required banner unless the status is achieved. */
  lemma NonNumericAgeAsksForAction(status: Value, freedomAge: Value)
    requires !IsAchieved(status) && (freedomAge.Undefined? || (freedomAge.Str? && freedomAge.s != ""))
    ensures StatusConfig(status, freedomAge).kind == ActionRequired
  {
  }

  /** The critical flag is exactly the numeric case of the action banner. */
  lemma CriticalMeansAction(status: Value, freedomAge: Value)
    requires IsCritical(status, freedomAge)
    ensures StatusConfig(status, freedomAge).kind == ActionRequired
  {
  }

  /** The corpus-gap cell: |required - expected|, marked short or surplus. */
  datatype GapDisplay = GapDisplay(amount: real, short: bool)

  function CorpusGapDisplay(expectedCorpus: real, requiredCorpus: real): (g: GapDisplay)
    ensures g.amount >= 0.0
    ensures g.short <==> requiredCorpus > expectedCorpus
    ensures g.short ==> expectedCorpus + g.amount == requiredCorpus
    ensures !g.short ==> expectedCorpus - g.amount == requiredCorpus
  {
    var corpusGap := requiredCorpus - expectedCorpus;
    GapDisplay(Abs(corpusGap), corpusGap > 0.0)
  }

  /** The freedom-age cell: a check mark when achieved, otherwise the age in years. */
  datatype FreedomAgeCell = AchievedMark | AgeInYears(age: Value)

  /** The banner's data cells: freedom age, and the expected/required detail
      rows, which appear only when freedom is not achieved. */
  datatype BannerCells = BannerCells(freedomAge: FreedomAgeCell, gap: GapDisplay, details: Option<(real, real)>)

  function Cells(status: Value, freedomAge: Value, expectedCorpus: real, requiredCorpus: real): (c: BannerCells)
    ensures c.details.Some? <==> !IsAchieved(status)
    ensures c.details.Some? ==> c.details.value == (expectedCorpus, requiredCorpus)
    ensures c.freedomAge == AchievedMark <==> IsAchieved(status)
  {
    BannerCells(
      if IsAchieved(status) then AchievedMark else AgeInYears(freedomAge),
      CorpusGapDisplay(expectedCorpus, requiredCorpus),
      if IsAchieved(status) then None else Some((expectedCorpus, requiredCorpus)))
  }
}
