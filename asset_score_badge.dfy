/** The suitability badge: a colour and a label for a score out of ten,
    both on the same four tiers as the asset colour scale. */
module AssetScoreBadge {
  import opened AssetMetrics

  function BadgeColorOfTier(t: Tier): string {
    match t
    case High => "bg-emerald-50 text-emerald-700 border-emerald-200"
    case Medium => "bg-blue-50 text-blue-700 border-blue-200"
    case Moderate => "bg-amber-50 text-amber-700 border-amber-200"
    case Low => "bg-slate-50 text-slate-700 border-slate-200"
  }

  function LabelOfTier(t: Tier): string {
    match t
    case High => "High Suitability"
    case Medium => "Medium Suitability"
    case Moderate => "Moderate Suitability"
    case Low => "Low Suitability"
  }

  /** getScoreColor: the badge colour of the score's tier. */
  function ScoreColor(score: real): (c: string)
    ensures c == BadgeColorOfTier(TierOf(score))
  {
    if score >= 8.0 then "bg-emerald-50 text-emerald-700 border-emerald-200"
    else if score >= 6.0 then "bg-blue-50 text-blue-700 border-blue-200"
    else if score >= 4.0 then "bg-amber-50 text-amber-700 border-amber-200"
    else "bg-slate-50 text-slate-700 border-slate-200"
  }

  /** getScoreLabel: the label of the score's tier. */
  function ScoreLabel(score: real): (l: string)
    ensures l == LabelOfTier(TierOf(score))
  {
    if score >= 8.0 then "High Suitability"
    else if score >= 6.0 then "Medium Suitability"
    else if score >= 4.0 then "Moderate Suitability"
    else "Low Suitability"
  }

  /** The tier names are distinct, so a label identifies its tier. */
  lemma LabelsIdentifyTiers(t1: Tier, t2: Tier)
    ensures LabelOfTier(t1) == LabelOfTier(t2) <==> t1 == t2
  {
    if t1 != t2 {
      assert LabelOfTier(t1)[0] != LabelOfTier(t2)[0] || |LabelOfTier(t1)| != |LabelOfTier(t2)|;
    }
  }

  /** Colour and label agree: two scores share a label exactly when they
      share a tier, and then they share the badge colour and the colour on
      the asset scale as well. */
  lemma ColorAndLabelAgree(s1: real, s2: real)
    ensures ScoreLabel(s1) == ScoreLabel(s2) <==> TierOf(s1) == TierOf(s2)
    ensures ScoreLabel(s1) == ScoreLabel(s2) ==>
      ScoreColor(s1) == ScoreColor(s2) && SuitabilityColor(s1) == SuitabilityColor(s2)
  {
    LabelsIdentifyTiers(TierOf(s1), TierOf(s2));
  }
}
