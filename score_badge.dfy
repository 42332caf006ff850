/**
 * The score badge of the résumé analyser: a score is classified into one of
 * three bands by two threshold functions that share the cut-offs 70 and 49,
 * one giving the badge's colour classes and one its label.
 *
 * Scores are JavaScript numbers; only comparisons are applied to them, so they
 * are modelled as `real`.
 */
module ScoreBadge {

  const StrongCutoff: real := 70.0
  const GoodStartCutoff: real := 49.0

  const GreenClasses := "bg-green-100 text-green-800"
  const YellowClasses := "bg-yellow-100 text-yellow-800"
  const RedClasses := "bg-red-100 text-red-800"

  const StrongLabel := "Strong"
  const GoodStartLabel := "Good Start"
  const NeedsImprovementLabel := "Needs Improvement"

  /** The Tailwind colour classes of the badge for `score`. */
  function GetScoreColor(score: real): (color: string)
    ensures color == GreenClasses || color == YellowClasses || color == RedClasses
  {
    if score >= StrongCutoff then GreenClasses
    else if score >= GoodStartCutoff then YellowClasses
    else RedClasses
  }

  /** The label shown on the badge for `score`. */
  function GetText(score: real): (text: string)
    ensures text == StrongLabel || text == GoodStartLabel || text == NeedsImprovementLabel
  {
    if score >= StrongCutoff then StrongLabel
    else if score >= GoodStartCutoff then GoodStartLabel
    else NeedsImprovementLabel
  }

  /** The order of the labels: Needs Improvement < Good Start < Strong. */
  function LabelRank(text: string): (rank: nat)
  {
    if text == StrongLabel then 2
    else if text == GoodStartLabel then 1
    else 0
  }

  /** The colour that goes with each label: green, yellow, red. */
  function ColorOfLabel(text: string): (color: string)
  {
    if text == StrongLabel then GreenClasses
    else if text == GoodStartLabel then YellowClasses
    else RedClasses
  }

  /** A score of at least 70, and only such a score, is green and "Strong". */
  lemma StrongBand(score: real)
    ensures GetText(score) == StrongLabel <==> score >= 70.0
    ensures GetScoreColor(score) == GreenClasses <==> score >= 70.0
  {
  }

  /** A score in [49, 70), and only such a score, is yellow and "Good Start". */
  lemma GoodStartBand(score: real)
    ensures GetText(score) == GoodStartLabel <==> 49.0 <= score < 70.0
    ensures GetScoreColor(score) == YellowClasses <==> 49.0 <= score < 70.0
  {
  }

  /** A score below 49, and only such a score, is red and "Needs Improvement". */
  lemma NeedsImprovementBand(score: real)
    ensures GetText(score) == NeedsImprovementLabel <==> score < 49.0
    ensures GetScoreColor(score) == RedClasses <==> score < 49.0
  {
  }

  /** The three labels partition the scores: every score has exactly one. */
  lemma ExactlyOneLabel(score: real)
    ensures var t := GetText(score);
      && (t == StrongLabel || t == GoodStartLabel || t == NeedsImprovementLabel)
      && !(t == StrongLabel && t == GoodStartLabel)
      && !(t == StrongLabel && t == NeedsImprovementLabel)
      && !(t == GoodStartLabel && t == NeedsImprovementLabel)
  {
  }

  /** A higher score never gets a lower label. */
  lemma TextMonotone(s1: real, s2: real)
    requires s1 <= s2
    ensures LabelRank(GetText(s1)) <= LabelRank(GetText(s2))
  {
  }

  /** Different labels have different colours, so a badge's colour tells its label. */
  lemma ColorOfLabelInjective(t1: string, t2: string)
    requires t1 in {StrongLabel, GoodStartLabel, NeedsImprovementLabel}
    requires t2 in {StrongLabel, GoodStartLabel, NeedsImprovementLabel}
    requires ColorOfLabel(t1) == ColorOfLabel(t2)
    ensures t1 == t2
  {
  }

  /** The colour and the label always agree, as the two functions share their cut-offs. */
  lemma ColorAgreesWithText(score: real)
    ensures GetScoreColor(score) == ColorOfLabel(GetText(score))
  {
  }

  /** Two scores with the same badge colour have the same label. */
  lemma SameColorSameText(s1: real, s2: real)
    requires GetScoreColor(s1) == GetScoreColor(s2)
    ensures GetText(s1) == GetText(s2)
  {
    ColorAgreesWithText(s1);
    ColorAgreesWithText(s2);
    ColorOfLabelInjective(GetText(s1), GetText(s2));
  }
}
