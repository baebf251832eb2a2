/** The pure classifiers the results panel applies to a review: the score
    gradient and caption, the severity badge and the issue-type icon. The
    CSS class strings and emoji are represented by enumeration values. */
module Display {

  /** The gradient behind the score: emerald-to-green, amber-to-orange or
      red-to-rose. */
  datatype ScoreGradient = EmeraldToGreen | AmberToOrange | RedToRose

  /** `getScoreColor`: 80 and above is the top band, 60 to 79 the middle
      band, everything below 60 (negative scores included) the bottom.
      Fractional scores fall in bands by the same comparisons. */
  function ScoreColor(score: real): (g: ScoreGradient)
    ensures g == EmeraldToGreen <==> 80.0 <= score
    ensures g == AmberToOrange <==> 60.0 <= score < 80.0
    ensures g == RedToRose <==> score < 60.0
  {
    if score >= 80.0 then EmeraldToGreen
    else if score >= 60.0 then AmberToOrange
    else RedToRose
  }

  const ExcellentCaption: string := "Excellent code!"
  const GoodCaption: string := "Good, with room for improvement"
  const AttentionCaption: string := "Needs attention"

  /** The caption under the score, chosen by the same thresholds. */
  function ScoreCaption(score: real): (caption: string)
    ensures caption == ExcellentCaption <==> 80.0 <= score
    ensures caption == GoodCaption <==> 60.0 <= score < 80.0
    ensures caption == AttentionCaption <==> score < 60.0
  {
    if score >= 80.0 then ExcellentCaption
    else if score >= 60.0 then GoodCaption
    else AttentionCaption
  }

  /** Position of a gradient from the bottom band (0) to the top (2). */
  function GradientRank(g: ScoreGradient): nat
  {
    match g
    case RedToRose => 0
    case AmberToOrange => 1
    case EmeraldToGreen => 2
  }

  /** The gradient and the caption always name the same band. */
  lemma ColorAndCaptionAgree(score: real)
    ensures ScoreColor(score) == EmeraldToGreen <==> ScoreCaption(score) == ExcellentCaption
    ensures ScoreColor(score) == AmberToOrange <==> ScoreCaption(score) == GoodCaption
    ensures ScoreColor(score) == RedToRose <==> ScoreCaption(score) == AttentionCaption
  {
  }

  /** A higher score never lands in a lower band. */
  lemma ScoreColorMonotone(lo: real, hi: real)
    requires lo <= hi
    ensures GradientRank(ScoreColor(lo)) <= GradientRank(ScoreColor(hi))
  {
  }

  /** The badge colour of an issue: red, amber, or blue. */
  datatype SeverityStyle = RedBadge | AmberBadge | BlueBadge

  /** `getSeverityStyle`: "high" and "medium" have their own badge; any
      other value, an absent severity included, gets the blue one. */
  function SeverityStyleOf(severity: string): (s: SeverityStyle)
    ensures s == RedBadge <==> severity == "high"
    ensures s == AmberBadge <==> severity == "medium"
    ensures s == BlueBadge <==> severity != "high" && severity != "medium"
  {
    match severity
    case "high" => RedBadge
    case "medium" => AmberBadge
    case _ => BlueBadge
  }

  /** The emoji shown for an issue: bug, lock, lightning, palette or the
      warning sign. */
  datatype TypeIcon = BugIcon | LockIcon | ZapIcon | PaletteIcon | WarningIcon

  const KnownKinds: set<string> := {"bug", "security", "performance", "style"}

  /** `getTypeIcon`: one icon per known issue type, the warning sign for
      any other value (the pipeline's own "error" type included). */
  function TypeIconOf(kind: string): (i: TypeIcon)
    ensures i == WarningIcon <==> kind !in KnownKinds
    ensures i == BugIcon <==> kind == "bug"
    ensures i == LockIcon <==> kind == "security"
    ensures i == ZapIcon <==> kind == "performance"
    ensures i == PaletteIcon <==> kind == "style"
  {
    match kind
    case "bug" => BugIcon
    case "security" => LockIcon
    case "performance" => ZapIcon
    case "style" => PaletteIcon
    case _ => WarningIcon
  }

  /** The issue type an icon stands for, when it stands for one. */
  function KindOfIcon(i: TypeIcon): string
  {
    match i
    case BugIcon => "bug"
    case LockIcon => "security"
    case ZapIcon => "performance"
    case PaletteIcon => "style"
    case WarningIcon => ""
  }

  /** Distinct known types get distinct icons, and the icon gives the type
      back. */
  lemma TypeIconRoundTrip(kind: string)
    requires kind in KnownKinds
    ensures TypeIconOf(kind) != WarningIcon && KindOfIcon(TypeIconOf(kind)) == kind
  {
  }
}
