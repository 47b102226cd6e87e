/**
 * The score badge (app/components/ScoreBadge.tsx): a score falls in one of
 * three bands, split at 80 and 50, and each band has its own colour classes
 * and label.
 */
module ScoreBadge {
  /** The classes and the label a badge is drawn with. */
  datatype Badge = Badge(classes: string, caption: string)

  const StrongBadge: Badge := Badge("bg-green-100 text-green-600 border-green-200", "Strong")
  const ImprovementBadge: Badge := Badge("bg-yellow-100 text-yellow-600 border-yellow-200", "Needs Improvement")
  const WorkBadge: Badge := Badge("bg-red-100 text-red-600 border-red-200", "Needs Work")

  /** The badge for a score: green from 80 up, yellow from 50 up to 79, red below 50. */
  function BadgeFor(score: int): (b: Badge)
    ensures b == StrongBadge <==> score >= 80
    ensures b == ImprovementBadge <==> 50 <= score < 80
    ensures b == WorkBadge <==> score < 50
  {
    if score >= 80 then StrongBadge
    else if score >= 50 then ImprovementBadge
    else WorkBadge
  }

  /** How good a badge is: red 0, yellow 1, green 2. */
  function Rank(b: Badge): nat {
    if b == StrongBadge then 2 else if b == ImprovementBadge then 1 else 0
  }

  /** Every score gets exactly one of the three labels, and the caption alone tells the badge apart. */
  lemma OneLabelPerScore(score: int)
    ensures BadgeFor(score) in {StrongBadge, ImprovementBadge, WorkBadge}
    ensures StrongBadge.caption != ImprovementBadge.caption
         && ImprovementBadge.caption != WorkBadge.caption
         && StrongBadge.caption != WorkBadge.caption
  {
  }

  /** A higher score never gets a worse badge. */
  lemma BadgeIsMonotone(a: int, b: int)
    requires a <= b
    ensures Rank(BadgeFor(a)) <= Rank(BadgeFor(b))
  {
  }

  /** The scores at the edges of the bands. */
  lemma BandEdges()
    ensures BadgeFor(80).caption == "Strong"
    ensures BadgeFor(79).caption == "Needs Improvement"
    ensures BadgeFor(50).caption == "Needs Improvement"
    ensures BadgeFor(49).caption == "Needs Work"
  {
  }
}
