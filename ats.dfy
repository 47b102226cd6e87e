/**
 * The ATS card (app/components/ATS.tsx): a header whose gradient and icon
 * follow the score's band, an icon per suggestion, and a closing message
 * that follows the same bands.
 */
module Ats {
  import opened Constants
  import ScoreBadge
  import Details

  /** The header's gradient classes, icon source and icon alternative text. */
  datatype Header = Header(gradient: string, iconSrc: string, iconAlt: string)

  const GoodHeader: Header := Header("from-green-50 to-green-100", "/icons/ats-good.svg", "Good ATS Score")
  const WarningHeader: Header := Header("from-yellow-50 to-yellow-100", "/icons/ats-warning.svg", "Warning ATS Score")
  const PoorHeader: Header := Header("from-red-50 to-red-100", "/icons/ats-bad.svg", "Poor ATS Score")

  /** The header for a score: green from 80 up, yellow from 50 up to 79, red below 50. */
  function HeaderFor(score: int): (h: Header)
    ensures h == GoodHeader <==> score >= 80
    ensures h == WarningHeader <==> 50 <= score < 80
    ensures h == PoorHeader <==> score < 50
  {
    if score >= 80 then GoodHeader
    else if score >= 50 then WarningHeader
    else PoorHeader
  }

  const GreatJob: string := "Great job! Your resume is well-optimized for ATS systems."
  const OnTrack: string := "You're on the right track! Keep improving to boost your chances."
  const DontWorry: string := "Don't worry! With some improvements, your resume can be ATS-friendly too."

  /** The closing line, chosen with the same two thresholds as the header. */
  function ClosingMessage(score: int): (m: string)
    ensures m == GreatJob <==> score >= 80
    ensures m == OnTrack <==> 50 <= score < 80
    ensures m == DontWorry <==> score < 50
  {
    if score >= 80 then GreatJob
    else if score >= 50 then OnTrack
    else DontWorry
  }

  /** The closing line always matches the header's icon. */
  lemma ClosingMatchesHeader(score: int)
    ensures HeaderFor(score) == GoodHeader <==> ClosingMessage(score) == GreatJob
    ensures HeaderFor(score) == WarningHeader <==> ClosingMessage(score) == OnTrack
    ensures HeaderFor(score) == PoorHeader <==> ClosingMessage(score) == DontWorry
  {
  }

  /** The card and the score badge put every score in the same band. */
  lemma HeaderMatchesScoreBadge(score: int)
    ensures HeaderFor(score) == GoodHeader <==> ScoreBadge.BadgeFor(score) == ScoreBadge.StrongBadge
    ensures HeaderFor(score) == WarningHeader <==> ScoreBadge.BadgeFor(score) == ScoreBadge.ImprovementBadge
    ensures HeaderFor(score) == PoorHeader <==> ScoreBadge.BadgeFor(score) == ScoreBadge.WorkBadge
  {
  }

  /** A suggestion's icon: the check for a "good" one, the warning for any other. */
  function SuggestionIcon(s: AtsTip): (icon: Details.Icon)
    ensures icon == Details.CheckIcon <==> s.kind == Good
    ensures icon == Details.WarningIcon <==> s.kind != Good
  {
    if s.kind == Good then Details.CheckIcon else Details.WarningIcon
  }

  /** A suggestion gets the same icon a detail tip of the same type gets. */
  lemma SuggestionIconMatchesTipIcon(s: AtsTip)
    ensures SuggestionIcon(s) == Details.TipStyleFor(s.kind).icon
  {
  }
}
