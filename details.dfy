/**
 * The detailed-feedback panel (app/components/Details.tsx): the four
 * categories it lists from an analysis, and how a tip is styled by its type.
 */
module Details {
  import opened Wrappers
  import opened Constants

  /** One entry of the `categories` list. */
  datatype Category = Category(id: string, title: string, score: int, tips: seq<Tip>)

  const CategoryIds: seq<string> := ["tone-style", "content", "structure", "skills"]
  const CategoryTitles: seq<string> := ["Tone & Style", "Content", "Structure", "Skills"]

  /** The four sections the panel shows, in its order; the ATS section is not among them. */
  function DetailSections(f: Feedback): seq<Section<Tip>> {
    [f.toneAndStyle, f.content, f.structure, f.skills]
  }

  function CategoryOf(id: string, title: string, s: Section<Tip>): Category {
    Category(id, title, s.score, s.tips.GetOr([]))
  }

  /** The `categories` list: a fixed id and title, the section's score, and its tips or `[]` when absent. */
  function Categories(f: Feedback): (cs: seq<Category>)
    ensures |cs| == 4
    ensures forall i :: 0 <= i < 4 ==> cs[i].id == CategoryIds[i] && cs[i].title == CategoryTitles[i]
  {
    [ CategoryOf("tone-style", "Tone & Style", f.toneAndStyle),
      CategoryOf("content", "Content", f.content),
      CategoryOf("structure", "Structure", f.structure),
      CategoryOf("skills", "Skills", f.skills) ]
  }

  /** The ids are distinct, so each accordion item has its own key. */
  lemma CategoryIdsAreDistinct(f: Feedback)
    ensures forall i, j :: 0 <= i < j < |Categories(f)| ==> Categories(f)[i].id != Categories(f)[j].id
  {
  }

  /**
   * Each category carries its section's score; present tips pass through
   * unchanged and in order, and absent tips become the empty list.
   */
  lemma CategoriesFollowSections(f: Feedback)
    ensures forall i :: 0 <= i < 4 ==>
      var c := Categories(f)[i];
      var s := DetailSections(f)[i];
      && c.score == s.score
      && (s.tips.Some? ==> c.tips == s.tips.value)
      && (s.tips.None? ==> c.tips == [])
  {
  }

  /** The ATS section has no influence on the list: changing it changes nothing. */
  lemma CategoriesIgnoreAts(f: Feedback, ats: Section<AtsTip>)
    ensures Categories(f.(ats := ats)) == Categories(f)
  {
  }

  /** An icon: its source and its alternative text. */
  datatype Icon = Icon(src: string, alt: string)

  const CheckIcon: Icon := Icon("/icons/check.svg", "Good")
  const WarningIcon: Icon := Icon("/icons/warning.svg", "Warning")

  /** How a tip is drawn: its icon and the colours of its explanation box. */
  datatype TipStyle = TipStyle(icon: Icon, boxClasses: string)

  const GoodBox: string := "bg-green-50 border-green-400 text-green-800"
  const ImproveBox: string := "bg-yellow-50 border-yellow-400 text-yellow-800"

  /** A "good" tip gets the check icon and green box; any other gets the warning icon and yellow box. */
  function TipStyleFor(kind: TipType): (st: TipStyle)
    ensures st.icon == CheckIcon <==> kind == Good
    ensures st.boxClasses == GoodBox <==> kind == Good
    ensures kind != Good ==> st == TipStyle(WarningIcon, ImproveBox)
  {
    if kind == Good then TipStyle(CheckIcon, GoodBox) else TipStyle(WarningIcon, ImproveBox)
  }

  /** The styles of a category's tips, one per tip and in the same order. */
  function TipStyles(tips: seq<Tip>): (sts: seq<TipStyle>)
    ensures |sts| == |tips|
    ensures forall i :: 0 <= i < |tips| ==> sts[i] == TipStyleFor(tips[i].kind)
  {
    if tips == [] then [] else [TipStyleFor(tips[0].kind)] + TipStyles(tips[1..])
  }
}
