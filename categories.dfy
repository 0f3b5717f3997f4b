/**
 * The six idea categories and their display labels. The same label table
 * appears in the submission form, the best-idea dialog and the analytics
 * dashboard; each of those lookups differs only in what it returns for an
 * identifier that is not in the table.
 */
module Categories {

  /** The category identifiers offered by the submission form, in display order. */
  const Ids: seq<string> := ["daily_hurdles", "blue_yonder", "kinaxis", "coupa", "manhattan", "other_scm"]

  const Labels: map<string, string> := map[
    "daily_hurdles" := "Daily Hurdles",
    "blue_yonder" := "Blue Yonder",
    "kinaxis" := "Kinaxis",
    "coupa" := "Coupa",
    "manhattan" := "Manhattan",
    "other_scm" := "Other SCM"
  ]

  predicate IsKnown(category: string)
  {
    category in Labels
  }

  /** `labels[category] || fallback`: the label of a listed category, `fallback` otherwise. */
  function LabelOr(category: string, fallback: string): (r: string)
    ensures IsKnown(category) ==> r == Labels[category] && r != ""
    ensures !IsKnown(category) ==> r == fallback
  {
    if category in Labels then Labels[category] else fallback
  }

  /** The label table is keyed by exactly the identifiers the form lists. */
  lemma LabelsCoverIds()
    ensures forall c :: IsKnown(c) <==> c in Ids
  {
    assert Labels.Keys == {"daily_hurdles", "blue_yonder", "kinaxis", "coupa", "manhattan", "other_scm"};
  }

  /** No label equals its own identifier, so a label lookup that falls back to the identifier reveals whether it was listed. */
  lemma LabelDiffersFromId(category: string)
    ensures LabelOr(category, category) == category <==> !IsKnown(category)
  {
  }
}
