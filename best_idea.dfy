/**
 * The "Show Best Idea" dialog (src/components/BestIdeaDisplay.tsx): the
 * top-voted idea, newest first among ties, its icon and label, and the
 * e-mail text used to share it. The hosted query is a specification over
 * the list of ideas; its answer, or its failure, is a parameter.
 */
module BestIdeaDisplay {
  import opened Text
  import Categories

  datatype Submitter = Submitter(name: string, email: string)

  /** An idea row with its submitter joined in; `createdAt` is the creation time as a number. */
  datatype BestIdea = BestIdea(title: string, description: string, category: string, votes: int,
                               createdAt: int, users: Option<Submitter>)

  /** `a` comes before `b` in `order("votes", desc), order("created_at", desc)`. */
  predicate RanksAbove(a: BestIdea, b: BestIdea)
  {
    a.votes > b.votes || (a.votes == b.votes && a.createdAt > b.createdAt)
  }

  /** The ordering is total on the sort key: of two ideas with different keys, one ranks above the other. */
  lemma RankingTotal(a: BestIdea, b: BestIdea)
    ensures !RanksAbove(a, b) && !RanksAbove(b, a) <==> a.votes == b.votes && a.createdAt == b.createdAt
  {
  }

  /**
   * `.order(votes desc).order(created_at desc).limit(1).maybeSingle()`: no
   * idea for an empty table, otherwise one that no other idea ranks above.
   */
  function SelectBest(ideas: seq<BestIdea>): (r: Option<BestIdea>)
    ensures r.None? <==> ideas == []
    ensures r.Some? ==> r.value in ideas
    ensures r.Some? ==> forall k :: 0 <= k < |ideas| ==> !RanksAbove(ideas[k], r.value)
  {
    if ideas == [] then None
    else
      match SelectBest(ideas[1..])
      case None => Some(ideas[0])
      case Some(rest) =>
        assert forall k :: 1 <= k < |ideas| ==> ideas[k] == ideas[1..][k - 1];
        if RanksAbove(ideas[0], rest) then Some(ideas[0]) else Some(rest)
  }

  /** Any two ideas that nothing ranks above have the same votes and the same creation time. */
  lemma BestIsUniqueUpToKey(ideas: seq<BestIdea>, a: BestIdea, b: BestIdea)
    requires a in ideas && b in ideas
    requires forall k :: 0 <= k < |ideas| ==> !RanksAbove(ideas[k], a)
    requires forall k :: 0 <= k < |ideas| ==> !RanksAbove(ideas[k], b)
    ensures a.votes == b.votes && a.createdAt == b.createdAt
  {
    RankingTotal(a, b);
  }

  predicate SortedByRank(s: seq<BestIdea>)
  {
    forall i, j :: 0 <= i < j < |s| ==> !RanksAbove(s[j], s[i])
  }

  /**
   * Sorting the table by the query's ordering and taking the first row gives
   * an idea with the same votes and creation time as the one selected, so
   * the selection agrees with the query whichever way ties on both keys fall.
   */
  lemma SelectBestIsFirstOfSorted(ideas: seq<BestIdea>, sorted: seq<BestIdea>)
    requires multiset(sorted) == multiset(ideas) && SortedByRank(sorted) && ideas != []
    ensures sorted != [] && SelectBest(ideas).Some?
    ensures sorted[0].votes == SelectBest(ideas).value.votes
    ensures sorted[0].createdAt == SelectBest(ideas).value.createdAt
  {
    var best := SelectBest(ideas).value;
    assert ideas[0] in multiset(sorted);
    assert sorted != [];
    assert sorted[0] in multiset(ideas);
    assert best in multiset(sorted);
    var j :| 0 <= j < |sorted| && sorted[j] == best;
    var i :| 0 <= i < |ideas| && ideas[i] == sorted[0];
    assert !RanksAbove(ideas[i], best);
    RankingTotal(sorted[0], best);
  }

  const Icons: map<string, string> := map[
    "blue_yonder" := "🔷",
    "kinaxis" := "⚡",
    "coupa" := "💼",
    "manhattan" := "🏢",
    "daily_hurdles" := "🎯",
    "other_scm" := "🔗"
  ]

  const DefaultIcon := "💡"

  /** `getCategoryIcon`: the listed icon, or the light bulb for any other category. */
  function CategoryIcon(category: string): (r: string)
    ensures category in Icons ==> r == Icons[category]
    ensures category !in Icons ==> r == DefaultIcon
  {
    if category in Icons then Icons[category] else DefaultIcon
  }

  /** The light bulb shows exactly for the categories the label table does not list. */
  lemma DefaultIconIffUnknown(category: string)
    ensures CategoryIcon(category) == DefaultIcon <==> !Categories.IsKnown(category)
  {
    assert Icons.Keys == Categories.Labels.Keys;
  }

  /** `getCategoryLabel`: the listed label, or the identifier itself, which no label equals. */
  function CategoryLabel(category: string): (r: string)
    ensures Categories.IsKnown(category) ==> r == Categories.Labels[category]
    ensures r == category <==> !Categories.IsKnown(category)
  {
    Categories.LabelDiffersFromId(category);
    Categories.LabelOr(category, category)
  }

  /** `idea.users?.name || 'Anonymous'`. */
  function SubmitterName(idea: BestIdea): (r: string)
    ensures r == "Anonymous" <==> idea.users.None? || idea.users.value.name in {"", "Anonymous"}
    ensures idea.users.Some? && idea.users.value.name != "" ==> r == idea.users.value.name
  {
    if idea.users.Some? && idea.users.value.name != "" then idea.users.value.name else "Anonymous"
  }

  const SubjectHead := "Check out this innovative idea: "

  /** The e-mail subject before percent-encoding. */
  function ShareSubject(idea: BestIdea): (r: string)
    ensures |r| == |SubjectHead| + |idea.title|
    ensures r[..|SubjectHead|] == SubjectHead && r[|SubjectHead|..] == idea.title
  {
    SubjectHead + idea.title
  }

  // Written as short pieces so that facts about their characters stay cheap to check.
  const BodyIntro := "I thought " + "you'd be " + "interested in " + "this idea:"
  const BodyOutro := "This idea " + "was shared " + "from our " + "innovation " + "platform!"

  /** The e-mail body, line by line: a blank line after the introduction and before the closing line. */
  function ShareLines(idea: BestIdea): (lines: seq<string>)
  {
    [BodyIntro, "",
     "Title: " + idea.title,
     "Category: " + CategoryLabel(idea.category),
     "Description: " + idea.description,
     "Votes: " + IntToString(idea.votes),
     "Submitted by: " + SubmitterName(idea),
     "",
     BodyOutro]
  }

  /** The e-mail body before percent-encoding: the lines separated by line breaks. */
  function ShareBody(idea: BestIdea): string
  {
    Join(ShareLines(idea), "\n")
  }

  predicate SingleLineFields(idea: BestIdea)
  {
    '\n' !in idea.title && '\n' !in idea.description && '\n' !in idea.category
    && (idea.users.Some? ==> '\n' !in idea.users.value.name)
  }

  lemma IntroHasNoBreak()
    ensures '\n' !in BodyIntro
  {
  }

  lemma OutroHasNoBreak()
    ensures '\n' !in BodyOutro
  {
  }

  lemma LabelHasNoBreak(category: string)
    requires '\n' !in category
    ensures '\n' !in CategoryLabel(category)
  {
    if Categories.IsKnown(category) {
      Categories.LabelsCoverIds();
      assert category in Categories.Ids;
    }
  }

  /**
   * When the title, description, category and submitter name are single
   * lines, the body splits back into exactly its nine lines: a reader finds
   * the title on the third, the category label on the fourth, the
   * description on the fifth, the votes on the sixth and the submitter on
   * the seventh.
   */
  lemma ShareBodyLines(idea: BestIdea)
    requires SingleLineFields(idea)
    ensures var lines := Split(ShareBody(idea), "\n");
      && |lines| == 9
      && lines[2] == "Title: " + idea.title
      && lines[3] == "Category: " + CategoryLabel(idea.category)
      && lines[4] == "Description: " + idea.description
      && lines[5] == "Votes: " + IntToString(idea.votes)
      && lines[6] == "Submitted by: " + SubmitterName(idea)
  {
    var lines := ShareLines(idea);
    IntroHasNoBreak();
    OutroHasNoBreak();
    LabelHasNoBreak(idea.category);
    NoBreakInDigits(idea.votes);
    forall k | 0 <= k < |lines| ensures "\n"[0] !in lines[k] {
    }
    SplitJoin(lines, "\n");
  }

  /** What the user is told; `destructive` marks the error style. */
  datatype Toast = Toast(title: string, description: string, destructive: bool)

  const FetchFailed := Toast("Error", "Failed to fetch the best idea. Please try again.", true)
  const NoIdeasFound := Toast("No Ideas Found", "No ideas have been submitted yet. Be the first to share your innovation!", false)
  const UnexpectedError := Toast("Error", "An unexpected error occurred.", true)

  /** The query's outcome: an error it reports, an exception, or the table it ran over. */
  datatype BestIdeaReply = QueryError | Threw | Table(ideas: seq<BestIdea>)

  class BestIdeaView {
    var bestIdea: Option<BestIdea>
    var isLoading: bool
    var isOpen: bool

    constructor ()
      ensures bestIdea.None? && !isLoading && !isOpen
    {
      bestIdea, isLoading, isOpen := None, false, false;
    }

    /**
     * `fetchBestIdea`: the best idea of a non-empty table is shown in an
     * opened dialog; an error, an exception or an empty table only raise a
     * notice and leave the idea and the dialog as they were. The spinner
     * stops on every path.
     */
    method FetchBestIdea(reply: BestIdeaReply) returns (notice: Option<Toast>)
      modifies this
      ensures !isLoading
      ensures reply.QueryError? ==> notice == Some(FetchFailed)
      ensures reply.Threw? ==> notice == Some(UnexpectedError)
      ensures reply.Table? && reply.ideas == [] ==> notice == Some(NoIdeasFound)
      ensures notice.Some? ==> bestIdea == old(bestIdea) && isOpen == old(isOpen)
      ensures notice.None? <==> reply.Table? && reply.ideas != []
      ensures notice.None? ==> bestIdea == SelectBest(reply.ideas) && isOpen
    {
      isLoading := true;
      match reply {
        case QueryError =>
          notice := Some(FetchFailed);
        case Threw =>
          notice := Some(UnexpectedError);
        case Table(ideas) =>
          var data := SelectBest(ideas);
          if data.None? {
            notice := Some(NoIdeasFound);
          } else {
            bestIdea := data;
            isOpen := true;
            notice := None;
          }
      }
      isLoading := false;
    }
  }
}
