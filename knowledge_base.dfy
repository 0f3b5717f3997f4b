/**
 * The knowledge base page (src/components/KnowledgeBase.tsx): loading
 * published articles and ideas, submitting an article draft, the search box,
 * and the CSV export. Search folds case with ASCII `toLowerCase`; the export
 * date format is a parameter, since it depends on the browser's locale.
 */
module KnowledgeBase {
  import opened Text
  import opened Backend

  datatype Article = Article(title: string, content: string, category: string, votes: int, createdAt: string)

  datatype StoredIdea = StoredIdea(title: string, description: string, category: string, votes: int, createdAt: string)

  datatype Draft = Draft(title: string, content: string, category: string)

  const EmptyDraft := Draft("", "", "general")

  /** The row sent to the articles table; the random user id is not modelled. */
  datatype ArticleInsert = ArticleInsert(title: string, content: string, category: string, articleType: string)

  // ---------------------------------------------------------------- search

  /** Order-preserving selection of the items `keep` accepts (Array.prototype.filter). */
  function Filter<T(!new)>(items: seq<T>, keep: T -> bool): (r: seq<T>)
    ensures |r| <= |items|
    ensures forall k :: 0 <= k < |r| ==> keep(r[k])
    ensures forall x :: x in r <==> x in items && keep(x)
  {
    if items == [] then []
    else (if keep(items[0]) then [items[0]] else []) + Filter(items[1..], keep)
  }

  /** Filtering a concatenation filters each part in place: the relative order of kept items is the input order. */
  lemma {:induction false} FilterAppend<T(!new)>(a: seq<T>, b: seq<T>, keep: T -> bool)
    ensures Filter(a + b, keep) == Filter(a, keep) + Filter(b, keep)
  {
    if a != [] {
      assert (a + b)[0] == a[0];
      assert (a + b)[1..] == a[1..] + b;
      FilterAppend(a[1..], b, keep);
    } else {
      assert a + b == b;
    }
  }

  /** When every item is accepted, the filter returns the list unchanged. */
  lemma {:induction false} FilterKeepsAll<T(!new)>(items: seq<T>, keep: T -> bool)
    requires forall k :: 0 <= k < |items| ==> keep(items[k])
    ensures Filter(items, keep) == items
  {
    if items != [] {
      FilterKeepsAll(items[1..], keep);
    }
  }

  /** The lower-cased term occurs in one of the lower-cased fields. */
  predicate AnyFieldContains(fields: seq<string>, term: string)
  {
    exists k :: 0 <= k < |fields| && Includes(ToLower(fields[k]), ToLower(term))
  }

  predicate ArticleMatches(term: string, a: Article)
  {
    AnyFieldContains([a.title, a.content, a.category], term)
  }

  predicate IdeaMatches(term: string, i: StoredIdea)
  {
    AnyFieldContains([i.title, i.description, i.category], term)
  }

  /** `filteredArticles`: articles whose title, content or category contains the term, ignoring case. */
  function FilteredArticles(articles: seq<Article>, term: string): (r: seq<Article>)
    ensures forall a :: a in r <==> a in articles && ArticleMatches(term, a)
  {
    Filter(articles, a => ArticleMatches(term, a))
  }

  /** `filteredIdeas`: ideas whose title, description or category contains the term, ignoring case. */
  function FilteredIdeas(ideas: seq<StoredIdea>, term: string): (r: seq<StoredIdea>)
    ensures forall i :: i in r <==> i in ideas && IdeaMatches(term, i)
  {
    Filter(ideas, i => IdeaMatches(term, i))
  }

  /** An empty search box shows every article and every idea, in order. */
  lemma EmptyTermKeepsEverything(articles: seq<Article>, ideas: seq<StoredIdea>)
    ensures FilteredArticles(articles, "") == articles
    ensures FilteredIdeas(ideas, "") == ideas
  {
    forall k | 0 <= k < |articles| ensures ArticleMatches("", articles[k]) {
      IncludesEmpty(ToLower(articles[k].title));
      assert Includes(ToLower([articles[k].title, articles[k].content, articles[k].category][0]), ToLower(""));
    }
    FilterKeepsAll(articles, a => ArticleMatches("", a));
    forall k | 0 <= k < |ideas| ensures IdeaMatches("", ideas[k]) {
      IncludesEmpty(ToLower(ideas[k].title));
      assert Includes(ToLower([ideas[k].title, ideas[k].description, ideas[k].category][0]), ToLower(""));
    }
    FilterKeepsAll(ideas, i => IdeaMatches("", i));
  }

  /** Searching is insensitive to the case of ASCII letters in the term. */
  lemma {:induction false} SearchIgnoresTermCase(articles: seq<Article>, term: string)
    ensures FilteredArticles(articles, ToLower(term)) == FilteredArticles(articles, term)
  {
    ToLowerIdempotent(term);
    FilterCongruent(articles, a => ArticleMatches(ToLower(term), a), a => ArticleMatches(term, a));
  }

  /** Two tests that agree on every item select the same items. */
  lemma {:induction false} FilterCongruent<T(!new)>(items: seq<T>, p: T -> bool, q: T -> bool)
    requires forall k :: 0 <= k < |items| ==> p(items[k]) == q(items[k])
    ensures Filter(items, p) == Filter(items, q)
  {
    if items != [] {
      FilterCongruent(items[1..], p, q);
    }
  }

  lemma ToLowerIdempotent(s: string)
    ensures ToLower(ToLower(s)) == ToLower(s)
  {
  }

  // ---------------------------------------------------------------- export

  /** `text.substring(0, 100) + '...'`: the ellipsis is added even to short text. */
  function Excerpt(text: string): (r: string)
    ensures |r| == (if |text| < 100 then |text| else 100) + 3
    ensures r[..|r| - 3] == text[..|r| - 3]
    ensures r[|r| - 3..] == "..."
  {
    Prefix(text, 100) + "..."
  }

  datatype ExportRow = ExportRow(kind: string, title: string, content: string, category: string,
                                 votes: int, author: string, date: string)

  function ArticleRow(a: Article, formatDate: string -> string): ExportRow
  {
    ExportRow("Article", a.title, Excerpt(a.content), a.category, a.votes, "Anonymous", formatDate(a.createdAt))
  }

  function IdeaRow(i: StoredIdea, formatDate: string -> string): ExportRow
  {
    ExportRow("Idea", i.title, Excerpt(i.description), i.category, i.votes, "Anonymous", formatDate(i.createdAt))
  }

  /** `allData`: every article, then every idea, each as one anonymous row. */
  function ExportRows(articles: seq<Article>, ideas: seq<StoredIdea>, formatDate: string -> string): (rows: seq<ExportRow>)
    ensures |rows| == |articles| + |ideas|
    ensures forall k :: 0 <= k < |articles| ==>
      rows[k].kind == "Article" && rows[k].title == articles[k].title && rows[k].category == articles[k].category
      && rows[k].votes == articles[k].votes && rows[k].content == Excerpt(articles[k].content)
    ensures forall k :: 0 <= k < |ideas| ==>
      rows[|articles| + k].kind == "Idea" && rows[|articles| + k].title == ideas[k].title
      && rows[|articles| + k].category == ideas[k].category && rows[|articles| + k].votes == ideas[k].votes
      && rows[|articles| + k].content == Excerpt(ideas[k].description)
    ensures forall k :: 0 <= k < |rows| ==> rows[k].author == "Anonymous"
  {
    seq(|articles|, k requires 0 <= k < |articles| => ArticleRow(articles[k], formatDate))
      + seq(|ideas|, k requires 0 <= k < |ideas| => IdeaRow(ideas[k], formatDate))
  }

  /** `Object.keys(allData[0]).join(',')`: the keys of every export row, in the order they are written. */
  // Written as short pieces so that facts about its characters stay cheap to check.
  const Header := "Type,Title," + "Content," + "Category," + "Votes," + "Author,Date"

  /** `Object.values(row)`, in the order the row's keys were written. */
  function Values(row: ExportRow): (vs: seq<string>)
    ensures |vs| == 7
  {
    [row.kind, row.title, row.content, row.category, IntToString(row.votes), row.author, row.date]
  }

  /** `"${val}"`: embedded quotes are not escaped. */
  function Quote(v: string): string
  {
    "\"" + v + "\""
  }

  function RowLine(row: ExportRow): string
  {
    Join(seq(|Values(row)|, k requires 0 <= k < |Values(row)| => Quote(Values(row)[k])), ",")
  }

  function CsvLines(rows: seq<ExportRow>): (lines: seq<string>)
    ensures |lines| == 1 + |rows|
  {
    [Header] + seq(|rows|, k requires 0 <= k < |rows| => RowLine(rows[k]))
  }

  /**
   * `csvContent`: the header line, then one line per row, joined by line
   * breaks. With no rows the header is read from a row that does not exist
   * and the export throws; that is the None result.
   */
  function CsvContent(rows: seq<ExportRow>): (r: Option<string>)
    ensures r.None? <==> rows == []
  {
    if rows == [] then None else Some(Join(CsvLines(rows), "\n"))
  }

  predicate NoLineBreaks(row: ExportRow)
  {
    forall k :: 0 <= k < |Values(row)| ==> '\n' !in Values(row)[k]
  }

  lemma HeaderHasNoBreak()
    ensures '\n' !in Header
  {
  }

  lemma {:induction false} RowLineHasNoBreak(row: ExportRow)
    requires NoLineBreaks(row)
    ensures '\n' !in RowLine(row)
  {
    var quoted := seq(|Values(row)|, k requires 0 <= k < |Values(row)| => Quote(Values(row)[k]));
    forall k | 0 <= k < |quoted| ensures '\n' !in quoted[k] {
      assert quoted[k] == "\"" + Values(row)[k] + "\"";
    }
    JoinExcludes(quoted, ",", '\n');
  }

  /**
   * When no exported value contains a line break, the CSV text splits back
   * into exactly the header line and one line per row: 1 + |rows| lines,
   * the first being "Type,Title,Content,Category,Votes,Author,Date".
   */
  lemma {:induction false} CsvLinesRecoverable(rows: seq<ExportRow>)
    requires rows != []
    requires forall k :: 0 <= k < |rows| ==> NoLineBreaks(rows[k])
    ensures var lines := Split(CsvContent(rows).value, "\n");
      |lines| == 1 + |rows| && lines[0] == Header
      && forall k :: 0 <= k < |rows| ==> lines[k + 1] == RowLine(rows[k])
  {
    var lines := CsvLines(rows);
    forall k | 0 <= k < |lines| ensures "\n"[0] !in lines[k] {
      if k > 0 {
        RowLineHasNoBreak(rows[k - 1]);
      } else {
        HeaderHasNoBreak();
      }
    }
    SplitJoin(lines, "\n");
  }

  /** The rows' Votes column renders the number in decimal, which reads back as the number. */
  lemma VotesRoundTrip(row: ExportRow)
    requires row.votes >= 0
    ensures DecimalValue(Values(row)[4]) == row.votes
  {
    NatToStringRoundTrip(row.votes);
  }

  // ---------------------------------------------------------------- page state

  class KnowledgeBaseView {
    var articles: seq<Article>
    var ideas: seq<StoredIdea>
    var loading: bool
    var searchTerm: string
    var isDialogOpen: bool
    var draft: Draft

    constructor ()
      ensures articles == [] && ideas == [] && loading && searchTerm == "" && !isDialogOpen && draft == EmptyDraft
    {
      articles, ideas, loading := [], [], true;
      searchTerm, isDialogOpen, draft := "", false, EmptyDraft;
    }

    /**
     * `fetchData`: articles first, then ideas; the lists are replaced only
     * when both queries succeed (a null answer becomes an empty list), and
     * the ideas are not queried once the articles query failed.
     */
    method FetchData(articleQuery: QueryResult<Article>, ideaQuery: QueryResult<StoredIdea>) returns (ideasQueried: bool)
      modifies this
      ensures !loading
      ensures ideasQueried <==> articleQuery.QueryRows?
      ensures articleQuery.QueryRows? && ideaQuery.QueryRows? ==>
        articles == RowsOrEmpty(articleQuery.data) && ideas == RowsOrEmpty(ideaQuery.data)
      ensures articleQuery.QueryFailed? || ideaQuery.QueryFailed? ==> articles == old(articles) && ideas == old(ideas)
      ensures searchTerm == old(searchTerm) && isDialogOpen == old(isDialogOpen) && draft == old(draft)
    {
      loading := true;
      ideasQueried := false;
      if articleQuery.QueryFailed? {
        loading := false;
        return;
      }
      ideasQueried := true;
      if ideaQuery.QueryFailed? {
        loading := false;
        return;
      }
      articles := RowsOrEmpty(articleQuery.data);
      ideas := RowsOrEmpty(ideaQuery.data);
      loading := false;
    }

    predicate DraftIsBlank()
      reads this
    {
      Trim(draft.title) == "" || Trim(draft.content) == ""
    }

    /**
     * `handleSubmitArticle`: a blank title or content sends nothing and
     * changes nothing. Otherwise the draft is sent as written (untrimmed); on
     * success the dialog closes, the draft resets and a reload is requested,
     * on failure nothing changes.
     */
    method HandleSubmitArticle(insertFails: bool) returns (sent: Option<ArticleInsert>, reload: bool)
      modifies this
      ensures old(DraftIsBlank()) ==> sent.None? && !reload && unchanged(this)
      ensures !old(DraftIsBlank()) ==>
        sent == Some(ArticleInsert(old(draft).title, old(draft).content, old(draft).category, "user_submitted"))
      ensures !old(DraftIsBlank()) && insertFails ==> !reload && unchanged(this)
      ensures !old(DraftIsBlank()) && !insertFails ==> reload && !isDialogOpen && draft == EmptyDraft
      ensures articles == old(articles) && ideas == old(ideas) && loading == old(loading) && searchTerm == old(searchTerm)
    {
      if Trim(draft.title) == "" || Trim(draft.content) == "" {
        return None, false;
      }
      sent := Some(ArticleInsert(draft.title, draft.content, draft.category, "user_submitted"));
      if insertFails {
        return sent, false;
      }
      isDialogOpen := false;
      draft := EmptyDraft;
      reload := true;
    }

    /** The articles and ideas listed under the current search term. */
    function Visible(): (r: (seq<Article>, seq<StoredIdea>))
      reads this
      ensures searchTerm == "" ==> r == (articles, ideas)
    {
      EmptyTermKeepsEverything(articles, ideas);
      (FilteredArticles(articles, searchTerm), FilteredIdeas(ideas, searchTerm))
    }
  }
}
