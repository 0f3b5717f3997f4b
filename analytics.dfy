/**
 * The analytics dashboard (src/components/AnalyticsDashboard.tsx): the
 * visitor and idea charts built from the analytics tables, the headline
 * numbers derived from them, and the colour each pie slice gets. The
 * hosted queries' answers are parameters; rendering a date for display is
 * a function parameter because it depends on the browser's locale.
 */
module AnalyticsDashboard {
  import opened Text
  import opened Backend
  import Categories

  /** A `visitor_analytics` row; `date` is a day number, later days being larger. */
  datatype VisitorRow = VisitorRow(date: int, visitorCount: int)

  /** An `idea_analytics` row. */
  datatype IdeaRow = IdeaRow(category: string, submissionCount: int)

  datatype VisitorPoint = VisitorPoint(date: string, visitors: int)

  datatype IdeaPoint = IdeaPoint(category: string, count: int, displayLabel: string)

  /** The visitor chart: one point per row, in row order, with the date rendered for display. */
  function VisitorChart(rows: seq<VisitorRow>, formatDate: int -> string): (points: seq<VisitorPoint>)
    ensures |points| == |rows|
    ensures forall k :: 0 <= k < |rows| ==>
      points[k].visitors == rows[k].visitorCount && points[k].date == formatDate(rows[k].date)
  {
    seq(|rows|, k requires 0 <= k < |rows| => VisitorPoint(formatDate(rows[k].date), rows[k].visitorCount))
  }

  /** The idea chart: one point per row, in row order; the label is the listed one or the category itself. */
  function IdeaChart(rows: seq<IdeaRow>): (points: seq<IdeaPoint>)
    ensures |points| == |rows|
    ensures forall k :: 0 <= k < |rows| ==>
      && points[k].category == rows[k].category && points[k].count == rows[k].submissionCount
      && (Categories.IsKnown(rows[k].category) ==> points[k].displayLabel == Categories.Labels[rows[k].category])
      && (!Categories.IsKnown(rows[k].category) ==> points[k].displayLabel == rows[k].category)
  {
    seq(|rows|, k requires 0 <= k < |rows| =>
      IdeaPoint(rows[k].category, rows[k].submissionCount, Categories.LabelOr(rows[k].category, rows[k].category)))
  }

  /** `ideaData.reduce((sum, item) => sum + item.count, 0)`: a left fold from 0. */
  function TotalSubmissions(points: seq<IdeaPoint>): int
  {
    if points == [] then 0 else TotalSubmissions(points[..|points| - 1]) + points[|points| - 1].count
  }

  /** The total of two lists one after the other is the sum of their totals. */
  lemma {:induction false} TotalSubmissionsAppend(a: seq<IdeaPoint>, b: seq<IdeaPoint>)
    ensures TotalSubmissions(a + b) == TotalSubmissions(a) + TotalSubmissions(b)
    decreases |b|
  {
    if b == [] {
      assert a + b == a;
    } else {
      var front := b[..|b| - 1];
      assert (a + b)[..|a + b| - 1] == a + front;
      assert (a + b)[|a + b| - 1] == b[|b| - 1];
      TotalSubmissionsAppend(a, front);
    }
  }

  /** The total counts every point once: no point, 0; one more point, its count more. */
  lemma TotalSubmissionsCases(points: seq<IdeaPoint>, p: IdeaPoint)
    ensures TotalSubmissions([]) == 0
    ensures TotalSubmissions([p] + points) == p.count + TotalSubmissions(points)
  {
    TotalSubmissionsAppend([p], points);
    assert [p][..0] == [];
  }

  /** The submission total of the chart is the total of the analytics rows it was built from. */
  lemma {:induction false} ChartKeepsTotal(rows: seq<IdeaRow>)
    ensures TotalSubmissions(IdeaChart(rows)) == RowTotal(rows)
    decreases |rows|
  {
    if rows != [] {
      var front := rows[..|rows| - 1];
      assert IdeaChart(rows)[..|rows| - 1] == IdeaChart(front);
      ChartKeepsTotal(front);
    }
  }

  /** The sum of the rows' submission counts, summed from the front. */
  function RowTotal(rows: seq<IdeaRow>): int
  {
    if rows == [] then 0 else RowTotal(rows[..|rows| - 1]) + rows[|rows| - 1].submissionCount
  }

  /** With no negative count, the total bounds every single count. */
  lemma {:induction false} TotalBoundsEachCount(points: seq<IdeaPoint>, k: nat)
    requires k < |points|
    requires forall i :: 0 <= i < |points| ==> points[i].count >= 0
    ensures points[k].count <= TotalSubmissions(points)
    ensures TotalSubmissions(points) >= 0
    decreases |points|
  {
    var front := points[..|points| - 1];
    if k < |points| - 1 {
      TotalBoundsEachCount(front, k);
    } else if front != [] {
      TotalBoundsEachCount(front, 0);
    }
  }

  /** `visitorData[visitorData.length - 1]?.visitors || 0`. */
  function TodayVisitors(points: seq<VisitorPoint>): (r: int)
    ensures points == [] ==> r == 0
    ensures points != [] ==> r == points[|points| - 1].visitors
  {
    if points == [] then 0 else points[|points| - 1].visitors
  }

  const Colors: seq<string> := ["hsl(262 83% 58%)", "hsl(195 100% 50%)", "hsl(142 76% 36%)",
                                "hsl(0 84% 60%)", "hsl(39 77% 58%)", "hsl(280 100% 70%)"]

  /** The fill of pie slice `index`: the palette, cycled. */
  function SliceColor(index: nat): (c: string)
    ensures c in Colors
  {
    Colors[index % |Colors|]
  }

  lemma ColorsDistinct()
    ensures forall i, j :: 0 <= i < j < |Colors| ==> Colors[i] != Colors[j]
  {
    assert forall i :: 0 <= i < |Colors| ==> Colors[i][4] == ["2", "1", "1", "0", "3", "2"][i][0];
    assert Colors[0][5] != Colors[5][5];
    assert Colors[1][5] != Colors[2][5];
  }

  /** Slices six apart share a colour, and any six neighbouring slices all differ. */
  lemma SliceColorsCycle(i: nat, j: nat)
    ensures SliceColor(i + 6) == SliceColor(i)
    ensures i < j < i + 6 ==> SliceColor(i) != SliceColor(j)
  {
    ColorsDistinct();
    if i < j < i + 6 {
      assert i % 6 != j % 6;
    }
  }

  /** The dashboard's state. */
  datatype Dashboard = Dashboard(visitorData: seq<VisitorPoint>, ideaData: seq<IdeaPoint>,
                                 totalUsers: nat, totalIdeas: nat, loading: bool)

  const Initial := Dashboard([], [], 0, 0, true)

  /**
   * `fetchAnalytics`: a failed visitor query stops everything; a failed idea
   * query stops after the visitor chart was set; otherwise both charts and
   * both totals are set, a missing total becoming 0. A null answer is an
   * empty chart. Loading ends on every path.
   */
  function FetchAnalytics(d: Dashboard, visitors: QueryResult<VisitorRow>, ideas: QueryResult<IdeaRow>,
                          userCount: Option<nat>, ideaCount: Option<nat>, formatDate: int -> string): (r: Dashboard)
    ensures !r.loading
    ensures visitors.QueryFailed? ==> r == d.(loading := false)
    ensures visitors.QueryRows? ==> r.visitorData == VisitorChart(RowsOrEmpty(visitors.data), formatDate)
    ensures visitors.QueryRows? && ideas.QueryFailed? ==>
      r.ideaData == d.ideaData && r.totalUsers == d.totalUsers && r.totalIdeas == d.totalIdeas
    ensures visitors.QueryRows? && ideas.QueryRows? ==>
      && r.ideaData == IdeaChart(RowsOrEmpty(ideas.data))
      && (userCount.None? ==> r.totalUsers == 0) && (userCount.Some? ==> r.totalUsers == userCount.value)
      && (ideaCount.None? ==> r.totalIdeas == 0) && (ideaCount.Some? ==> r.totalIdeas == ideaCount.value)
  {
    match visitors
    case QueryFailed => d.(loading := false)
    case QueryRows(vs) =>
      var visitorData := VisitorChart(RowsOrEmpty(vs), formatDate);
      match ideas
      case QueryFailed => d.(visitorData := visitorData, loading := false)
      case QueryRows(ids) =>
        Dashboard(visitorData, IdeaChart(RowsOrEmpty(ids)),
                  if userCount.Some? then userCount.value else 0,
                  if ideaCount.Some? then ideaCount.value else 0,
                  false)
  }

  /** Rows in strictly increasing date order, as a table keyed by date sorts them. */
  predicate ByDate(table: seq<VisitorRow>)
  {
    forall i, j :: 0 <= i < j < |table| ==> table[i].date < table[j].date
  }

  /** `order("date", ascending).limit(7)` over the table: its seven earliest days. */
  function FirstWeek(table: seq<VisitorRow>): (r: seq<VisitorRow>)
    ensures |r| == if |table| < 7 then |table| else 7
    ensures r == table[..|r|]
  {
    if |table| < 7 then table else table[..7]
  }

  /**
   * Once the table holds more than seven days, the dashboard's "today"
   * figure comes from the seventh day ever recorded, which is older than the
   * latest day.
   */
  lemma FirstWeekMissesToday(table: seq<VisitorRow>, formatDate: int -> string)
    requires ByDate(table) && |table| > 7
    ensures var shown := FirstWeek(table);
      && TodayVisitors(VisitorChart(shown, formatDate)) == table[6].visitorCount
      && shown[|shown| - 1].date < table[|table| - 1].date
  {
  }

  /** The seven latest days, oldest first: what the chart's "last 7 days" evidently means. */
  function LatestWeek(table: seq<VisitorRow>): (r: seq<VisitorRow>)
    ensures |r| == if |table| < 7 then |table| else 7
    ensures r == table[|table| - |r|..]
  {
    if |table| < 7 then table else table[|table| - 7..]
  }

  /**
   * The latest week ends with the latest day, so "today" is the latest day's
   * count, and every day left out is earlier than every day shown.
   */
  lemma LatestWeekEndsToday(table: seq<VisitorRow>, formatDate: int -> string)
    requires ByDate(table) && table != []
    ensures TodayVisitors(VisitorChart(LatestWeek(table), formatDate)) == table[|table| - 1].visitorCount
    ensures forall i, j :: 0 <= i < |table| - |LatestWeek(table)| <= j < |table| ==> table[i].date < table[j].date
  {
    var shown := LatestWeek(table);
    assert shown[|shown| - 1] == table[|table| - 1];
  }
}
