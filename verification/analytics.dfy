/** `AnalyticsPage`: which statistics feed the pie chart and the detail
    table, and what the data area shows. */
module Analytics {
  import opened Js
  import opened Feedback

  datatype StatRow = StatRow(key: string, total: int, completed: int, open: int)

  datatype Stats = Stats(byProject: seq<StatRow>, byPerson: seq<StatRow>)

  /** Which of the two breakdowns a view uses. */
  datatype Source = ByProject | ByPerson

  function Rows(s: Stats, src: Source): seq<StatRow> {
    match src
    case ByProject => s.byProject
    case ByPerson => s.byPerson
  }

  /** `pieData`: the project breakdown exactly when the toggle reads
      'project'. */
  function PieSource(pieType: string): (src: Source)
    ensures src == ByProject <==> pieType == "project"
  {
    if pieType == "project" then ByProject else ByPerson
  }

  /** The toggle's first value; the pie starts on the project breakdown. */
  const InitialPieType: string := "project"

  /** The two values the toggle offers each select their own breakdown, and
      while the project breakdown has rows the initial pie and the detail
      table show the same rows. */
  lemma PieFollowsToggle(s: Stats)
    ensures Rows(s, PieSource("project")) == s.byProject
    ensures Rows(s, PieSource("person")) == s.byPerson
    ensures |s.byProject| > 0 ==> Rows(s, PieSource(InitialPieType)) == Rows(s, DetailSource(s))
  {
  }

  /** `detailedRows`: the project breakdown when it has rows, the person
      breakdown otherwise. */
  function DetailSource(s: Stats): (src: Source)
    ensures src == ByProject <==> |s.byProject| > 0
  {
    if |s.byProject| > 0 then ByProject else ByPerson
  }

  /** `detailedLabel`, the heading of the detail table's first column. */
  function DetailLabel(s: Stats): (heading: string)
    ensures heading == "Project" <==> DetailSource(s) == ByProject
    ensures heading == "Person" <==> DetailSource(s) == ByPerson
  {
    if |s.byProject| > 0 then "Project" else "Person"
  }

  /** The detail table is never empty while either breakdown has rows, and
      its heading names the breakdown its rows come from. */
  lemma DetailTableConsistent(s: Stats)
    ensures |Rows(s, DetailSource(s))| == 0 <==> |s.byProject| == 0 && |s.byPerson| == 0
    ensures DetailLabel(s) == "Project" ==> Rows(s, DetailSource(s)) == s.byProject
    ensures DetailLabel(s) == "Person" ==> Rows(s, DetailSource(s)) == s.byPerson
  {
  }

  datatype DataView = LoadingNote | ErrorNote(message: string) | Dashboard(stats: Stats)

  /** The data area: loading, then error, then the dashboard. */
  function View(loading: bool, error: Option<string>, s: Stats): (v: DataView)
    ensures loading <==> v == LoadingNote
    ensures v.ErrorNote? <==> !loading && error.Some? && error.value != ""
    ensures v.ErrorNote? ==> v.message == error.value
    ensures v.Dashboard? <==> !loading && (error.None? || error.value == "")
    ensures v.Dashboard? ==> v.stats == s
  {
    if loading then LoadingNote
    else if error.Some? && error.value != "" then ErrorNote(error.value)
    else Dashboard(s)
  }

  /** The page's statistics state. */
  datatype StatsPage = StatsPage(stats: Stats, loading: bool, error: Option<string>)

  const StatsFailed: string := "Unable to load analytics right now."

  /** `loadStats`, which reports a failure in `error` and never throws. */
  function LoadStats(p: StatsPage, fetch: Fetch<Stats>): (r: StatsPage)
    ensures !r.loading
    ensures fetch.Fetched? ==> r.stats == fetch.value && r.error.None?
    ensures fetch.FetchFailed? ==> r.stats == p.stats && r.error == Some(StatsFailed)
  {
    match fetch
    case Fetched(stats) => p.(stats := stats, loading := false, error := None)
    case FetchFailed => p.(error := Some(StatsFailed), loading := false)
  }

  /** After a load settles the data area shows the fetched dashboard, or the
      failure text over whatever statistics were held before. */
  lemma LoadedStatsShown(p: StatsPage, fetch: Fetch<Stats>)
    ensures var q := LoadStats(p, fetch);
      && (fetch.Fetched? ==> View(q.loading, q.error, q.stats) == Dashboard(fetch.value))
      && (fetch.FetchFailed? ==> View(q.loading, q.error, q.stats) == ErrorNote(StatsFailed))
  {
  }
}
