/** `TaskListPage`: loading the task list, deleting a task, and what the
    table area shows. */
module TaskList {
  import opened Js
  import opened Feedback

  /** A task row; only the fields this model reasons about. */
  datatype TaskRow = TaskRow(id: string, milestone: Option<string>)

  datatype ListPage = ListPage(tasks: seq<TaskRow>, loading: bool, error: Option<string>, deletingId: Option<string>)

  const LoadFailed: string := "Unable to load tasks right now."
  const DeleteFailed: string := "Delete failed, please try again."

  /** `loadTasks`, which reports a failure in `error` and never throws. */
  function LoadTasks(p: ListPage, fetch: Fetch<seq<TaskRow>>): (r: ListPage)
    ensures !r.loading && r.deletingId == p.deletingId
    ensures fetch.Fetched? ==> r.tasks == fetch.value && r.error.None?
    ensures fetch.FetchFailed? ==> r.tasks == p.tasks && r.error == Some(LoadFailed)
  {
    match fetch
    case Fetched(tasks) => p.(tasks := tasks, error := None, loading := false)
    case FetchFailed => p.(error := Some(LoadFailed), loading := false)
  }

  datatype DeleteResult = DeleteResult(pending: ListPage, after: ListPage, requested: bool)

  /** `handleDelete(id)`: nothing unless confirmed; otherwise remove, reload,
      and release `deletingId` on every path. */
  function DeleteTask(p: ListPage, id: string, confirmed: bool, remove: Completion, reload: Fetch<seq<TaskRow>>): (r: DeleteResult)
    ensures r.requested <==> confirmed
    ensures !confirmed ==> r.after == p && r.pending == p
    ensures confirmed ==> r.pending == p.(deletingId := Some(id)) && r.after.deletingId.None?
    ensures confirmed && remove.Threw? ==> r.after == p.(error := Some(DeleteFailed), deletingId := None)
    ensures confirmed && remove.Completed? ==> r.after == LoadTasks(p, reload).(deletingId := None)
  {
    if !confirmed then DeleteResult(p, p, false)
    else
      var pending := p.(deletingId := Some(id));
      match remove
      case Completed =>
        var reloaded := LoadTasks(pending.(loading := true, error := None), reload);
        DeleteResult(pending, reloaded.(deletingId := None), true)
      case Threw(_) =>
        DeleteResult(pending, pending.(error := Some(DeleteFailed), deletingId := None), true)
  }

  /** What the table area shows. */
  datatype TableView = LoadingNote | ErrorNote(message: string) | NothingYet | Table(rows: seq<TaskRow>)

  /** `tableContent`: loading, then error, then an empty list, then the table. */
  function Content(p: ListPage): (v: TableView)
    ensures p.loading <==> v == LoadingNote
    ensures v.ErrorNote? <==> !p.loading && p.error.Some? && p.error.value != ""
    ensures v.ErrorNote? ==> v.message == p.error.value
    ensures v == NothingYet <==> !p.loading && (p.error.None? || p.error.value == "") && |p.tasks| == 0
    ensures v.Table? <==> !p.loading && (p.error.None? || p.error.value == "") && |p.tasks| > 0
    ensures v.Table? ==> v.rows == p.tasks
  {
    if p.loading then LoadingNote
    else if p.error.Some? && p.error.value != "" then ErrorNote(p.error.value)
    else if |p.tasks| == 0 then NothingYet
    else Table(p.tasks)
  }

  /** A failed delete is what the table shows once nothing is loading. */
  lemma FailedDeleteShown(p: ListPage, id: string, e: ServerError, reload: Fetch<seq<TaskRow>>)
    requires !p.loading
    ensures Content(DeleteTask(p, id, true, Threw(e), reload).after) == ErrorNote(DeleteFailed)
  {
  }

  /** A successful delete followed by a successful reload shows the reloaded
      rows, whatever error was shown before. */
  lemma DeleteThenReloadShowsRows(p: ListPage, id: string, rows: seq<TaskRow>)
    requires |rows| > 0
    ensures Content(DeleteTask(p, id, true, Completed, Fetched(rows)).after) == Table(rows)
  {
  }

  /** The Milestone column: `task.milestone || 'None'`. */
  function MilestoneLabel(m: Option<string>): (s: string)
    ensures s != ""
    ensures m.Some? && m.value != "" ==> s == m.value
    ensures m.None? || m.value == "" ==> s == "None"
  {
    OrElse(m, "None")
  }
}
