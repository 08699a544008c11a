/** `AddTaskPage`: the create/edit task form, how a fetched task fills it,
    and how the form is normalised into the payload sent to the server. */
module AddTask {
  import opened Js
  import opened Seqs
  import opened Feedback
  import ProtectedRoute

  datatype TaskField =
    | NameField | WorkDateField | PersonField | ProjectField | MilestoneField
    | ActivityField | PlannedStartField | PlannedEndField | ActualStartField | ActualEndField

  /** The form's ten text fields. */
  datatype TaskForm = TaskForm(
    name: string, workDate: string, person: string, project: string, milestone: string,
    genericActivity: string, plannedStart: string, plannedEnd: string, actualStart: string, actualEnd: string)

  const NoMilestone: string := "None"

  /** `initialForm`, with today's date as a parameter. */
  function InitialForm(today: string): TaskForm {
    TaskForm("", today, "", "", NoMilestone, "", "", "", "", "")
  }

  function Value(f: TaskForm, field: TaskField): string {
    match field
    case NameField => f.name
    case WorkDateField => f.workDate
    case PersonField => f.person
    case ProjectField => f.project
    case MilestoneField => f.milestone
    case ActivityField => f.genericActivity
    case PlannedStartField => f.plannedStart
    case PlannedEndField => f.plannedEnd
    case ActualStartField => f.actualStart
    case ActualEndField => f.actualEnd
  }

  /** `handleChange`: exactly the named field takes the new value. */
  function Edit(f: TaskForm, field: TaskField, value: string): (r: TaskForm)
    ensures Value(r, field) == value
    ensures forall g :: g != field ==> Value(r, g) == Value(f, g)
  {
    match field
    case NameField => f.(name := value)
    case WorkDateField => f.(workDate := value)
    case PersonField => f.(person := value)
    case ProjectField => f.(project := value)
    case MilestoneField => f.(milestone := value)
    case ActivityField => f.(genericActivity := value)
    case PlannedStartField => f.(plannedStart := value)
    case PlannedEndField => f.(plannedEnd := value)
    case ActualStartField => f.(actualStart := value)
    case ActualEndField => f.(actualEnd := value)
  }

  /** A task as fetched for editing; `None` is a null or missing field. */
  datatype TaskRecord = TaskRecord(
    name: Option<string>, workDate: Option<string>, person: Option<string>, project: Option<string>,
    milestone: Option<string>, genericActivity: Option<string>, plannedStart: Option<string>,
    plannedEnd: Option<string>, actualStart: Option<string>, actualEnd: Option<string>)

  /** `value ?? default`. */
  function OrDefault(v: Option<string>, default: string): string {
    v.GetOr(default)
  }

  /** `value ? format(value) : default`, the date formatter being a parameter. */
  function DateOr(v: Option<string>, format: string -> string, default: string): (r: string)
    ensures v.None? || v.value == "" ==> r == default
    ensures v.Some? && v.value != "" ==> r == format(v.value)
  {
    if v.Some? && v.value != "" then format(v.value) else default
  }

  /** The form filled from a fetched task: a missing text field takes the
      initial form's value, a present one is kept as is (even when empty), and
      a present date is formatted. */
  function FormFromTask(t: TaskRecord, today: string, format: string -> string): (r: TaskForm)
    ensures var init := InitialForm(today);
      && (t.name.None? ==> r.name == init.name) && (t.name.Some? ==> r.name == t.name.value)
      && (t.person.None? ==> r.person == init.person) && (t.person.Some? ==> r.person == t.person.value)
      && (t.project.None? ==> r.project == init.project) && (t.project.Some? ==> r.project == t.project.value)
      && (t.milestone.None? ==> r.milestone == init.milestone) && (t.milestone.Some? ==> r.milestone == t.milestone.value)
      && (t.genericActivity.None? ==> r.genericActivity == init.genericActivity)
      && (t.genericActivity.Some? ==> r.genericActivity == t.genericActivity.value)
    ensures r.workDate == DateOr(t.workDate, format, today)
    ensures r.plannedStart == DateOr(t.plannedStart, format, "") && r.plannedEnd == DateOr(t.plannedEnd, format, "")
    ensures r.actualStart == DateOr(t.actualStart, format, "") && r.actualEnd == DateOr(t.actualEnd, format, "")
  {
    TaskForm(
      OrDefault(t.name, ""),
      DateOr(t.workDate, format, today),
      OrDefault(t.person, ""),
      OrDefault(t.project, ""),
      OrDefault(t.milestone, NoMilestone),
      OrDefault(t.genericActivity, ""),
      DateOr(t.plannedStart, format, ""),
      DateOr(t.plannedEnd, format, ""),
      DateOr(t.actualStart, format, ""),
      DateOr(t.actualEnd, format, ""))
  }

  /** A task with every field missing fills the form exactly as a new task. */
  lemma EmptyTaskGivesInitialForm(today: string, format: string -> string)
    ensures FormFromTask(TaskRecord(None, None, None, None, None, None, None, None, None, None), today, format)
      == InitialForm(today)
  {
  }

  /** The page's state: the form, the two load flags, the save flag and the
      alert. */
  datatype TaskPage = TaskPage(form: TaskForm, loading: bool, taskLoading: bool, saving: bool, alert: Option<Alert>)

  /** `isFormDisabled`. */
  function FormDisabled(p: TaskPage): (disabled: bool)
    ensures disabled <==> p.loading || p.taskLoading || p.saving
  {
    p.loading || p.taskLoading || p.saving
  }

  /** The body sent to create or update a task; a `None` date is `null`. */
  datatype TaskPayload = TaskPayload(
    name: string, workDate: string, person: string, project: string, milestone: string,
    genericActivity: string, plannedStart: Option<string>, plannedEnd: Option<string>,
    actualStart: Option<string>, actualEnd: Option<string>)

  /** The submit payload: four text fields trimmed, an empty milestone sent as
      'None', each empty date sent as null, the work date as is. */
  function ToPayload(f: TaskForm): (p: TaskPayload)
    ensures p.name == Trim(f.name) && p.person == Trim(f.person)
    ensures p.project == Trim(f.project) && p.genericActivity == Trim(f.genericActivity)
    ensures p.workDate == f.workDate
    ensures p.milestone == OrElse(Some(f.milestone), NoMilestone) && p.milestone != ""
    ensures p.plannedStart == NonEmpty(f.plannedStart) && p.plannedEnd == NonEmpty(f.plannedEnd)
    ensures p.actualStart == NonEmpty(f.actualStart) && p.actualEnd == NonEmpty(f.actualEnd)
  {
    TaskPayload(
      Trim(f.name), f.workDate, Trim(f.person), Trim(f.project),
      if f.milestone == "" then NoMilestone else f.milestone,
      Trim(f.genericActivity),
      NonEmpty(f.plannedStart), NonEmpty(f.plannedEnd),
      NonEmpty(f.actualStart), NonEmpty(f.actualEnd))
  }

  /** The form a payload would be edited as: a null date becomes ''. */
  function FormOf(p: TaskPayload): TaskForm {
    TaskForm(
      p.name, p.workDate, p.person, p.project, p.milestone, p.genericActivity,
      p.plannedStart.GetOr(""), p.plannedEnd.GetOr(""), p.actualStart.GetOr(""), p.actualEnd.GetOr(""))
  }

  /** Normalisation is idempotent: re-submitting a payload's own form sends the
      same payload. */
  lemma PayloadRoundTrip(f: TaskForm)
    ensures ToPayload(FormOf(ToPayload(f))) == ToPayload(f)
  {
    var p := ToPayload(f);
    PayloadNormalised(f);
    var q := ToPayload(FormOf(p));
    assert q.name == p.name && q.person == p.person;
    assert q.project == p.project && q.genericActivity == p.genericActivity;
    assert q.milestone == p.milestone && q.workDate == p.workDate;
    assert q.plannedStart == p.plannedStart && q.plannedEnd == p.plannedEnd;
    assert q.actualStart == p.actualStart && q.actualEnd == p.actualEnd;
  }

  /** A payload's text fields carry no surrounding whitespace and its
      milestone is never empty. */
  lemma PayloadNormalised(f: TaskForm)
    ensures var p := ToPayload(f);
      && Trim(p.name) == p.name && Trim(p.person) == p.person
      && Trim(p.project) == p.project && Trim(p.genericActivity) == p.genericActivity
      && p.milestone != ""
  {
    TrimIdempotent(f.name);
    TrimIdempotent(f.person);
    TrimIdempotent(f.project);
    TrimIdempotent(f.genericActivity);
  }

  const TaskUpdated: string := "Task updated successfully."
  const TaskSaved: string := "Task saved successfully."
  const SaveFailed: string := "Something went wrong."

  /** `pending`/`after` are the page while the request is awaited and once it
      settles; `payload` the body sent; `navigateTo` the navigation made. */
  datatype SaveTaskResult = SaveTaskResult(pending: TaskPage, after: TaskPage, payload: TaskPayload, navigateTo: Option<string>)

  /** `handleSubmit`: send the normalised form (an update when editing, a
      create otherwise); on success report it and go to the task list, on
      failure show the server's message or the default text. */
  function SaveTask(p: TaskPage, editing: bool, outcome: Completion): (r: SaveTaskResult)
    ensures r.payload == ToPayload(p.form)
    ensures r.pending == p.(saving := true, alert := None)
    ensures r.after.form == p.form && r.after.loading == p.loading && r.after.taskLoading == p.taskLoading
    ensures !r.after.saving
    ensures outcome.Completed? ==>
      && r.navigateTo == Some(ProtectedRoute.TasksPath)
      && r.after.alert == Some(Alert(SuccessAlert, if editing then TaskUpdated else TaskSaved))
    ensures outcome.Threw? ==>
      && r.navigateTo.None?
      && r.after.alert == Some(Alert(ErrorAlert, MessageOr(outcome.error, SaveFailed)))
  {
    var pending := p.(alert := None, saving := true);
    var payload := ToPayload(p.form);
    match outcome
    case Completed =>
      var message := if editing then TaskUpdated else TaskSaved;
      SaveTaskResult(pending, pending.(alert := Some(Alert(SuccessAlert, message)), saving := false), payload, Some(ProtectedRoute.TasksPath))
    case Threw(e) =>
      SaveTaskResult(pending, pending.(alert := Some(Alert(ErrorAlert, MessageOr(e, SaveFailed))), saving := false), payload, None)
  }

  /** A save locks the form while it is awaited; once it settles the form is
      locked again only if a load is still running, and a failed save leaves
      the form as typed for another attempt. */
  lemma SaveLocksForm(p: TaskPage, editing: bool, outcome: Completion)
    ensures FormDisabled(SaveTask(p, editing, outcome).pending)
    ensures FormDisabled(SaveTask(p, editing, outcome).after) <==> p.loading || p.taskLoading
    ensures outcome.Threw? ==> SaveTask(p, editing, outcome).after.form == p.form
  {
  }

  /** A milestone the dropdown lists after its own 'None' option. */
  predicate OtherMilestone(m: JsValue) {
    m != JsString(NoMilestone)
  }

  /** The milestone dropdown: a fixed 'None' option, then every other
      milestone in the list's order (the list's own 'None' entries dropped). */
  function MilestoneChoices(milestones: seq<JsValue>): (r: seq<JsValue>)
    ensures |r| > 0 && r[0] == JsString(NoMilestone)
    ensures r[1..] == Filter(milestones, OtherMilestone)
    ensures multiset(r)[JsString(NoMilestone)] == 1
    ensures forall m :: m != JsString(NoMilestone) ==> multiset(r)[m] == multiset(milestones)[m]
    ensures forall m :: m in r <==> m == JsString(NoMilestone) || m in milestones
  {
    var rest := Filter(milestones, OtherMilestone);
    assert JsString(NoMilestone) !in rest;
    [JsString(NoMilestone)] + rest
  }

  /** Appending milestones to the list appends their choices, in order,
      after the choices already offered. */
  lemma MilestoneChoicesAppend(milestones: seq<JsValue>, more: seq<JsValue>)
    ensures MilestoneChoices(milestones + more) == MilestoneChoices(milestones) + Filter(more, OtherMilestone)
  {
    FilterAppend(milestones, more, OtherMilestone);
    SameHeadAppend(MilestoneChoices(milestones), MilestoneChoices(milestones + more), Filter(more, OtherMilestone));
  }
}
