/** `LoginPage`: the sign-in form, its check for empty fields, and what a
    submit does through the session's `login`. */
module LoginPage {
  import opened Js
  import opened Feedback
  import opened AuthContext
  import ProtectedRoute

  datatype LoginForm = LoginForm(identifier: string, password: string)

  const MissingFields: string := "Please enter your username/email and password."
  const LoginFailed: string := "Login failed. Check your credentials."

  /** `pending`/`world` are the session while the request is awaited and once
      the submit settles; `error` the banner; `navigateTo` the replace-navigation
      made, if any; `called` whether `login` was called. */
  datatype SubmitResult = SubmitResult(pending: World, world: World, error: Option<string>, navigateTo: Option<string>, called: bool)

  /** `handleSubmit`: refuse an empty field without calling `login`; otherwise
      log in, go to the task list on success, show the server's message (or the
      default text) on failure. */
  function Submit(form: LoginForm, w: World, outcome: AuthOutcome): (r: SubmitResult)
    ensures r.called <==> form.identifier != "" && form.password != ""
    ensures !r.called ==> r.world == w && r.pending == w && r.error == Some(MissingFields) && r.navigateTo.None?
    ensures r.called ==> r.pending == Login(w, outcome).pending && r.world == Login(w, outcome).world
    ensures r.called && outcome.Authenticated? ==> r.navigateTo == Some(ProtectedRoute.TasksPath) && r.error.None?
    ensures r.called && outcome.Rejected? ==>
      r.navigateTo.None? && r.error == Some(MessageOr(outcome.error, LoginFailed))
  {
    if form.identifier == "" || form.password == "" then
      SubmitResult(w, w, Some(MissingFields), None, false)
    else
      var res := Login(w, outcome);
      match res.returned
      case Success(_) => SubmitResult(res.pending, res.world, None, Some(ProtectedRoute.TasksPath), true)
      case Failure(e) => SubmitResult(res.pending, res.world, Some(MessageOr(e, LoginFailed)), None, true)
  }

  /** The effect on `user`: a signed-in visitor is sent on to the task list. */
  function RedirectFor(user: Option<User>): (to: Option<string>)
    ensures to.Some? <==> user.Some?
    ensures to.Some? ==> to.value == ProtectedRoute.TasksPath
  {
    if user.Some? then Some(ProtectedRoute.TasksPath) else None
  }

  /** The submit button is disabled while a login is in flight. */
  function SubmitDisabled(a: AuthState): (disabled: bool)
    ensures disabled <==> a.authLoading
  {
    a.authLoading
  }

  /** While the request is awaited the button is disabled; once it settles,
      success or failure, it is enabled again. */
  lemma ButtonDuringLogin(form: LoginForm, w: World, outcome: AuthOutcome)
    requires form.identifier != "" && form.password != ""
    ensures SubmitDisabled(Submit(form, w, outcome).pending.auth)
    ensures !SubmitDisabled(Submit(form, w, outcome).world.auth)
  {
  }

  /** A successful sign-in leaves the page with a user, so the redirect effect
      agrees with the navigation the submit made. */
  lemma SignedInRedirects(form: LoginForm, w: World, data: LoginData)
    requires form.identifier != "" && form.password != ""
    ensures var r := Submit(form, w, Authenticated(data));
      RedirectFor(r.world.auth.user) == r.navigateTo
  {
  }

  /** A rejected sign-in leaves user, token and storage as they were. */
  lemma RejectedKeepsSession(form: LoginForm, w: World, e: ServerError)
    ensures var r := Submit(form, w, Rejected(e));
      r.world.auth.user == w.auth.user && r.world.auth.token == w.auth.token && r.world.env == w.env
  {
  }
}
