/** How the session and the route guard act together over a visitor's
    history: an empty store, a sign-in, and a forced logout. */
module Scenarios {
  import opened Js
  import opened AuthContext
  import opened ProtectedRoute
  import ManageOptions

  /** The guard evaluated against the current session. */
  function GuardOf(a: AuthState, roles: Option<seq<string>>): View {
    Guard(a.initializing, a.user, roles)
  }

  /** A browser with nothing stored: after mounting, every guarded route sends
      the visitor to the login page. */
  lemma EmptyStoreRedirectsToLogin(roles: Option<seq<string>>)
    ensures var w := Step(World(Initial, Env(true, None)), Mount);
      GuardOf(w.auth, roles) == Redirect(LoginPath)
  {
  }

  /** Before the mount effect has run, no guarded route redirects. */
  lemma NoRedirectBeforeMount(env: Env, roles: Option<seq<string>>)
    ensures GuardOf(World(Initial, env).auth, roles) == CheckingAccess
  {
  }

  /** After signing in as a plain user, the task list opens but the
      administrators' route sends the user back to the task list. */
  lemma PlainUserSignIn(w: World, data: LoginData)
    requires !w.auth.initializing && data.user.role == "user"
    ensures var a := Step(w, LoginCall(Authenticated(data))).auth;
      GuardOf(a, None) == Children && GuardOf(a, Some(["admin"])) == Redirect(TasksPath)
  {
  }

  /** Once signed in, the unauthorized window event sends every guarded route
      back to the login page on the next evaluation. */
  lemma UnauthorizedEventLogsOut(w: World, data: LoginData, roles: Option<seq<string>>)
    requires !w.auth.initializing && w.env.hasWindow
    ensures var signedIn := Step(w, LoginCall(Authenticated(data)));
      var after := Step(signedIn, WindowEvent(UnauthorizedEvent));
      GuardOf(signedIn.auth, None) == Children
      && GuardOf(after.auth, roles) == Redirect(LoginPath)
      && after.env.storage.None?
  {
  }

  /** From a state whose user and token are paired, no history of events
      ever shows a user without a token or a token without a user. */
  lemma {:induction false} HistoryKeepsPaired(w: World, events: seq<AuthEvent>)
    requires Paired(w.auth)
    ensures Paired(Run(w, events).auth)
    decreases |events|
  {
    if |events| > 0 {
      PairedInvariant(w, events[0]);
      HistoryKeepsPaired(Step(w, events[0]), events[1..]);
    }
  }

  function Run(w: World, events: seq<AuthEvent>): World
    decreases |events|
  {
    if |events| == 0 then w else Run(Step(w, events[0]), events[1..])
  }

  /** Once mounted, the guard never shows the placeholder again, whatever
      happens next. */
  lemma {:induction false} MountedStaysMounted(w: World, events: seq<AuthEvent>, roles: Option<seq<string>>)
    requires !w.auth.initializing
    ensures GuardOf(Run(w, events).auth, roles) != CheckingAccess
    decreases |events|
  {
    if |events| > 0 {
      MountedStaysMounted(Step(w, events[0]), events[1..], roles);
    }
  }

  /** Once mounted, the options screen opens its editor exactly when the
      administrators-only guard lets the visitor through. */
  lemma AdminScreenMatchesGuard(a: AuthState)
    requires !a.initializing
    ensures ManageOptions.ScreenFor(a.user) == ManageOptions.Editor <==> GuardOf(a, Some(["admin"])) == Children
  {
  }

  /** Signing in as an administrator opens the options editor; a logout or
      the unauthorized event closes it again. */
  lemma AdminScreenFollowsSession(w: World, data: LoginData)
    requires data.user.role == "admin" && w.env.hasWindow
    ensures var signedIn := Step(w, LoginCall(Authenticated(data)));
      && ManageOptions.ScreenFor(signedIn.auth.user) == ManageOptions.Editor
      && ManageOptions.ScreenFor(Step(signedIn, LogoutCall).auth.user) == ManageOptions.AdminsOnly
      && ManageOptions.ScreenFor(Step(signedIn, WindowEvent(UnauthorizedEvent)).auth.user) == ManageOptions.AdminsOnly
  {
  }
}
