/** The session held by `AuthProvider`: the signed-in user and token, the
    `initializing` flag of the first read of persistent storage, and the
    `authLoading` flag of a login in flight, together with the copy of the
    session kept in browser storage. */
module AuthContext {
  import opened Js
  import opened Feedback

  /** The user object the authentication endpoint returns. */
  datatype User = User(id: string, displayName: string, username: string, role: string)

  /** What `JSON.parse` makes of the text stored under the session key. The
      JSON text itself is not modelled, only its parse. */
  datatype Stored =
    | Blank                                          // '' — skipped by `if (stored)`
    | Malformed                                      // `JSON.parse` throws
    | Parsed(token: Option<string>, user: Option<User>)

  /** The platform the provider runs on: whether a `window` exists, and the
      item stored under the session key, if any. */
  datatype Env = Env(hasWindow: bool, storage: Option<Stored>)

  /** The `{ token, user }` body of a successful login response. */
  datatype LoginData = LoginData(token: string, user: User)

  /** The values the provider exposes through the context. */
  datatype AuthState = AuthState(user: Option<User>, token: Option<string>, initializing: bool, authLoading: bool)

  datatype World = World(auth: AuthState, env: Env)

  /** The state before the mount effect has run. */
  const Initial: AuthState := AuthState(None, None, true, false)

  /** The name of the window event that forces a logout. */
  const UnauthorizedEvent: string := "workmanager:unauthorized"

  /** A stored value the mount effect adopts: `parsed?.token && parsed?.user`. */
  predicate Adoptable(s: Stored) {
    s.Parsed? && s.token.Some? && s.token.value != "" && s.user.Some?
  }

  /** The user and token are set together or not at all. */
  predicate Paired(a: AuthState) {
    a.user.Some? <==> a.token.Some?
  }

  datatype InitResult = InitResult(world: World, warned: bool)

  /** The mount effect: read the stored session, adopt it when it carries both
      a token and a user, swallow a parse failure with a warning, and end
      `initializing` on every path. */
  function Initialize(w: World): (r: InitResult)
    ensures !r.world.auth.initializing
    ensures r.world.env == w.env && r.world.auth.authLoading == w.auth.authLoading
    ensures var e := w.env;
      if e.hasWindow && e.storage.Some? && Adoptable(e.storage.value)
      then r.world.auth.user == e.storage.value.user && r.world.auth.token == e.storage.value.token
      else r.world.auth.user == w.auth.user && r.world.auth.token == w.auth.token
    ensures r.warned <==> w.env.hasWindow && w.env.storage == Some(Malformed)
  {
    var a := w.auth.(initializing := false);
    if !w.env.hasWindow then InitResult(World(a, w.env), false)
    else match w.env.storage
      case None => InitResult(World(a, w.env), false)
      case Some(Blank) => InitResult(World(a, w.env), false)
      case Some(Malformed) => InitResult(World(a, w.env), true)
      case Some(Parsed(token, user)) =>
        if token.Some? && token.value != "" && user.Some?
        then InitResult(World(a.(user := user, token := token), w.env), false)
        else InitResult(World(a, w.env), false)
  }

  /** The session a page reload would reconstruct from `env`. */
  function Restored(env: Env): (Option<User>, Option<string>) {
    var a := Initialize(World(Initial, env)).world.auth;
    (a.user, a.token)
  }

  /** `persistSession(data)`: what `JSON.stringify(data)` parses back to. */
  function Serialize(data: LoginData): (s: Stored)
    ensures Adoptable(s) <==> data.token != ""
  {
    Parsed(Some(data.token), Some(data.user))
  }

  function PersistSession(env: Env, data: LoginData): (r: Env)
    ensures r.hasWindow == env.hasWindow
    ensures env.hasWindow ==> r.storage == Some(Serialize(data))
    ensures !env.hasWindow ==> r == env
  {
    if env.hasWindow then env.(storage := Some(Serialize(data))) else env
  }

  function ClearSession(env: Env): (r: Env)
    ensures r.hasWindow == env.hasWindow
    ensures env.hasWindow ==> r.storage.None?
    ensures !env.hasWindow ==> r == env
  {
    if env.hasWindow then env.(storage := None) else env
  }

  /** What the authentication endpoint does with the credentials. */
  datatype AuthOutcome = Authenticated(data: LoginData) | Rejected(error: ServerError)

  /** `pending` is the world while the request is awaited, `world` the world
      after `login` settles, `returned` what the returned promise settles to. */
  datatype LoginResult = LoginResult(pending: World, world: World, returned: Result<LoginData, ServerError>)

  function Login(w: World, outcome: AuthOutcome): (r: LoginResult)
    ensures r.pending == World(w.auth.(authLoading := true), w.env)
    ensures !r.world.auth.authLoading && r.world.auth.initializing == w.auth.initializing
    ensures outcome.Authenticated? ==>
      && r.world.auth.user == Some(outcome.data.user)
      && r.world.auth.token == Some(outcome.data.token)
      && r.world.env == PersistSession(w.env, outcome.data)
      && r.returned == Success(outcome.data)
    ensures outcome.Rejected? ==>
      && r.world == World(w.auth.(authLoading := false), w.env)
      && r.returned == Failure(outcome.error)
  {
    var pending := World(w.auth.(authLoading := true), w.env);
    match outcome
    case Authenticated(data) =>
      var a := pending.auth.(user := Some(data.user), token := Some(data.token));
      LoginResult(pending, World(a.(authLoading := false), PersistSession(w.env, data)), Success(data))
    case Rejected(e) =>
      LoginResult(pending, World(pending.auth.(authLoading := false), w.env), Failure(e))
  }

  function Logout(w: World): (r: World)
    ensures r.auth.user.None? && r.auth.token.None?
    ensures r.auth.initializing == w.auth.initializing && r.auth.authLoading == w.auth.authLoading
    ensures r.env == ClearSession(w.env)
  {
    World(w.auth.(user := None, token := None), ClearSession(w.env))
  }

  /** Logging out twice is logging out once. */
  lemma LogoutIdempotent(w: World)
    ensures Logout(Logout(w)) == Logout(w)
  {
  }

  /** A window event reaching the provider: only the unauthorized event is
      listened for, and only where a window exists. */
  function OnWindowEvent(w: World, name: string): (r: World)
    ensures w.env.hasWindow && name == UnauthorizedEvent ==> r == Logout(w)
    ensures !(w.env.hasWindow && name == UnauthorizedEvent) ==> r == w
  {
    if w.env.hasWindow && name == UnauthorizedEvent then Logout(w) else w
  }

  /** Everything that can happen to the session. */
  datatype AuthEvent = Mount | LoginCall(outcome: AuthOutcome) | LogoutCall | WindowEvent(name: string)

  function Step(w: World, e: AuthEvent): World {
    match e
    case Mount => Initialize(w).world
    case LoginCall(outcome) => Login(w, outcome).world
    case LogoutCall => Logout(w)
    case WindowEvent(name) => OnWindowEvent(w, name)
  }

  /** No event leaves the user set without the token or the token without the
      user. */
  lemma PairedInvariant(w: World, e: AuthEvent)
    requires Paired(w.auth)
    ensures Paired(Step(w, e).auth)
  {
  }

  /** The stored copy agrees with memory: a reload would bring back exactly
      the session the provider currently holds. */
  predicate Durable(w: World) {
    w.env.hasWindow ==> Restored(w.env) == (w.auth.user, w.auth.token)
  }

  /** After the mount effect, memory and storage agree. */
  lemma MountMakesDurable(env: Env)
    ensures Durable(Step(World(Initial, env), Mount))
  {
  }

  /** Every event keeps memory and storage in agreement, provided a login
      never succeeds with an empty token (which the mount effect would refuse
      to adopt; see `EmptyTokenNotRestored`). */
  lemma DurableInvariant(w: World, e: AuthEvent)
    requires Durable(w)
    requires e.LoginCall? && e.outcome.Authenticated? ==> e.outcome.data.token != ""
    ensures Durable(Step(w, e))
  {
    match e
    case Mount =>
    case LoginCall(outcome) =>
    case LogoutCall =>
    case WindowEvent(name) =>
  }

  /** A login whose response carries an empty token is held in memory but
      would not survive a reload. */
  lemma EmptyTokenNotRestored(w: World, user: User)
    requires w.env.hasWindow
    ensures var after := Login(w, Authenticated(LoginData("", user))).world;
      after.auth.user == Some(user) && Restored(after.env) == (None, None)
  {
  }

  /** A successful login followed by a reload restores the same session. */
  lemma LoginSurvivesReload(w: World, data: LoginData)
    requires w.env.hasWindow && data.token != ""
    ensures var after := Login(w, Authenticated(data)).world;
      Initialize(World(Initial, after.env)).world.auth
        == AuthState(Some(data.user), Some(data.token), false, false)
  {
  }
}
