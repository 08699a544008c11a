/** `ManageOptionsPage`: the admin screen that edits the four lookup lists
    and creates user accounts. */
module ManageOptions {
  import opened Js
  import opened Seqs
  import opened Feedback
  import AuthContext

  datatype LookupType = ProjectType | PersonType | MilestoneType | ActivityType

  /** The key each lookup list is stored under. */
  function Key(t: LookupType): string {
    match t
    case ProjectType => "project"
    case PersonType => "person"
    case MilestoneType => "milestone"
    case ActivityType => "activity"
  }

  datatype LookupEntry = LookupEntry(id: string, value: string)

  /** The lookup lists by key; a `None` list is a `null` the server sent. */
  type Lookups = map<string, Option<seq<LookupEntry>>>

  const DefaultLookups: Lookups :=
    map["project" := Some([]), "person" := Some([]), "milestone" := Some([]), "activity" := Some([])]

  /** `{ ...defaultLookupState, ...data }`: every key of `data` wins, the four
      default keys stay present. A missing `data` spreads to nothing. */
  function MergeLookups(data: Option<Lookups>): (r: Lookups)
    ensures forall t :: Key(t) in r
    ensures data.Some? ==> forall k :: k in data.value ==> k in r && r[k] == data.value[k]
    ensures forall k :: k in r && (data.None? || k !in data.value) ==> r[k] == Some([])
    ensures forall k :: k in r ==> k in DefaultLookups || (data.Some? && k in data.value)
  {
    DefaultLookups + data.GetOr(map[])
  }

  /** The per-type text inputs. */
  datatype Inputs = Inputs(project: string, person: string, milestone: string, activity: string)

  const EmptyInputs: Inputs := Inputs("", "", "", "")

  function InputOf(inputs: Inputs, t: LookupType): string {
    match t
    case ProjectType => inputs.project
    case PersonType => inputs.person
    case MilestoneType => inputs.milestone
    case ActivityType => inputs.activity
  }

  /** `handleChange(type, value)`: only that type's input changes. */
  function SetInput(inputs: Inputs, t: LookupType, value: string): (r: Inputs)
    ensures InputOf(r, t) == value
    ensures forall u :: u != t ==> InputOf(r, u) == InputOf(inputs, u)
  {
    match t
    case ProjectType => inputs.(project := value)
    case PersonType => inputs.(person := value)
    case MilestoneType => inputs.(milestone := value)
    case ActivityType => inputs.(activity := value)
  }

  /** An account as listed under "Existing Users". */
  datatype Account = Account(displayName: string, username: string, email: string, role: string)

  datatype UserForm = UserForm(displayName: string, username: string, email: string, password: string, role: string)

  const EmptyUserForm: UserForm := UserForm("", "", "", "", "user")

  datatype Page = Page(
    lookups: Lookups,
    inputs: Inputs,
    loading: bool,
    alert: Option<Alert>,
    savingType: Option<LookupType>,
    deletingId: Option<string>,
    users: seq<Account>,
    userForm: UserForm,
    userSaving: bool,
    userAlert: Option<Alert>)

  /** The account half of the page is as in `p`. */
  predicate AccountsUntouched(p: Page, q: Page) {
    q.users == p.users && q.userForm == p.userForm && q.userSaving == p.userSaving && q.userAlert == p.userAlert
  }

  /** The lookup half of the page is as in `p`. */
  predicate LookupsUntouched(p: Page, q: Page) {
    && q.lookups == p.lookups && q.inputs == p.inputs && q.loading == p.loading
    && q.alert == p.alert && q.savingType == p.savingType && q.deletingId == p.deletingId
  }

  const ProvideValue: string := "Please provide a value before saving."
  const Saved: string := "Saved successfully."
  const CouldNotSave: string := "Could not save value."
  const Removed: string := "Option removed successfully."
  const CouldNotDelete: string := "Could not delete value."
  const LoadFailed: string := "Unable to load current options."
  const UsersLoadFailed: string := "Unable to load users."
  const FieldsRequired: string := "Display name, username, and password are required."
  const UserCreated: string := "User created successfully."
  const CouldNotCreateUser: string := "Could not create user."

  /** `loadLookups`, which reports a failure in the alert and never throws. */
  function LoadLookups(p: Page, fetch: Fetch<Option<Lookups>>): (r: Page)
    ensures !r.loading
    ensures fetch.Fetched? ==> r.lookups == MergeLookups(fetch.value) && r.alert.None?
    ensures fetch.FetchFailed? ==> r.lookups == p.lookups && r.alert == Some(Alert(ErrorAlert, LoadFailed))
    ensures r.inputs == p.inputs && r.savingType == p.savingType && r.deletingId == p.deletingId
  {
    match fetch
    case Fetched(data) => p.(lookups := MergeLookups(data), alert := None, loading := false)
    case FetchFailed => p.(alert := Some(Alert(ErrorAlert, LoadFailed)), loading := false)
  }

  /** A request to create one lookup value. */
  datatype LookupRequest = LookupRequest(lookupType: LookupType, value: string)

  datatype SaveResult = SaveResult(pending: Page, after: Page, request: Option<LookupRequest>)

  /** `handleSubmit(type)`: refuse a blank value, otherwise send the input as
      typed (untrimmed), clear only that input on success, reload, and report. */
  function SaveLookup(p: Page, t: LookupType, create: Completion, reload: Fetch<Option<Lookups>>): (r: SaveResult)
    ensures r.request.Some? <==> !IsBlank(InputOf(p.inputs, t))
    ensures r.request.Some? ==> r.request.value == LookupRequest(t, InputOf(p.inputs, t))
    ensures r.request.None? ==>
      r.after == p.(alert := Some(Alert(ErrorAlert, ProvideValue))) && r.pending == r.after
    ensures r.request.Some? ==> r.pending.savingType == Some(t) && r.after.savingType.None?
    ensures r.request.Some? && create.Completed? ==>
      && InputOf(r.after.inputs, t) == ""
      && (forall u :: u != t ==> InputOf(r.after.inputs, u) == InputOf(p.inputs, u))
      && r.after.alert == Some(Alert(SuccessAlert, Saved))
    ensures r.request.Some? && create.Completed? ==>
      && !r.after.loading
      && (reload.Fetched? ==> r.after.lookups == MergeLookups(reload.value))
      && (reload.FetchFailed? ==> r.after.lookups == p.lookups)
    ensures r.request.Some? && create.Threw? ==>
      && r.after.inputs == p.inputs && r.after.lookups == p.lookups && r.after.loading == p.loading
      && r.after.alert == Some(Alert(ErrorAlert, MessageOr(create.error, CouldNotSave)))
    ensures AccountsUntouched(p, r.pending) && AccountsUntouched(p, r.after)
    ensures r.after.deletingId == p.deletingId
  {
    var value := InputOf(p.inputs, t);
    if IsBlank(value) then
      var after := p.(alert := Some(Alert(ErrorAlert, ProvideValue)));
      SaveResult(after, after, None)
    else
      var pending := p.(savingType := Some(t), alert := None);
      var request := Some(LookupRequest(t, value));
      match create
      case Completed =>
        var reloaded := LoadLookups(pending.(inputs := SetInput(p.inputs, t, ""), loading := true), reload);
        SaveResult(pending, reloaded.(alert := Some(Alert(SuccessAlert, Saved)), savingType := None), request)
      case Threw(e) =>
        SaveResult(pending, pending.(alert := Some(Alert(ErrorAlert, MessageOr(e, CouldNotSave))), savingType := None), request)
  }

  datatype DeleteResult = DeleteResult(pending: Page, after: Page, requested: bool)

  /** `handleDelete(id)`: nothing unless the confirmation is accepted;
      otherwise delete, reload and report, and release `deletingId`. */
  function DeleteLookup(p: Page, id: string, confirmed: bool, remove: Completion, reload: Fetch<Option<Lookups>>): (r: DeleteResult)
    ensures r.requested <==> confirmed
    ensures !confirmed ==> r.pending == p && r.after == p
    ensures confirmed ==> r.pending.deletingId == Some(id) && r.after.deletingId.None?
    ensures confirmed && remove.Completed? ==>
      && r.after.alert == Some(Alert(SuccessAlert, Removed)) && !r.after.loading
      && (reload.Fetched? ==> r.after.lookups == MergeLookups(reload.value))
      && (reload.FetchFailed? ==> r.after.lookups == p.lookups)
    ensures confirmed && remove.Threw? ==>
      && r.after.lookups == p.lookups && r.after.loading == p.loading
      && r.after.alert == Some(Alert(ErrorAlert, MessageOr(remove.error, CouldNotDelete)))
    ensures r.after.inputs == p.inputs && r.after.savingType == p.savingType
    ensures AccountsUntouched(p, r.pending) && AccountsUntouched(p, r.after)
  {
    if !confirmed then DeleteResult(p, p, false)
    else
      var pending := p.(deletingId := Some(id), alert := None);
      match remove
      case Completed =>
        var reloaded := LoadLookups(pending.(loading := true), reload);
        DeleteResult(pending, reloaded.(alert := Some(Alert(SuccessAlert, Removed)), deletingId := None), true)
      case Threw(e) =>
        DeleteResult(pending, pending.(alert := Some(Alert(ErrorAlert, MessageOr(e, CouldNotDelete))), deletingId := None), true)
  }

  datatype UserField = DisplayNameField | UsernameField | EmailField | PasswordField | RoleField

  function UserValue(f: UserForm, field: UserField): string {
    match field
    case DisplayNameField => f.displayName
    case UsernameField => f.username
    case EmailField => f.email
    case PasswordField => f.password
    case RoleField => f.role
  }

  /** `handleUserInputChange`: exactly the named field of the account form
      takes the new value. */
  function SetUserField(f: UserForm, field: UserField, value: string): (r: UserForm)
    ensures UserValue(r, field) == value
    ensures forall g :: g != field ==> UserValue(r, g) == UserValue(f, g)
  {
    match field
    case DisplayNameField => f.(displayName := value)
    case UsernameField => f.(username := value)
    case EmailField => f.(email := value)
    case PasswordField => f.(password := value)
    case RoleField => f.(role := value)
  }

  /** The body sent to create an account; a `None` email is `undefined`. */
  datatype NewAccount = NewAccount(displayName: string, username: string, email: Option<string>, password: string, role: string)

  predicate AccountFormComplete(f: UserForm) {
    !IsBlank(f.displayName) && !IsBlank(f.username) && !IsBlank(f.password)
  }

  /** `loadUsers`, which reports a failure in the user alert and never throws. */
  function LoadUsers(p: Page, fetch: Fetch<seq<Account>>): (r: Page)
    ensures fetch.Fetched? ==> r == p.(users := fetch.value)
    ensures fetch.FetchFailed? ==> r == p.(userAlert := Some(Alert(ErrorAlert, UsersLoadFailed)))
  {
    match fetch
    case Fetched(users) => p.(users := users)
    case FetchFailed => p.(userAlert := Some(Alert(ErrorAlert, UsersLoadFailed)))
  }

  datatype CreateUserResult = CreateUserResult(pending: Page, after: Page, request: Option<NewAccount>)

  /** `handleCreateUser`: require a non-blank display name, username and
      password; send the fields as typed with an empty email left out; reset
      the form on success. */
  function CreateUser(p: Page, create: Completion, reload: Fetch<seq<Account>>): (r: CreateUserResult)
    ensures r.request.Some? <==> AccountFormComplete(p.userForm)
    ensures r.request.Some? ==>
      var f := p.userForm;
      && r.request.value == NewAccount(f.displayName, f.username, NonEmpty(f.email), f.password, f.role)
      && r.pending.userSaving && !r.after.userSaving
    ensures r.request.None? ==>
      r.after == p.(userAlert := Some(Alert(ErrorAlert, FieldsRequired))) && r.pending == r.after
    ensures r.request.Some? && create.Completed? ==>
      r.after.userForm == EmptyUserForm && r.after.userAlert == Some(Alert(SuccessAlert, UserCreated))
    ensures r.request.Some? && create.Completed? && reload.Fetched? ==> r.after.users == reload.value
    ensures r.request.Some? && create.Completed? && reload.FetchFailed? ==> r.after.users == p.users
    ensures r.request.Some? && create.Threw? ==>
      && r.after.userForm == p.userForm && r.after.users == p.users
      && r.after.userAlert == Some(Alert(ErrorAlert, MessageOr(create.error, CouldNotCreateUser)))
    ensures LookupsUntouched(p, r.pending) && LookupsUntouched(p, r.after)
  {
    var f := p.userForm;
    if !AccountFormComplete(f) then
      var after := p.(userAlert := Some(Alert(ErrorAlert, FieldsRequired)));
      CreateUserResult(after, after, None)
    else
      var pending := p.(userSaving := true, userAlert := None);
      var request := Some(NewAccount(f.displayName, f.username, NonEmpty(f.email), f.password, f.role));
      match create
      case Completed =>
        var reloaded := LoadUsers(pending.(userForm := EmptyUserForm), reload);
        CreateUserResult(pending, reloaded.(userAlert := Some(Alert(SuccessAlert, UserCreated)), userSaving := false), request)
      case Threw(e) =>
        var msg := MessageOr(e, CouldNotCreateUser);
        CreateUserResult(pending, pending.(userAlert := Some(Alert(ErrorAlert, msg)), userSaving := false), request)
  }

  /** A value made only of whitespace is refused however the other inputs
      look, and no request is made. */
  lemma WhitespaceValueRefused(p: Page, t: LookupType, create: Completion, reload: Fetch<Option<Lookups>>)
    requires forall k :: 0 <= k < |InputOf(p.inputs, t)| ==> IsWhitespace(InputOf(p.inputs, t)[k])
    ensures SaveLookup(p, t, create, reload).request.None?
    ensures SaveLookup(p, t, create, reload).after.alert == Some(Alert(ErrorAlert, ProvideValue))
  {
    BlankIffAllWhitespace(InputOf(p.inputs, t));
  }

  /** A display name made only of whitespace is refused whatever the other
      fields hold, and no account is requested. */
  lemma BlankNameRefused(p: Page, create: Completion, reload: Fetch<seq<Account>>)
    requires forall k :: 0 <= k < |p.userForm.displayName| ==> IsWhitespace(p.userForm.displayName[k])
    ensures CreateUser(p, create, reload).request.None?
    ensures CreateUser(p, create, reload).after.userAlert == Some(Alert(ErrorAlert, FieldsRequired))
  {
    BlankIffAllWhitespace(p.userForm.displayName);
  }

  /** A successful create resets the form, so pressing the button again
      straight away requests nothing. */
  lemma SecondCreateRefused(p: Page, reload: Fetch<seq<Account>>, create2: Completion, reload2: Fetch<seq<Account>>)
    requires AccountFormComplete(p.userForm)
    ensures var first := CreateUser(p, Completed, reload);
      CreateUser(first.after, create2, reload2).request.None?
  {
    var first := CreateUser(p, Completed, reload);
    assert first.after.userForm.displayName == "";
    assert Trim("") == "";
  }

  /** A failed delete leaves every "Recently added" box as it was; a
      successful one shows what the reload returned. */
  lemma DeleteAndRecentBoxes(p: Page, id: string, remove: Completion, reload: Fetch<Option<Lookups>>, t: LookupType)
    ensures var after := DeleteLookup(p, id, true, remove, reload).after;
      && (remove.Threw? ==> RecentBoxFor(after.lookups, t) == RecentBoxFor(p.lookups, t))
      && (remove.Completed? && reload.Fetched? ==>
            RecentBoxFor(after.lookups, t) == RecentBoxFor(MergeLookups(reload.value), t))
  {
  }

  /** The screen for the signed-in user: the editor only for administrators. */
  datatype Screen = AdminsOnly | Editor

  function ScreenFor(user: Option<AuthContext.User>): (s: Screen)
    ensures s == Editor <==> user.Some? && user.value.role == "admin"
  {
    if user.Some? && user.value.role == "admin" then Editor else AdminsOnly
  }

  const RecentCount: nat := 8

  /** `list.slice(-8).reverse()`: the newest eight entries, newest first. */
  function RecentlyAdded<T>(entries: seq<T>): (r: seq<T>)
    ensures |r| == Min(RecentCount, |entries|)
    ensures forall i :: 0 <= i < |r| ==> r[i] == entries[|entries| - 1 - i]
  {
    Reverse(TakeLast(entries, RecentCount))
  }

  /** What the "Recently added" box of one lookup type shows. */
  datatype RecentBox = NoValuesYet | Recent(entries: seq<LookupEntry>)

  function RecentBoxFor(lookups: Lookups, t: LookupType): (b: RecentBox)
    ensures b.NoValuesYet? <==>
      Key(t) !in lookups || lookups[Key(t)].None? || |lookups[Key(t)].value| == 0
    ensures b.Recent? ==> b.entries == RecentlyAdded(lookups[Key(t)].value) && |b.entries| > 0
  {
    if Key(t) in lookups && lookups[Key(t)].Some? && |lookups[Key(t)].value| > 0
    then Recent(RecentlyAdded(lookups[Key(t)].value))
    else NoValuesYet
  }

  /** The newest entry is listed first, and an entry listed is among the
      newest eight. */
  lemma RecentNewestFirst<T>(entries: seq<T>, i: nat)
    requires i < |RecentlyAdded(entries)|
    ensures RecentlyAdded(entries)[0] == entries[|entries| - 1]
    ensures RecentlyAdded(entries)[i] in entries[|entries| - Min(RecentCount, |entries|)..]
  {
    var r := RecentlyAdded(entries);
    var k := |entries| - 1 - i;
    assert r[i] == entries[k];
    assert entries[|entries| - Min(RecentCount, |entries|)..][k - (|entries| - Min(RecentCount, |entries|))] == entries[k];
  }
}
