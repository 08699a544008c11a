# Work Manager front end — a Dafny model of its session and form logic

Work Manager is a single-page task tracker. Its pages log work items, list and
filter them, chart statistics, and let administrators manage lookup lists and
accounts. Most of the code renders markup and forwards HTTP calls. This project
models the parts that make decisions, as pure functions over immutable
datatypes:

- **The session** (`AuthContext`). The provider holds `user`, `token`,
  `initializing` and `authLoading`. On mount it reads the stored session, and
  it adopts that session only when both `token` and `user` are truthy. A parse
  failure is swallowed with a warning. `login` goes through an authenticator
  that either succeeds with `{ token, user }` or fails. `logout` clears memory
  and storage. The `workmanager:unauthorized` window event triggers `logout`.
  Browser storage holds the parse of the stored JSON text (`Stored`), and the
  authenticator's answer is a parameter (`AuthOutcome`).
- **The route guard** (`ProtectedRoute`). It chooses one of four views: the
  "checking access" placeholder, a redirect to `/login`, a redirect to
  `/tasks`, or the protected content.
- **The forms and their ordered checks.** These are the password-change modal,
  the admin screen's lookup and account forms, the login form, and the task
  form's payload normalisation.
- **`buildOptions`.** This dropdown merge is defined identically in three
  pages. It is modelled once, in `Options`, over JavaScript values with
  JavaScript truthiness.
- **Small view decisions.** These are the filter bar's draft and apply model,
  the order in which the loading, error, empty and data views take precedence,
  the analytics pie and detail-table sources, and the "recently added" list.

Asynchronous handlers are modelled as records: the state while the request is
awaited (`pending`), the state once it settles (`after` or `world`), and the
request sent, if any. Each server call's outcome is a parameter: `Completion`,
`Fetch<T>` or `AuthOutcome`. So is the answer to `window.confirm`. Strings are
sequences of characters, with `length` taken as the number of characters.
`trim` removes exactly the characters ECMAScript classes as WhiteSpace or
LineTerminator.

Three behaviours of the code are worth knowing before reading the lemmas:

- A login whose response has an empty token is held in memory, but the mount
  effect refuses to adopt it after a reload
  (`AuthContext.EmptyTokenNotRestored`). So memory and storage agree only for
  non-empty tokens (`AuthContext.DurableInvariant`).
- `login` may be called in any state. Nothing guards against an overlapping
  call.
- In the route guard, an empty `roles` list admits every role. So adding roles
  to an empty list can take access away, and
  `ProtectedRoute.WiderRolesKeepAccess` is stated for a non-empty list.

## Model

| member | source | states |
|---|---|---|
| `Js.Trim` | src/pages/AddTaskPage.jsx:127-132 | `trim` returns a contiguous middle of the input. Everything cut from either end is whitespace, and the result starts and ends with non-whitespace (or is empty). |
| `Seqs.Strip` | src/pages/AddTaskPage.jsx:127-132 | Removing the elements a test holds for at both ends leaves one contiguous slice, with the test holding everywhere outside it and at neither of its ends. `Js.Trim` is this with the ECMAScript whitespace test. |
| `Js.BlankIffAllWhitespace` | src/pages/ManageOptionsPage.jsx:104-107 | A value counts as blank (`!value.trim()`) exactly when every character in it is whitespace. |
| `Feedback.MessageOr` | src/components/ChangePasswordModal.jsx:67 | A failed call shows the server's message when it is a non-empty string, and the page's default text otherwise. |
| `Seqs.Unique` | src/pages/AddTaskPage.jsx:32 | `[...new Set(xs)]` has no repeats and holds exactly the values of `xs`, in the order of their first occurrence. |
| `Seqs.Filter` | src/pages/AddTaskPage.jsx:236 | `filter` keeps exactly the passing elements, with their multiplicities. |
| `Seqs.FilterAppend` | src/pages/AddTaskPage.jsx:236 | Filtering a concatenation is the concatenation of the filtered parts, so `filter` keeps the kept elements in their original order. |
| `Seqs.FilterKeepsOrder` | src/pages/AddTaskPage.jsx:32 | Filtering a list ordered by first occurrence keeps it ordered by first occurrence. |
| `Seqs.Reverse` | src/pages/ManageOptionsPage.jsx:320 | `reverse` puts element `i` at position `n-1-i`. |
| `Seqs.TakeLast` | src/pages/ManageOptionsPage.jsx:319 | For a positive `n`, as in `slice(-8)`, `slice(-n)` is the last `min(n, length)` elements. |
| `Options.BuildOptions` | src/pages/AddTaskPage.jsx:31-34 | If any candidate in `fallback` or `fetched` is truthy, the result lists every truthy candidate exactly once, in first-occurrence order. Otherwise it is `fallback` verbatim. A null or undefined `fetched` counts as empty. |
| `Options.FallbackFirst` | src/pages/TaskListPage.jsx:23-26 | In the merged list, whether or not the merge came out empty, every default comes before every value supplied only by the server. |
| `Options.DefaultsAlwaysOffered` | src/pages/AnalyticsPage.jsx:30-33 | Every truthy default is in the result, whatever the server sends. |
| `Options.BuildOptionsIdempotent` | src/pages/AddTaskPage.jsx:31-34 | Merging a built list again with nothing fetched returns it unchanged. |
| `AuthContext.Initialize` | src/context/AuthContext.jsx:20-39 | Mounting always ends `initializing`. It adopts the stored user and token only when a window exists and the stored value parses with a truthy token and user. Otherwise user and token are untouched. A warning is logged exactly for a parse failure, and nothing is thrown. |
| `AuthContext.Serialize` | src/context/AuthContext.jsx:41-45 | A persisted login would be adopted on reload exactly when its token is non-empty. |
| `AuthContext.PersistSession` | src/context/AuthContext.jsx:41-45 | With a window, storage holds the login data. Without one, nothing changes. |
| `AuthContext.ClearSession` | src/context/AuthContext.jsx:47-51 | With a window, the stored value is removed. Without one, nothing changes. |
| `AuthContext.Login` | src/context/AuthContext.jsx:53-64 | `authLoading` is true while the request is pending and false afterwards. On success, user and token come from the response, storage holds it, and the response is returned. On failure, user, token and storage are unchanged and the error propagates. |
| `AuthContext.Logout` | src/context/AuthContext.jsx:66-70 | User and token become null and storage is cleared. The two flags are unchanged. |
| `AuthContext.LogoutIdempotent` | src/context/AuthContext.jsx:66-70 | Logging out twice is the same as logging out once. |
| `AuthContext.OnWindowEvent` | src/context/AuthContext.jsx:72-83 | With a window, the unauthorized event has exactly the effect of `logout`. Without a window no listener is registered, so that event changes nothing, and neither does any other event. |
| `AuthContext.PairedInvariant` | src/context/AuthContext.jsx:26-33 | No mount, login, logout or window event leaves a user without a token, or a token without a user. |
| `AuthContext.MountMakesDurable` | src/context/AuthContext.jsx:20-39 | After mounting, a reload would restore exactly the session held in memory. |
| `AuthContext.DurableInvariant` | src/context/AuthContext.jsx:41-70 | Every event keeps memory and storage in agreement, provided no login succeeds with an empty token. |
| `AuthContext.EmptyTokenNotRestored` | src/context/AuthContext.jsx:29 | A login with an empty token is held in memory, but a reload would not restore it. |
| `AuthContext.LoginSurvivesReload` | src/context/AuthContext.jsx:56-60 | After a successful login with a non-empty token, a reload restores the same user and token. |
| `ProtectedRoute.Guard` | src/components/ProtectedRoute.jsx:4-20 | The checks run in order. While initializing, the guard shows the placeholder. With no user, it redirects to `/login`. With a user whose role is outside a non-empty allow-list, it redirects to `/tasks`. Otherwise it renders the children. Each outcome is stated as an if-and-only-if. |
| `ProtectedRoute.GuardRedirects` | src/components/ProtectedRoute.jsx:7-17 | The guard never redirects while initializing. It only redirects to `/login` or `/tasks`, and a redirect to `/tasks` implies a signed-in user. |
| `ProtectedRoute.WiderRolesKeepAccess` | src/components/ProtectedRoute.jsx:15-17 | Adding roles to a non-empty allow-list never turns access into a redirect. |
| `ChangePassword.Problem` | src/components/ChangePasswordModal.jsx:30-48 | The form passes exactly when all four rules hold. The first failing rule picks the message: an empty field, then a new password under 6 characters, then a confirm mismatch, then a new password equal to the current one. |
| `ChangePassword.Submit` | src/components/ChangePasswordModal.jsx:25-72 | The server is called exactly when the form passes, with the current and new passwords. A refused form keeps its fields and shows the first failure. Success empties all three fields, shows the success text and schedules the close. Failure keeps the form and shows the server message or the default. `loading` is false once the submit settles. |
| `ChangePassword.SubmitOutcomeShown` | src/components/ChangePasswordModal.jsx:56-68 | For a submitted form, the error is empty and the success text is present exactly when the server call succeeded. |
| `ChangePassword.Edit` | src/components/ChangePasswordModal.jsx:18-23 | Editing sets only the named field and clears both the error and the success text. |
| `ChangePassword.Close` | src/components/ChangePasswordModal.jsx:74-83 | Closing empties all fields and clears both messages. |
| `ChangePassword.EmptyFormRefused` | src/components/ChangePasswordModal.jsx:30-33 | An empty form is refused with the fill-in message and sends nothing. |
| `ManageOptions.MergeLookups` | src/pages/ManageOptionsPage.jsx:75 | After merging fetched lookups over the defaults, all four keys are present. Fetched keys win, and a key missing from the fetched data keeps its empty default. |
| `ManageOptions.LoadLookups` | src/pages/ManageOptionsPage.jsx:70-82 | Loading ends with `loading` false. On failure, the lists are kept and the load-failure alert is shown, and nothing is thrown. |
| `ManageOptions.SetInput` | src/pages/ManageOptionsPage.jsx:99-101 | Only the named type's input changes. |
| `ManageOptions.SaveLookup` | src/pages/ManageOptionsPage.jsx:103-123 | A blank value is refused with no request. Otherwise the untrimmed input is sent. Success clears only that type's input, and the lists become the reloaded ones (or stay as they were if the reload fails). Failure keeps the inputs and lists and shows the server message or the default. `savingType` is null again whenever the save proceeded. The account half of the page is never touched. |
| `ManageOptions.DeleteLookup` | src/pages/ManageOptionsPage.jsx:125-143 | Without confirmation, nothing happens. Otherwise `deletingId` is set while pending and null afterwards. A success shows the reloaded lists (or keeps the old ones if the reload fails) and the success alert. A failure keeps the lists and shows the server message or the default. Inputs and the account half of the page are never touched. |
| `ManageOptions.DeleteAndRecentBoxes` | src/pages/ManageOptionsPage.jsx:132-139 | A failed delete leaves every "Recently added" box as it was. A successful delete shows the boxes of the reloaded lists. |
| `ManageOptions.SetUserField` | src/pages/ManageOptionsPage.jsx:145-148 | Exactly the named account-form field takes the new value, and every other field keeps its own. |
| `ManageOptions.LoadUsers` | src/pages/ManageOptionsPage.jsx:84-92 | The account list is replaced on success. On failure, the users alert is shown and nothing is thrown. |
| `ManageOptions.CreateUser` | src/pages/ManageOptionsPage.jsx:150-182 | The account is created exactly when display name, username and password are all non-blank. The fields are sent as typed, with an empty email left out. Success resets the form to empty fields with role `user`, and the account list becomes the reloaded one (or stays as it was if the reload fails). Failure keeps the form and the list. `userSaving` is false afterwards. The lookup half of the page is never touched. |
| `ManageOptions.BlankNameRefused` | src/pages/ManageOptionsPage.jsx:151-154 | A display name made only of whitespace is refused with the required-fields alert, and no account is requested. |
| `ManageOptions.SecondCreateRefused` | src/pages/ManageOptionsPage.jsx:151-172 | After a successful create, pressing the button again requests nothing, because the form was reset. |
| `ManageOptions.WhitespaceValueRefused` | src/pages/ManageOptionsPage.jsx:104-107 | A lookup value made only of whitespace is refused with the "provide a value" alert and no request. |
| `ManageOptions.ScreenFor` | src/pages/ManageOptionsPage.jsx:184-186 | The editor is shown exactly to a signed-in administrator. Everyone else, including a visitor with no user, sees the refusal. |
| `ManageOptions.RecentlyAdded` | src/pages/ManageOptionsPage.jsx:318-320 | The recent list holds `min(8, n)` entries, and entry `i` is the `i`-th newest. |
| `ManageOptions.RecentBoxFor` | src/pages/ManageOptionsPage.jsx:316-338 | "No values yet" appears exactly when the type's list is missing, null or empty. Otherwise the box shows that list's recent entries. |
| `ManageOptions.RecentNewestFirst` | src/pages/ManageOptionsPage.jsx:318-320 | The newest entry comes first, and every entry listed is among the newest eight. |
| `AddTask.Edit` | src/pages/AddTaskPage.jsx:109-115 | Exactly the named field takes the new value. |
| `AddTask.DateOr` | src/pages/AddTaskPage.jsx:86-94 | A missing or empty date gives the default, and a present date is formatted. |
| `AddTask.FormFromTask` | src/pages/AddTaskPage.jsx:84-95 | Each missing text field of a fetched task takes the initial form's value (`''`, or `'None'` for the milestone). A present field is kept, and dates go through the formatter. |
| `AddTask.EmptyTaskGivesInitialForm` | src/pages/AddTaskPage.jsx:18-29 | A task with every field missing fills the form exactly as a new task does. |
| `AddTask.FormDisabled` | src/pages/AddTaskPage.jsx:107 | The form is disabled exactly while options load, the task loads, or a save runs. |
| `AddTask.SaveTask` | src/pages/AddTaskPage.jsx:121-154 | The normalised form is sent. While pending, `saving` is set and the alert cleared. Success shows the updated or saved text and navigates to `/tasks`. Failure shows the server message or the default and stays. `saving` is false afterwards, and the form and load flags are unchanged. |
| `AddTask.SaveLocksForm` | src/pages/AddTaskPage.jsx:107-154 | The form is disabled while a save is awaited. Once the save settles, it is disabled only if a load is still running. A failed save keeps the form as typed. |
| `Js.NonEmpty` | src/pages/AddTaskPage.jsx:133-136 | An empty date is sent as null and any other date unchanged (the account form's `email \|\| undefined` is the same rule); reading null back as `''` restores the field. |
| `AddTask.ToPayload` | src/pages/AddTaskPage.jsx:126-137 | The name, person, project and activity are trimmed. An empty milestone becomes `'None'`, so the milestone is never empty. Empty dates become null, and the work date is sent as is. |
| `AddTask.PayloadRoundTrip` | src/pages/AddTaskPage.jsx:126-137 | Normalisation is idempotent: a payload's own form normalises back to the same payload. |
| `AddTask.PayloadNormalised` | src/pages/AddTaskPage.jsx:127-132 | A payload's text fields are already trimmed, and its milestone is non-empty. |
| `AddTask.MilestoneChoices` | src/pages/AddTaskPage.jsx:233-236 | The milestone dropdown lists `'None'` exactly once, as its first option. It is followed by every other milestone in the list's order, each with its multiplicity. |
| `AddTask.MilestoneChoicesAppend` | src/pages/AddTaskPage.jsx:234-236 | Appending milestones to the list appends their choices, in order, after the choices already offered. |
| `Filters.Change` | src/pages/TaskListPage.jsx:81-84 | Editing a filter changes only that draft field. The applied filters are never touched. |
| `Filters.Apply` | src/pages/TaskListPage.jsx:86-88 | Applying makes the applied filters equal to the draft. |
| `Filters.Clear` | src/pages/TaskListPage.jsx:90-93 | Clearing resets both the draft and the applied filters to the defaults. |
| `Filters.ClearIdempotent` | src/pages/AnalyticsPage.jsx:105-108 | Clearing twice is the same as clearing once, and applying right after a clear changes nothing. |
| `Filters.EditsStayDraft` | src/pages/AnalyticsPage.jsx:96-99 | No sequence of unapplied edits reaches the applied filters. |
| `Filters.ApplyAfterEdit` | src/pages/AnalyticsPage.jsx:101-103 | After an apply, an edit followed by another apply changes exactly the edited field of the applied filters. |
| `TaskList.LoadTasks` | src/pages/TaskListPage.jsx:63-75 | Loading ends with `loading` false. Success replaces the tasks and clears the error. Failure keeps the tasks and shows the load-failure text. |
| `TaskList.DeleteTask` | src/pages/TaskListPage.jsx:95-109 | Without confirmation, nothing happens. Otherwise `deletingId` is null once the attempt completes. A failed delete shows its error, and a successful one reloads. |
| `TaskList.Content` | src/pages/TaskListPage.jsx:111-122 | Precedence runs loading, then error, then empty list, then table. Each view is stated as an if-and-only-if. |
| `TaskList.FailedDeleteShown` | src/pages/TaskListPage.jsx:103-106 | After a failed delete, the table area shows the delete-failure text. |
| `TaskList.DeleteThenReloadShowsRows` | src/pages/TaskListPage.jsx:100-102 | A successful delete and reload shows the reloaded rows, whatever error was shown before. |
| `TaskList.MilestoneLabel` | src/pages/TaskListPage.jsx:148 | A missing or empty milestone is shown as `'None'`. Any other milestone is shown as is. |
| `Analytics.PieSource` | src/pages/AnalyticsPage.jsx:110 | The pie uses the project breakdown exactly when the toggle reads `'project'`. |
| `Analytics.PieFollowsToggle` | src/pages/AnalyticsPage.jsx:58-113 | The toggle's `project` and `person` values select their own breakdowns. While the project breakdown has rows, the initial pie and the detail table show the same rows. |
| `Analytics.DetailSource` | src/pages/AnalyticsPage.jsx:112-113 | The detail table uses the project breakdown exactly when that breakdown has rows. |
| `Analytics.DetailLabel` | src/pages/AnalyticsPage.jsx:115 | The heading is 'Project' exactly when the detail rows come from the project breakdown, and 'Person' otherwise. |
| `Analytics.DetailTableConsistent` | src/pages/AnalyticsPage.jsx:112-115 | The detail table is empty only when both breakdowns are. Its heading names the breakdown its rows come from. |
| `Analytics.View` | src/pages/AnalyticsPage.jsx:174-178 | Precedence runs loading, then error, then dashboard. Each view is stated as an if-and-only-if. |
| `Analytics.LoadStats` | src/pages/AnalyticsPage.jsx:78-90 | Loading ends with `loading` false. Success replaces the statistics and clears the error. Failure keeps the statistics and sets the failure text. |
| `Analytics.LoadedStatsShown` | src/pages/AnalyticsPage.jsx:78-90 | After a load settles, the data area shows the fetched dashboard, or the failure text on a failed load. |
| `LoginPage.Submit` | src/pages/LoginPage.jsx:23-39 | `login` is called exactly when both fields are non-empty. Otherwise an error is shown and the session is untouched. Success navigates to `/tasks`. Failure shows the server message or the default text. |
| `LoginPage.RedirectFor` | src/pages/LoginPage.jsx:12-16 | A present user, and only a present user, triggers a redirect to `/tasks`. |
| `LoginPage.SubmitDisabled` | src/pages/LoginPage.jsx:95 | The submit button is disabled exactly while `authLoading` is true. |
| `LoginPage.ButtonDuringLogin` | src/pages/LoginPage.jsx:93-100 | The button is disabled while a submitted login is pending and enabled again once it settles. |
| `LoginPage.SignedInRedirects` | src/pages/LoginPage.jsx:33-34 | After a successful submit, the redirect effect agrees with the navigation the submit made. |
| `LoginPage.RejectedKeepsSession` | src/pages/LoginPage.jsx:35-38 | A rejected sign-in leaves user, token and storage as they were. |
| `Scenarios.EmptyStoreRedirectsToLogin` | src/components/ProtectedRoute.jsx:11-13 | With nothing stored, every guarded route redirects to `/login` after mounting. |
| `Scenarios.NoRedirectBeforeMount` | src/components/ProtectedRoute.jsx:7-9 | No guarded route redirects before the mount effect has run. |
| `Scenarios.PlainUserSignIn` | src/components/ProtectedRoute.jsx:15-19 | After signing in as role `user`, an unrestricted route renders, and an admin-only route redirects to `/tasks`. |
| `Scenarios.UnauthorizedEventLogsOut` | src/context/AuthContext.jsx:76-79 | After sign-in, the unauthorized event clears storage, and every guarded route then redirects to `/login`. |
| `Scenarios.HistoryKeepsPaired` | src/context/AuthContext.jsx:53-70 | Over any history of events, user and token stay paired. |
| `Scenarios.MountedStaysMounted` | src/context/AuthContext.jsx:36-38 | Once mounted, the guard never shows the placeholder again. |
| `Scenarios.AdminScreenMatchesGuard` | src/pages/ManageOptionsPage.jsx:184-186 | Once mounted, the options screen opens its editor exactly when the administrators-only route guard lets the visitor through. |
| `Scenarios.AdminScreenFollowsSession` | src/context/AuthContext.jsx:53-83 | Signing in as an administrator opens the options editor. A logout or the unauthorized event closes it again. |

## Left out

- HTTP services (`src/services/*.js`) are opaque collaborators. Each call's outcome is a parameter.
- `src/services/apiClient.js` attaches no bearer token and handles no 401 response, so neither is modelled. The only path to a forced logout is the `workmanager:unauthorized` window event (`AuthContext.OnWindowEvent`).
- `src/pages/LandingPage.jsx` is left out: it is static markup and animation.
- `src/components/Navbar.jsx` is left out: it is a fixed link list that filters no links by role.
- `src/App.jsx` is left out: it is a routing table that wraps no route in `ProtectedRoute` and has no `/login` route. The guard is modelled on its own (`ProtectedRoute.Guard`).
- `src/constants/auth` and `src/constants/options` are not part of this model. The storage key is implicit, and the default option lists are parameters.
- Browser mechanics are left out: `localStorage` errors, JSON text, `window.confirm` (a parameter), timers, and registering or removing the event listener.
- React rendering, hook ordering, and overlapping logins or requests are left out. Each handler is modelled as one pending state and one settled state.
- dayjs formatting is a function parameter.
- Chart rendering, percentages and floating-point arithmetic are left out.
- `ChangePassword.Submit`: the two-second timer that closes the modal and clears the success text is recorded as `closeScheduled`. Its later effect is not modelled.
- The option-loading effects of the task form, task list and analytics pages are left out. They call `buildOptions` on fetched options (modelled). The task form's effect that fetches a task for editing is modelled only through `AddTask.FormFromTask`, the form it fills.
- `handleChange` on the login page is left out. It is the same one-field update modelled for the other forms.
- `Options.BuildOptions`: JavaScript values are null, undefined, booleans, integers, strings and objects compared by identity. NaN and fractions are not modelled. `fetched` is an array or null/undefined, not some other value spread into an array.
- `AuthContext.Initialize`: a stored token is a string or missing, and a stored user is an object or missing. Other shapes are not modelled.
- `AuthContext.Login`: a successful login response is assumed to carry a string `token` and a `user` object. `src/context/AuthContext.jsx:56-58` copies `data.user` and `data.token` without checking either. `AuthContext.PairedInvariant`, `AuthContext.DurableInvariant` and `Scenarios.HistoryKeepsPaired` rest on this assumption. A response such as `{ token: 'abc' }` would leave a token with no user.
- `Feedback.MessageOr`: a server error's `message` is assumed to be a string or missing. A truthy non-string `message` would be shown by the code's `||`, and the model cannot represent it.
- `ChangePassword.Problem`: the length check counts characters. JavaScript counts UTF-16 code units, which differs for characters outside the Basic Multilingual Plane.
