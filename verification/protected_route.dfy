/** `ProtectedRoute`: what a guarded route shows, decided from the session
    and the route's optional list of allowed roles. */
module ProtectedRoute {
  import opened Js
  import opened AuthContext

  datatype View = CheckingAccess | Redirect(to: string) | Children

  const LoginPath: string := "/login"
  const TasksPath: string := "/tasks"

  /** `roles && roles.length && !roles.includes(role)` is false. */
  predicate RoleAllowed(roles: Option<seq<string>>, role: string) {
    roles.None? || |roles.value| == 0 || role in roles.value
  }

  /** The three checks, in order: still initializing, no user, role refused. */
  function Guard(initializing: bool, user: Option<User>, roles: Option<seq<string>>): (v: View)
    ensures v == CheckingAccess <==> initializing
    ensures v == Redirect(LoginPath) <==> !initializing && user.None?
    ensures v == Redirect(TasksPath) <==> !initializing && user.Some? && !RoleAllowed(roles, user.value.role)
    ensures v == Children <==> !initializing && user.Some? && RoleAllowed(roles, user.value.role)
  {
    if initializing then CheckingAccess
    else if user.None? then Redirect(LoginPath)
    else if roles.Some? && |roles.value| > 0 && user.value.role !in roles.value then Redirect(TasksPath)
    else Children
  }

  /** The guard never redirects while the stored session is still being read,
      and its only redirect targets are the login page and the task list. */
  lemma GuardRedirects(initializing: bool, user: Option<User>, roles: Option<seq<string>>)
    ensures var v := Guard(initializing, user, roles);
      v.Redirect? ==> !initializing && (v.to == LoginPath || v.to == TasksPath)
    ensures var v := Guard(initializing, user, roles);
      v == Redirect(TasksPath) ==> user.Some?
  {
  }

  /** Adding roles to a non-empty allow-list never takes access away. (An
      empty list allows every role, so extending it can.) */
  lemma WiderRolesKeepAccess(initializing: bool, user: Option<User>, roles: seq<string>, more: seq<string>)
    requires |roles| > 0 && Guard(initializing, user, Some(roles)) == Children
    ensures Guard(initializing, user, Some(roles + more)) == Children
  {
    assert user.value.role in roles + more;
  }
}
