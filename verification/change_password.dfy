/** `ChangePasswordModal`: the three-field form, its ordered validation
    checks, and what a submit, an edit and a close do to the modal's state. */
module ChangePassword {
  import opened Js
  import opened Feedback

  datatype PasswordField = CurrentField | NewField | ConfirmField

  datatype PasswordForm = PasswordForm(current: string, newPassword: string, confirm: string)

  const EmptyForm: PasswordForm := PasswordForm("", "", "")

  /** The modal's state: the form, the error and success banners, and whether
      the request is in flight. */
  datatype Modal = Modal(form: PasswordForm, error: Option<string>, success: Option<string>, loading: bool)

  const MinLength: nat := 6

  const FillAllFields: string := "Please fill in all fields."
  const TooShort: string := "New password must be at least 6 characters long."
  const Mismatch: string := "New passwords do not match."
  const Unchanged: string := "New password must be different from current password."
  const ChangeFailed: string := "Failed to change password. Please try again."
  const Changed: string := "Password changed successfully!"

  /** The form passes every check. */
  predicate Acceptable(f: PasswordForm) {
    && f.current != "" && f.newPassword != "" && f.confirm != ""
    && |f.newPassword| >= MinLength
    && f.newPassword == f.confirm
    && f.current != f.newPassword
  }

  /** The message of the first failing check, if any. */
  function Problem(f: PasswordForm): (r: Option<string>)
    ensures r.None? <==> Acceptable(f)
    ensures f.current == "" || f.newPassword == "" || f.confirm == "" ==> r == Some(FillAllFields)
    ensures r == Some(TooShort) <==>
      f.current != "" && f.newPassword != "" && f.confirm != "" && |f.newPassword| < MinLength
    ensures r == Some(Mismatch) <==>
      f.current != "" && f.newPassword != "" && f.confirm != "" && |f.newPassword| >= MinLength
      && f.newPassword != f.confirm
    ensures r == Some(Unchanged) <==>
      f.current != "" && f.newPassword != "" && f.confirm != "" && |f.newPassword| >= MinLength
      && f.newPassword == f.confirm && f.current == f.newPassword
  {
    if f.current == "" || f.newPassword == "" || f.confirm == "" then Some(FillAllFields)
    else if |f.newPassword| < MinLength then Some(TooShort)
    else if f.newPassword != f.confirm then Some(Mismatch)
    else if f.current == f.newPassword then Some(Unchanged)
    else None
  }

  /** The body sent to the password-change endpoint. */
  datatype PasswordChange = PasswordChange(currentPassword: string, newPassword: string)

  /** `pending` while the request is awaited, `after` once the submit settles,
      `request` the body sent (if any), `closeScheduled` whether the two-second
      timer that closes the modal was started. */
  datatype SubmitResult = SubmitResult(pending: Modal, after: Modal, request: Option<PasswordChange>, closeScheduled: bool)

  function Submit(m: Modal, outcome: Completion): (r: SubmitResult)
    ensures r.request.Some? <==> Acceptable(m.form)
    ensures r.request.Some? ==> r.request.value == PasswordChange(m.form.current, m.form.newPassword)
    ensures !Acceptable(m.form) ==>
      r.after == m.(error := Problem(m.form), success := None) && !r.closeScheduled
    ensures Acceptable(m.form) ==> r.pending.loading && !r.after.loading
    ensures Acceptable(m.form) && outcome.Completed? ==>
      r.after == Modal(EmptyForm, None, Some(Changed), false) && r.closeScheduled
    ensures Acceptable(m.form) && outcome.Threw? ==>
      r.after == Modal(m.form, Some(MessageOr(outcome.error, ChangeFailed)), None, false) && !r.closeScheduled
  {
    var cleared := m.(error := None, success := None);
    match Problem(m.form)
    case Some(msg) =>
      var after := cleared.(error := Some(msg));
      SubmitResult(after, after, None, false)
    case None =>
      var pending := cleared.(loading := true);
      var request := Some(PasswordChange(m.form.current, m.form.newPassword));
      match outcome
      case Completed =>
        SubmitResult(pending, Modal(EmptyForm, None, Some(Changed), false), request, true)
      case Threw(e) =>
        SubmitResult(pending, pending.(error := Some(MessageOr(e, ChangeFailed)), loading := false), request, false)
  }

  /** A submit that reaches the server never leaves an error behind on
      success, and always shows one on failure. */
  lemma SubmitOutcomeShown(m: Modal, outcome: Completion)
    requires Acceptable(m.form)
    ensures var after := Submit(m, outcome).after;
      (after.error.None? <==> outcome.Completed?) && (after.success.Some? <==> outcome.Completed?)
  {
    if outcome.Threw? {
      assert ChangeFailed != "";
    }
  }

  function Value(f: PasswordForm, field: PasswordField): string {
    match field
    case CurrentField => f.current
    case NewField => f.newPassword
    case ConfirmField => f.confirm
  }

  /** `handleChange`: set one field and clear both banners. */
  function Edit(m: Modal, field: PasswordField, value: string): (r: Modal)
    ensures Value(r.form, field) == value
    ensures forall g :: g != field ==> Value(r.form, g) == Value(m.form, g)
    ensures r.error.None? && r.success.None? && r.loading == m.loading
  {
    var f := match field
      case CurrentField => m.form.(current := value)
      case NewField => m.form.(newPassword := value)
      case ConfirmField => m.form.(confirm := value);
    m.(form := f, error := None, success := None)
  }

  /** `handleClose`: empty every field and clear both banners. */
  function Close(m: Modal): (r: Modal)
    ensures forall g :: Value(r.form, g) == ""
    ensures r.error.None? && r.success.None? && r.loading == m.loading
  {
    m.(form := EmptyForm, error := None, success := None)
  }

  /** Submitting a form just closed, or just reset by a successful change,
      is refused with the fill-in message and sends nothing. */
  lemma EmptyFormRefused(m: Modal)
    requires m.form == EmptyForm
    ensures Submit(m, Completed).request.None?
    ensures Submit(m, Completed).after.error == Some(FillAllFields)
  {
  }
}
