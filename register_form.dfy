/** The registration form (frontend RegisterForm.jsx): the checks `handleSubmit` makes before calling the
    hook's `register`, what it does with the value `register` resolves with, and the conditions for the
    mismatch hint and for disabling the submit button. `register` resolves with a boolean and never
    throws. */
module RegisterForm {
  import opened Common
  import opened AuthController
  import AuthHook

  const Mismatch: string := "Passwords don't match"
  const TooShort: string := "Password must be at least 6 characters"
  const Succeeded: string := "Registration successful"
  const Failed: string := "Registration failed"
  const MinLength: nat := 6

  /** How a submission ends: refused before any request, or the request made and then either a switch to
      the login form with a notice, or an error notice and the form kept. */
  datatype Submission = Refused(message: string) | Switched(notice: string) | Stayed(notice: string)

  /** The checks before the request: matching passwords first, then the length. */
  function Checks(password: string, confirm: string): (r: Option<string>)
    ensures r.None? <==> password == confirm && |password| >= MinLength
    ensures password != confirm ==> r == Some(Mismatch)
    ensures password == confirm && |password| < MinLength ==> r == Some(TooShort)
  {
    if password != confirm then Some(Mismatch)
    else if |password| < MinLength then Some(TooShort)
    else None
  }

  /** `handleSubmit` as written: it reads `response?.user` and `response?.message` on the boolean
      `register` resolved with; both are undefined, so it always reports a failure. */
  function SubmitAsWritten(password: string, confirm: string, registered: bool): (r: Submission)
    ensures !r.Switched?
    ensures r.Refused? <==> Checks(password, confirm).Some?
  {
    match Checks(password, confirm)
    case Some(m) => Refused(m)
    case None => Stayed(Failed)
  }

  /** As written, a registration the server accepted still leaves the user on the registration form
      with a failure notice. */
  lemma AsWrittenNeverSwitches(password: string, confirm: string)
    requires password == confirm && |password| >= MinLength
    ensures SubmitAsWritten(password, confirm, true) == Stayed(Failed)
  {
  }

  /** `handleSubmit` as evidently meant: switch to the login form when `register` resolved with true. */
  function Submit(password: string, confirm: string, registered: bool): (r: Submission)
    ensures r.Refused? <==> Checks(password, confirm).Some?
    ensures r.Refused? ==> r.message == Checks(password, confirm).value
    ensures r.Switched? <==> password == confirm && |password| >= MinLength && registered
    ensures r.Switched? ==> r.notice == Succeeded
    ensures r.Stayed? ==> r.notice == Failed
  {
    match Checks(password, confirm)
    case Some(m) => Refused(m)
    case None => if registered then Switched(Succeeded) else Stayed(Failed)
  }

  /** With the hook reading the reply's body, the form switches to login exactly when the checks pass
      and the server answered 2xx with a token. */
  lemma SwitchesIffRegistered(password: string, confirm: string, reply: Reply<Session>)
    ensures Submit(password, confirm, AuthHook.SessionResult(reply)).Switched? <==>
      password == confirm && |password| >= MinLength && 200 <= reply.code < 300 &&
      reply.body.Some? && reply.body.value.token != ""
  {
  }

  /** The "Passwords do not match" hint: both fields filled and different. */
  predicate MismatchHint(password: string, confirm: string)
  {
    password != "" && confirm != "" && password != confirm
  }

  /** The submit button is disabled while loading, or while the confirmation is filled and differs. */
  predicate SubmitDisabled(loading: bool, password: string, confirm: string)
  {
    loading || (password != confirm && confirm != "")
  }

  /** Whenever the hint shows, the button is disabled; an enabled button with a filled confirmation
      means the passwords match. */
  lemma HintDisablesSubmit(loading: bool, password: string, confirm: string)
    ensures MismatchHint(password, confirm) ==> SubmitDisabled(loading, password, confirm)
    ensures !SubmitDisabled(loading, password, confirm) && confirm != "" ==> Checks(password, confirm) != Some(Mismatch)
  {
  }

  /** The button is enabled with a password typed and the confirmation empty, and `handleSubmit` refuses
      such a submission as a mismatch. In a browser the confirmation input's `required` attribute stops
      the submission before `handleSubmit` runs. */
  lemma EmptyConfirmRefused(password: string)
    requires password != ""
    ensures !SubmitDisabled(false, password, "")
    ensures Submit(password, "", true) == Refused(Mismatch)
  {
  }
}
