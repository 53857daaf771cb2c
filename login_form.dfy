/** The login form (frontend LoginForm.jsx): its field checks, how it reacts to the outcome of the hook's
    `login`, and how editing a field clears the errors shown. The outcome of `login` is a parameter. */
module LoginForm {
  import opened Common
  import AuthController

  const EmailRequired: string := "Email is required"
  const InvalidEmail: string := "Please enter a valid email address"
  const PasswordRequired: string := "Password is required"
  const CheckCredentials: string := "Login failed. Please check your credentials and try again."
  const InvalidLogin: string := "Invalid email or password. Please try again."
  const UnknownUser: string := "User not found. Please check your email or create an account."
  const ServerError: string := "Server error. Please try again later."
  const LoginFailed: string := "Login failed. Please try again later."

  /** `/\S+@\S+\.\S+/.test(s)`, unanchored: somewhere in `s`, a non-space character, '@', a run of at
      least one non-space character, '.', and a non-space character. */
  predicate LooksLikeEmail(s: string)
    ensures LooksLikeEmail(s) ==> |s| >= 5 && '@' in s && '.' in s
  {
    exists a, d | 1 <= a < d < |s| - 1 :: MatchAt(s, a, d)
  }

  /** The pattern matches with its '@' at `a` and its '.' at `d`. */
  predicate MatchAt(s: string, a: int, d: int)
    requires 1 <= a < d < |s| - 1
  {
    a + 1 < d && s[a] == '@' && s[d] == '.' && !IsSpace(s[a - 1]) && NoSpace(s[a + 1..d]) && !IsSpace(s[d + 1])
  }

  /** Every address the server's anchored pattern accepts passes the form's check. */
  lemma ServerFormatPassesForm(s: string)
    requires AuthController.EmailFormat(s)
    ensures LooksLikeEmail(s)
  {
    var i, j :| 0 < i && i + 1 < j < |s| - 1 && s[i] == '@' && s[j] == '.';
    var t := s[i + 1..j];
    assert NoSpace(t) by {
      forall k | 0 <= k < |t|
        ensures !IsSpace(t[k])
      {
        assert t[k] == s[i + 1 + k];
      }
    }
    assert MatchAt(s, i, j);
  }

  /** The form's check is looser than the server's: a leading space passes the form and the server
      refuses the address as malformed. */
  lemma FormLooserThanServer()
    ensures LooksLikeEmail(" a@b.c") && !AuthController.EmailFormat(" a@b.c")
  {
    var s := " a@b.c";
    assert NoSpace(s[3..4]) by {
      assert s[3..4] == ['b'];
    }
    assert MatchAt(s, 2, 4);
    assert IsSpace(s[0]);
  }

  /** How `login` ended: it resolved (with exactly `true` or with anything else), or it threw an error
      carrying an HTTP status, the server's message and the error's own message ("" when absent). */
  datatype LoginOutcome = Resolved(exactlyTrue: bool) | Threw(status: Option<int>, serverMessage: string, message: string)

  /** The general error chosen for a thrown error: the first rule that applies, status 401, 404 and 500
      first, then the server's message, then the error's message, then a fixed text. */
  function ErrorMessage(status: Option<int>, serverMessage: string, message: string): (m: string)
    ensures m != ""
    ensures m in {InvalidLogin, UnknownUser, ServerError, LoginFailed, serverMessage, message}
    ensures status == Some(401) ==> m == InvalidLogin
    ensures status !in {Some(401), Some(404), Some(500)} && serverMessage != "" ==> m == serverMessage
  {
    if status == Some(401) then InvalidLogin
    else if status == Some(404) then UnknownUser
    else if status == Some(500) then ServerError
    else if serverMessage != "" then serverMessage
    else if message != "" then message
    else LoginFailed
  }

  /** An error is shown for `key`: the key is present with a non-empty text. */
  predicate Shows(errors: map<string, string>, key: string)
  {
    key in errors && errors[key] != ""
  }

  /** The form's state: the two fields, the errors shown, and whether a login was confirmed. */
  class LoginForm {
    var email: string
    var password: string
    var errors: map<string, string>
    var loginSuccessful: bool

    constructor ()
      ensures email == "" && password == "" && errors == map[] && !loginSuccessful
    {
      email := "";
      password := "";
      errors := map[];
      loginSuccessful := false;
    }

    /** `validateForm`: records an email error and a password error as they apply, and says whether
        none was recorded. */
    method ValidateForm() returns (valid: bool)
      modifies this
      ensures email == old(email) && password == old(password) && loginSuccessful == old(loginSuccessful)
      ensures errors.Keys <= {"email", "password"}
      ensures Trim(email) == "" ==> "email" in errors && errors["email"] == EmailRequired
      ensures Trim(email) != "" && !LooksLikeEmail(email) ==> "email" in errors && errors["email"] == InvalidEmail
      ensures Trim(email) != "" && LooksLikeEmail(email) ==> "email" !in errors
      ensures "password" in errors <==> password == ""
      ensures "password" in errors ==> errors["password"] == PasswordRequired
      ensures valid <==> errors == map[]
    {
      var newErrors: map<string, string> := map[];
      if Trim(email) == "" {
        newErrors := newErrors["email" := EmailRequired];
      } else if !LooksLikeEmail(email) {
        newErrors := newErrors["email" := InvalidEmail];
      }
      if password == "" {
        newErrors := newErrors["password" := PasswordRequired];
      }
      errors := newErrors;
      valid := newErrors.Keys == {};
    }

    /** `handleSubmit`. No login is attempted unless the fields pass; the form reports success, and
        calls `onSuccess` when there is one, only when `login` resolved with exactly `true`. */
    method HandleSubmit(outcome: LoginOutcome, hasOnSuccess: bool) returns (attempted: bool, calledOnSuccess: bool)
      modifies this
      ensures email == old(email) && password == old(password)
      ensures attempted <==> Trim(email) != "" && LooksLikeEmail(email) && password != ""
      ensures !attempted ==> errors != map[] && !Shows(errors, "general") && loginSuccessful == old(loginSuccessful)
      ensures calledOnSuccess <==> attempted && outcome == Resolved(true) && hasOnSuccess
      ensures attempted && outcome == Resolved(true) ==> errors == map[] && loginSuccessful
      ensures attempted && outcome == Resolved(false) ==> errors == map["general" := CheckCredentials] && !loginSuccessful
      ensures attempted && outcome.Threw? ==>
        errors == map["general" := ErrorMessage(outcome.status, outcome.serverMessage, outcome.message)] &&
        loginSuccessful == old(loginSuccessful)
    {
      calledOnSuccess := false;
      var valid := ValidateForm();
      if !valid {
        return false, false;
      }
      attempted := true;
      errors := map[];
      match outcome
      case Resolved(exactlyTrue) =>
        if exactlyTrue {
          errors := map[];
          loginSuccessful := true;
          calledOnSuccess := hasOnSuccess;
        } else {
          errors := map["general" := CheckCredentials];
          loginSuccessful := false;
        }
      case Threw(status, serverMessage, message) =>
        errors := map["general" := ErrorMessage(status, serverMessage, message)];
    }

    /** `handleInputChange`: the edited field's error and the general error are blanked, other errors are
        kept, and the field takes the new value. */
    method HandleInputChange(field: string, value: string)
      modifies this
      ensures !Shows(errors, field) && !Shows(errors, "general")
      ensures errors.Keys == old(errors).Keys
      ensures forall k :: k in old(errors) && k != field && k != "general" ==> errors[k] == old(errors)[k]
      ensures email == (if field == "email" then value else old(email))
      ensures password == (if field == "password" then value else old(password))
      ensures loginSuccessful == old(loginSuccessful)
    {
      if Shows(errors, field) {
        errors := errors[field := ""];
      }
      if Shows(errors, "general") {
        errors := errors["general" := ""];
      }
      if field == "email" {
        email := value;
      }
      if field == "password" {
        password := value;
      }
    }
  }
}
