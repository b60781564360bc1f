/** The sign-up page: its form state and its submit handler. */
module SignUp {
  import opened Wrappers
  import opened Identity
  import Forms
  import AuthContext

  const PasswordMismatch := "Passwords do not match"
  const DefaultFailure := "Failed to create account"
  /** Where a successful sign-up navigates. */
  const SuccessTarget := "/"

  /**
   * `err.message || "Failed to create account"`: the provider's message when
   * it gave a non-empty one, the default otherwise. Never empty, so a failed
   * sign-up always shows the banner.
   */
  function FailureMessage(e: AuthError): (m: string)
    ensures m != ""
    ensures e.message.Some? && e.message.value != "" ==> m == e.message.value
    ensures e.message == None || e.message == Some("") ==> m == DefaultFailure
  {
    match e.message
    case Some(text) => if text != "" then text else DefaultFailure
    case None => DefaultFailure
  }

  class SignUpForm {
    var email: string
    var password: string
    var confirmPassword: string
    var error: string

    constructor ()
      ensures email == "" && password == "" && confirmPassword == "" && error == ""
    {
      email, password, confirmPassword, error := "", "", "", "";
    }

    method SetEmail(value: string)
      modifies this
      ensures email == value
      ensures password == old(password) && confirmPassword == old(confirmPassword) && error == old(error)
    {
      email := value;
    }

    method SetPassword(value: string)
      modifies this
      ensures password == value
      ensures email == old(email) && confirmPassword == old(confirmPassword) && error == old(error)
    {
      password := value;
    }

    method SetConfirmPassword(value: string)
      modifies this
      ensures confirmPassword == value
      ensures email == old(email) && password == old(password) && error == old(error)
    {
      confirmPassword := value;
    }

    /**
     * Submit. The error is cleared first. Unequal passwords stop there with
     * the mismatch message and no provider call; equal ones (empty included)
     * go to the provider with the email the browser let through. Success navigates home
     * with no error showing; failure shows the provider's message or the
     * default and does not navigate. `nav` is the path handed to `navigate`.
     */
    method HandleSubmit(auth: AuthContext.AuthProvider, answer: Outcome) returns (nav: Option<string>)
      modifies this, auth.idp
      ensures email == old(email) && password == old(password) && confirmPassword == old(confirmPassword)
      ensures password != confirmPassword ==>
        error == PasswordMismatch && nav == None && auth.idp.calls == old(auth.idp.calls)
      ensures password == confirmPassword ==>
        auth.idp.calls == old(auth.idp.calls) + [SignUpCall(email, password)]
      ensures password == confirmPassword && answer.Ok? ==> nav == Some(SuccessTarget) && error == ""
      ensures password == confirmPassword && answer.Fail? ==> nav == None && error == FailureMessage(answer.error)
      ensures password == confirmPassword && answer.Fail? ==> Forms.ErrorBanner(error) == Some(error)
      ensures password != confirmPassword ==> Forms.ErrorBanner(error) == Some(PasswordMismatch)
    {
      error := "";
      if password != confirmPassword {
        error := PasswordMismatch;
        return None;
      }
      var r := auth.SignUp(email, password, answer);
      if r.Ok? {
        nav := Some(SuccessTarget);
      } else {
        nav := None;
        error := FailureMessage(r.error);
      }
    }
  }
}
