/** The sign-in page: its form state and its submit handler. */
module SignIn {
  import opened Wrappers
  import opened Identity
  import Forms
  import AuthContext

  const InvalidCredentials := "Invalid credentials"
  /** Where a successful sign-in navigates. */
  const SuccessTarget := "/"

  class SignInForm {
    var email: string
    var password: string
    var error: string

    constructor ()
      ensures email == "" && password == "" && error == ""
    {
      email, password, error := "", "", "";
    }

    method SetEmail(value: string)
      modifies this
      ensures email == value && password == old(password) && error == old(error)
    {
      email := value;
    }

    method SetPassword(value: string)
      modifies this
      ensures password == value && email == old(email) && error == old(error)
    {
      password := value;
    }

    /**
     * Submit. The fields go to the provider as they are; success navigates
     * home and keeps whatever error was showing; any failure shows the one
     * fixed message and does not navigate. `nav` is the path handed to
     * `navigate`, if any.
     */
    method HandleSubmit(auth: AuthContext.AuthProvider, answer: Outcome) returns (nav: Option<string>)
      modifies this, auth.idp
      ensures email == old(email) && password == old(password)
      ensures auth.idp.calls == old(auth.idp.calls) + [SignInCall(email, password)]
      ensures answer.Ok? ==> nav == Some(SuccessTarget) && error == old(error)
      ensures answer.Fail? ==> nav == None && error == InvalidCredentials
      ensures answer.Fail? ==> Forms.ErrorBanner(error) == Some(InvalidCredentials)
    {
      var r := auth.SignIn(email, password, answer);
      if r.Ok? {
        nav := Some(SuccessTarget);
      } else {
        nav := None;
        error := InvalidCredentials;
      }
    }
  }
}
