/** The sidebar's buttons and its sign-out handler. */
module Sidebar {
  import opened Wrappers
  import opened Identity
  import AuthContext

  /** Where signing out navigates. */
  const SignOutTarget := "/signin"

  /** The sidebar's buttons, top to bottom. */
  datatype Button = Menu | Home | Notifications | Reports | Upload | Settings | Profile | LogOut

  /**
   * `handleSignOut`: awaits the provider's sign-out, then navigates to the
   * sign-in page. Nothing catches a rejection, so it reaches the caller and
   * no navigation happens.
   */
  method HandleSignOut(auth: AuthContext.AuthProvider, answer: Outcome) returns (r: Outcome, nav: Option<string>)
    modifies auth.idp
    ensures auth.idp.calls == old(auth.idp.calls) + [SignOutCall]
    ensures r == answer
    ensures nav.Some? <==> answer.Ok?
    ensures nav.Some? ==> nav.value == SignOutTarget
  {
    r := auth.SignOut(answer);
    if r.Ok? {
      nav := Some(SignOutTarget);
    } else {
      nav := None;
    }
  }

  /**
   * A click on `button`: only LogOut has a handler, whose outcome is `r`;
   * for the other buttons no handler runs (`r == None`) and nothing happens.
   */
  method Click(button: Button, auth: AuthContext.AuthProvider, answer: Outcome) returns (r: Option<Outcome>, nav: Option<string>)
    modifies auth.idp
    ensures r.Some? <==> button == LogOut
    ensures button == LogOut ==> auth.idp.calls == old(auth.idp.calls) + [SignOutCall] && r == Some(answer)
    ensures button != LogOut ==> auth.idp.calls == old(auth.idp.calls) && nav == None
    ensures nav.Some? <==> button == LogOut && answer.Ok?
    ensures nav.Some? ==> nav.value == SignOutTarget
  {
    if button == LogOut {
      var outcome;
      outcome, nav := HandleSignOut(auth, answer);
      r := Some(outcome);
    } else {
      r, nav := None, None;
    }
  }
}
