/**
 * The session store (`AuthProvider`): the current user, a loading flag that
 * holds the children back until the provider's first notification, the
 * session listener, and the sign-in / sign-up / sign-out operations that
 * only delegate to the provider.
 */
module AuthContext {
  import opened Wrappers
  import opened Identity

  const MissingProviderMessage := "useAuth must be used within an AuthProvider"

  class AuthProvider {
    /** The provider instance the operations delegate to. */
    const idp: IdentityProvider
    var user: Option<User>
    var loading: bool
    /** Whether the session listener is registered with the provider. */
    var subscribed: bool

    /**
     * The user is only ever set together with clearing `loading`, so a
     * session that is still loading has no user (`App.NoUserWhileLoading`).
     */
    ghost predicate Valid()
      reads this
    {
      loading ==> user == None
    }

    /** The `!loading && children` gate: children render only once loading is over. */
    predicate ChildrenRendered(): (shown: bool)
      reads this
      ensures shown <==> !loading
    {
      !loading
    }

    constructor (idp: IdentityProvider)
      ensures Valid()
      ensures this.idp == idp
      ensures user == None && loading && !subscribed
      ensures !ChildrenRendered()
    {
      this.idp := idp;
      user := None;
      loading := true;
      subscribed := false;
    }

    /** The mount effect: registers the session listener. */
    method Subscribe()
      requires Valid()
      modifies this
      ensures Valid()
      ensures subscribed
      ensures user == old(user) && loading == old(loading)
    {
      subscribed := true;
    }

    /** The effect's cleanup: the unsubscribe handle the provider returned. */
    method Unsubscribe()
      requires Valid()
      modifies this
      ensures Valid()
      ensures !subscribed
      ensures user == old(user) && loading == old(loading)
    {
      subscribed := false;
    }

    /**
     * The provider reports session `u`. While the listener is registered it
     * stores `u` and ends loading; otherwise nothing observes the report.
     * Loading, once over, never comes back.
     */
    method Notify(u: Option<User>)
      requires Valid()
      modifies this
      ensures Valid()
      ensures subscribed == old(subscribed)
      ensures old(subscribed) ==> user == u && !loading && ChildrenRendered()
      ensures !old(subscribed) ==> user == old(user) && loading == old(loading)
      ensures !old(loading) ==> !loading
    {
      if subscribed {
        user := u;
        loading := false;
      }
    }

    /** Delegates to the provider; its rejection reaches the caller unchanged. */
    method SignIn(email: string, password: string, answer: Outcome) returns (r: Outcome)
      modifies idp
      ensures idp.calls == old(idp.calls) + [SignInCall(email, password)]
      ensures r == answer
    {
      r := idp.SignInWithEmailAndPassword(email, password, answer);
    }

    /** Delegates to the provider; its rejection reaches the caller unchanged. */
    method SignUp(email: string, password: string, answer: Outcome) returns (r: Outcome)
      modifies idp
      ensures idp.calls == old(idp.calls) + [SignUpCall(email, password)]
      ensures r == answer
    {
      r := idp.CreateUserWithEmailAndPassword(email, password, answer);
    }

    /** Delegates to the provider; its rejection reaches the caller unchanged. */
    method SignOut(answer: Outcome) returns (r: Outcome)
      modifies idp
      ensures idp.calls == old(idp.calls) + [SignOutCall]
      ensures r == answer
    {
      r := idp.SignOut(answer);
    }
  }

  /** `useAuth`: the surrounding provider, or an error when there is none. */
  function UseAuth(context: Option<AuthProvider>): (r: Result<AuthProvider, string>)
    ensures r.Failure? <==> context == None
    ensures r.Failure? ==> r.error == MissingProviderMessage
    ensures r.Success? ==> context == Some(r.value)
  {
    match context
    case None => Failure(MissingProviderMessage)
    case Some(p) => Success(p)
  }
}
