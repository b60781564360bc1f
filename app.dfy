/**
 * The route table under the authentication provider: `/signin` and
 * `/signup` are open, every other path renders the main layout behind
 * `ProtectedRoute`, and nothing renders while the session is still loading.
 */
module App {
  import opened Wrappers
  import opened Identity
  import AuthContext
  import SignIn
  import SignUp
  import Sidebar

  const SignInPath := "/signin"
  const SignUpPath := "/signup"

  datatype Page = SignInPage | SignUpPage | MainLayout

  /** What the application displays for a path. */
  datatype Screen =
    | Blank                    // the provider holds its children back
    | Redirect(to: string)     // `<Navigate to=... />`
    | Show(page: Page)

  /** The session as the route guard sees it. */
  datatype GuardState = Loading | Unauthenticated | Authenticated

  function Guard(user: Option<User>, loading: bool): (g: GuardState)
    ensures g == Loading <==> loading
    ensures g == Unauthenticated <==> !loading && user == None
    ensures g == Authenticated <==> !loading && user.Some?
  {
    if loading then Loading else if user == None then Unauthenticated else Authenticated
  }

  /**
   * `ProtectedRoute`: a redirect to the sign-in page exactly when there is
   * no user, the guarded page otherwise. It is given the user only, not the
   * loading flag.
   */
  function ProtectedRoute(user: Option<User>, child: Page): (s: Screen)
    ensures s == Redirect(SignInPath) <==> user == None
    ensures s == Show(child) <==> user.Some?
  {
    if user == None then Redirect(SignInPath) else Show(child)
  }

  /** The `<Routes>` table, matched by exact path. */
  function Routes(path: string, user: Option<User>): (s: Screen)
    ensures s != Blank
    ensures path == SignInPath ==> s == Show(SignInPage)
    ensures path == SignUpPath ==> s == Show(SignUpPage)
    ensures path != SignInPath && path != SignUpPath ==> s == ProtectedRoute(user, MainLayout)
  {
    if path == SignInPath then Show(SignInPage)
    else if path == SignUpPath then Show(SignUpPage)
    else ProtectedRoute(user, MainLayout)
  }

  /** `App`: the whole route table sits inside the provider's loading gate. */
  function View(user: Option<User>, loading: bool, path: string): (s: Screen)
    ensures s == Blank <==> loading
    ensures !loading ==> s == Routes(path, user)
  {
    if loading then Blank else Routes(path, user)
  }

  /** The view of a mounted provider at `path`. */
  function ViewOf(p: AuthContext.AuthProvider, path: string): (s: Screen)
    reads p
    ensures s == Blank <==> !p.ChildrenRendered()
  {
    View(p.user, p.loading, path)
  }

  /** The guard's three states and what each shows at a protected path. */
  lemma GuardDecides(user: Option<User>, loading: bool, path: string)
    requires path != SignInPath && path != SignUpPath
    ensures Guard(user, loading) == Loading ==> View(user, loading, path) == Blank
    ensures Guard(user, loading) == Unauthenticated ==> View(user, loading, path) == Redirect(SignInPath)
    ensures Guard(user, loading) == Authenticated ==> View(user, loading, path) == Show(MainLayout)
  {
  }

  /** While loading, the shell is not shown at any path, whoever the user. */
  lemma NoShellWhileLoading(user: Option<User>, path: string)
    ensures View(user, true, path) != Show(MainLayout)
    ensures !View(user, true, path).Redirect?
  {
  }

  /** `/signin` and `/signup` are not guarded: an authenticated user reaches both. */
  lemma AuthPagesOpen(user: Option<User>)
    ensures View(user, false, SignInPath) == Show(SignInPage)
    ensures View(user, false, SignUpPath) == Show(SignUpPage)
  {
  }

  /** Signing out from the sidebar lands on the open sign-in page, whatever the session. */
  lemma SignOutLandsOnSignIn(user: Option<User>)
    ensures View(user, false, Sidebar.SignOutTarget) == Show(SignInPage)
  {
  }

  /**
   * The pages' success target `/` is a guarded path: it shows the shell
   * once the listener has delivered a user, and redirects back to
   * `/signin` while the known user is still none.
   */
  lemma SuccessTargetIsGuarded(user: Option<User>)
    ensures SignIn.SuccessTarget == SignUp.SuccessTarget
    ensures View(user, false, SignIn.SuccessTarget) == ProtectedRoute(user, MainLayout)
  {
    assert SignIn.SuccessTarget != SignInPath && SignIn.SuccessTarget != SignUpPath by {
      assert |SignIn.SuccessTarget| == 1;
    }
  }

  /** A provider that is still loading has no user and shows nothing at any path. */
  lemma NoUserWhileLoading(p: AuthContext.AuthProvider, path: string)
    requires p.Valid()
    ensures Guard(p.user, p.loading) == Loading ==> p.user == None && ViewOf(p, path) == Blank
  {
  }

  /**
   * A fresh load: the provider reports no user, then user `u1`. The guard
   * goes Loading, Unauthenticated, Authenticated, and never back to Loading;
   * at a protected path the screen goes blank, redirect to `/signin`, shell.
   */
  method SessionScenario(u1: User, path: string) returns (observed: seq<GuardState>, screens: seq<Screen>)
    requires path != SignInPath && path != SignUpPath
    ensures observed == [Loading, Unauthenticated, Authenticated]
    ensures screens == [Blank, Redirect(SignInPath), Show(MainLayout)]
  {
    var idp := new IdentityProvider();
    var p := new AuthContext.AuthProvider(idp);
    observed, screens := [Guard(p.user, p.loading)], [ViewOf(p, path)];
    p.Subscribe();
    p.Notify(None);
    observed, screens := observed + [Guard(p.user, p.loading)], screens + [ViewOf(p, path)];
    p.Notify(Some(u1));
    observed, screens := observed + [Guard(p.user, p.loading)], screens + [ViewOf(p, path)];
  }
}
