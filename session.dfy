/**
 * The application shell (`App`): the session store behind `AuthContext`
 * (in-memory `user`, the `loading` flag and the token persisted under the
 * local-storage key "token") and the route table that guards every page.
 */
module Session {
  import opened Wrappers
  import opened Text

  /** The user record returned by `/auth/me`, `/auth/login` and `/auth/register`. */
  datatype User = User(id: string, fullName: string, email: string, role: string)

  /** Everything the shell keeps: React state plus the persisted token. */
  datatype SessionState = SessionState(user: Option<User>, loading: bool, storedToken: Option<string>)

  /** The three states of the shell. */
  datatype Phase = Loading | Anonymous | Authenticated

  function PhaseOf(s: SessionState): (p: Phase)
    ensures p == Loading <==> s.loading
    ensures p == Authenticated <==> !s.loading && s.user.Some?
  {
    if s.loading then Loading else if s.user.Some? then Authenticated else Anonymous
  }

  /** JavaScript truthiness of the value read back from local storage. */
  predicate HasToken(stored: Option<string>) {
    stored.Some? && stored.value != ""
  }

  /**
   * The invariant the shell keeps: a user is only ever held together with a
   * persisted token, and once loading is over a (non-empty) persisted token
   * always comes with a user.
   */
  ghost predicate Consistent(s: SessionState) {
    (s.user.Some? ==> s.storedToken.Some?) &&
    (!s.loading && HasToken(s.storedToken) ==> s.user.Some?)
  }

  /** Value of the `Authorization` header for a bearer token (section 2.1 of RFC 6750). */
  function BearerHeader(token: string): (h: string)
    ensures StartsWith(h, "Bearer ") && h[|"Bearer "|..] == token
  {
    "Bearer " + token
  }

  /** A freshly started shell: loading, no user, whatever storage held. */
  function Initial(persisted: Option<string>): (s: SessionState)
    ensures PhaseOf(s) == Loading && s.user.None? && s.storedToken == persisted
  {
    SessionState(None, true, persisted)
  }

  /**
   * The start-up effect.  `outcome` is the answer of `GET /auth/me`
   * (`None` for any failure); it is only consulted when a request is made.
   */
  function AfterRestore(s: SessionState, outcome: Option<User>): (r: SessionState)
    ensures !r.loading
    ensures !HasToken(s.storedToken) ==> r.user == s.user && r.storedToken == s.storedToken
    ensures HasToken(s.storedToken) && outcome.Some? ==> r.user == outcome && r.storedToken == s.storedToken
    ensures HasToken(s.storedToken) && outcome.None? ==> r.user == s.user && r.storedToken.None?
    ensures s.user.None? ==> Consistent(r)
  {
    if !HasToken(s.storedToken) then s.(loading := false)
    else if outcome.Some? then s.(user := outcome, loading := false)
    else s.(storedToken := None, loading := false)
  }

  /** `login`: the token is persisted and the user held, whatever was there before. */
  function AfterLogin(s: SessionState, token: string, u: User): (r: SessionState)
    ensures r.user == Some(u) && r.storedToken == Some(token) && r.loading == s.loading
    ensures Consistent(r)
    ensures !s.loading ==> PhaseOf(r) == Authenticated
  {
    s.(storedToken := Some(token), user := Some(u))
  }

  /** `logout`: both the persisted token and the user are dropped. */
  function AfterLogout(s: SessionState): (r: SessionState)
    ensures r.user.None? && r.storedToken.None? && r.loading == s.loading
    ensures Consistent(r)
    ensures !s.loading ==> PhaseOf(r) == Anonymous
  {
    s.(storedToken := None, user := None)
  }

  /** Restoring from a fresh shell ends loading in a consistent state, whatever the backend says. */
  lemma RestoreEstablishesConsistency(persisted: Option<string>, outcome: Option<User>)
    ensures var s := AfterRestore(Initial(persisted), outcome);
      Consistent(s) && PhaseOf(s) != Loading
  {
  }

  /** Restore with no usable token: anonymous, and storage is left as it was. */
  lemma RestoreWithoutToken(persisted: Option<string>, outcome: Option<User>)
    requires !HasToken(persisted)
    ensures AfterRestore(Initial(persisted), outcome) == SessionState(None, false, persisted)
  {
  }

  /** Restore failure: the token is discarded and the shell is anonymous. */
  lemma RestoreFailure(t: string)
    requires t != ""
    ensures var s := AfterRestore(Initial(Some(t)), None);
      PhaseOf(s) == Anonymous && s.storedToken.None? && s.user.None?
  {
  }

  /** Restore success: authenticated with exactly the returned record. */
  lemma RestoreSuccess(t: string, u: User)
    requires t != ""
    ensures var s := AfterRestore(Initial(Some(t)), Some(u));
      PhaseOf(s) == Authenticated && s.user == Some(u) && s.storedToken == Some(t)
  {
  }

  /** Login and logout keep the invariant. */
  lemma TransitionsPreserveConsistency(s: SessionState, t: string, u: User)
    requires Consistent(s)
    ensures Consistent(AfterLogin(s, t, u)) && Consistent(AfterLogout(s))
  {
  }

  /** A second login fully replaces the first. */
  lemma LoginReplacesSession(s: SessionState, t1: string, u1: User, t2: string, u2: User)
    ensures AfterLogin(AfterLogin(s, t1, u1), t2, u2) == AfterLogin(s, t2, u2)
  {
  }

  /** Logout is idempotent, and login followed by logout leaves neither token nor user. */
  lemma LogoutLaws(s: SessionState, t: string, u: User)
    ensures AfterLogout(AfterLogout(s)) == AfterLogout(s)
    ensures AfterLogout(AfterLogin(s, t, u)) == AfterLogout(s)
    ensures !s.loading ==> PhaseOf(AfterLogout(AfterLogin(s, t, u))) == Anonymous
  {
  }

  /** The shell as an object: the fields the component updates in place. */
  class SessionStore {
    var user: Option<User>
    var loading: bool
    var storedToken: Option<string>

    function State(): SessionState
      reads this
    {
      SessionState(user, loading, storedToken)
    }

    constructor (persisted: Option<string>)
      ensures State() == Initial(persisted)
    {
      user := None;
      loading := true;
      storedToken := persisted;
    }

    /**
     * The mount effect.  `request` is the `Authorization` header sent to
     * `/auth/me`, or `None` when no request is made.
     */
    method Restore(outcome: Option<User>) returns (request: Option<string>)
      requires loading && user.None?
      modifies this
      ensures State() == AfterRestore(old(State()), outcome)
      ensures request == if HasToken(old(storedToken)) then Some(BearerHeader(old(storedToken).value)) else None
      ensures Consistent(State()) && !loading
    {
      var token := storedToken;
      if token.Some? && token.value != "" {
        request := Some(BearerHeader(token.value));
        if outcome.Some? {
          user := outcome;
          loading := false;
        } else {
          storedToken := None;
          loading := false;
        }
      } else {
        request := None;
        loading := false;
      }
    }

    method Login(token: string, userData: User)
      modifies this
      ensures State() == AfterLogin(old(State()), token, userData)
      ensures Consistent(old(State())) ==> Consistent(State())
    {
      storedToken := Some(token);
      user := Some(userData);
    }

    method Logout()
      modifies this
      ensures State() == AfterLogout(old(State()))
      ensures Consistent(old(State())) ==> Consistent(State())
    {
      storedToken := None;
      user := None;
    }
  }

  /** The pages behind the protected routes. */
  datatype View = LoginView | DashboardView | TendersView | TenderDetailView(tenderId: string)
                | CrmView | ReportsView | ChatView

  datatype Route = LoginRoute | Protected(view: View) | RootRoute

  /** What the shell shows for a requested path. */
  datatype Screen = Placeholder | Render(view: View) | Redirect(to: string) | NoMatch

  /** The route table; `/tenders/:tenderId` takes one non-empty path segment. */
  function RouteOf(path: string): (r: Option<Route>)
    ensures r == Some(LoginRoute) <==> path == "/login"
    ensures r == Some(RootRoute) <==> path == "/"
    ensures r.Some? && r.value.Protected? ==> r.value.view != LoginView
  {
    if path == "/login" then Some(LoginRoute)
    else if path == "/dashboard" then Some(Protected(DashboardView))
    else if path == "/tenders" then Some(Protected(TendersView))
    else if path == "/crm" then Some(Protected(CrmView))
    else if path == "/reports" then Some(Protected(ReportsView))
    else if path == "/chat" then Some(Protected(ChatView))
    else if path == "/" then Some(RootRoute)
    else if StartsWith(path, "/tenders/") && |path| > |"/tenders/"| && '/' !in path[|"/tenders/"|..]
    then Some(Protected(TenderDetailView(path[|"/tenders/"|..])))
    else None
  }

  predicate IsProtectedPath(path: string) {
    var r := RouteOf(path); r.Some? && r.value.Protected?
  }

  /** The guard: a pure decision on the session state and the requested path. */
  function DecideRoute(s: SessionState, path: string): (d: Screen)
    ensures s.loading ==> d == Placeholder
    ensures d.Render? ==> !s.loading && (d.view == LoginView <==> s.user.None?)
    ensures !s.loading && path == "/login" ==>
      d == (if s.user.None? then Render(LoginView) else Redirect("/dashboard"))
    ensures !s.loading && IsProtectedPath(path) ==>
      (d.Render? <==> s.user.Some?) && (s.user.None? ==> d == Redirect("/login"))
    ensures !s.loading && path == "/" ==>
      d == Redirect(if s.user.Some? then "/dashboard" else "/login")
    ensures d == NoMatch <==> !s.loading && RouteOf(path).None?
  {
    if s.loading then Placeholder
    else match RouteOf(path)
      case None => NoMatch
      case Some(LoginRoute) => if s.user.None? then Render(LoginView) else Redirect("/dashboard")
      case Some(Protected(v)) => if s.user.Some? then Render(v) else Redirect("/login")
      case Some(RootRoute) => Redirect(if s.user.Some? then "/dashboard" else "/login")
  }

  /** Every redirect lands on a path that renders in the same state. */
  lemma {:induction false} RedirectsSettle(s: SessionState, path: string)
    requires DecideRoute(s, path).Redirect?
    ensures DecideRoute(s, DecideRoute(s, path).to).Render?
  {
    var to := DecideRoute(s, path).to;
    assert to == "/dashboard" || to == "/login";
    if to == "/dashboard" {
      assert RouteOf(to) == Some(Protected(DashboardView));
    }
  }
}
