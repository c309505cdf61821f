/** The persisted session store: token, identity, authenticated flag, loading
    flag and last error, with the actions login, logout, checkAuth and
    clearError. Its policy is fail-closed: only an admin identity may be
    authenticated, and any doubt during re-validation clears the session.

    Network answers are inputs. Each asynchronous action is split into the
    update made before its request is awaited (`...Started`) and the update
    made when the answer arrives (`...Settled`); `Run` replays any interleaving
    of these halves, and the store class performs an action whose answer is
    already known. */
module AuthStore {
  import opened Common
  import opened Types

  const AccessDeniedMessage := "Access denied. Admin privileges required."
  const LoginFailedMessage := "Login failed. Please check your credentials."

  /** What a rejected promise carries: an `Error` with its message, or any other value. */
  datatype Thrown = ErrorObject(message: string) | OtherValue

  /** The settled answer of the login request. */
  datatype LoginAnswer = LoginResponse(token: string, user: User) | LoginFailure(thrown: Thrown)

  /** The settled answer of the current-identity request. */
  datatype MeAnswer = MeResponse(user: User) | MeFailure

  datatype Session = Session(
    token: Option<string>,
    user: Option<User>,
    isAuthenticated: bool,
    isLoading: bool,
    error: Option<string>)

  /** The part of the session written to storage. */
  datatype Persisted = Persisted(token: Option<string>, user: Option<User>, isAuthenticated: bool)

  const Initial := Session(None, None, false, false, None)

  predicate IsAdmin(u: Option<User>)
  {
    u.Some? && u.value.role == Admin
  }

  /** The store's invariant: an authenticated session holds an admin identity. */
  predicate AdminOnly(s: Session)
  {
    s.isAuthenticated ==> IsAdmin(s.user)
  }

  /** A session whose token is truthy counts as holding a token. */
  predicate HoldsToken(s: Session)
  {
    TruthyString(s.token)
  }

  // ---------------------------------------------------------------------
  // login

  /** The exception raised inside login's try block: a non-admin identity is
      turned into an access-denied error, a failed request rethrows as is. */
  function LoginThrown(a: LoginAnswer): (t: Option<Thrown>)
    ensures t == None <==> a.LoginResponse? && a.user.role == Admin
    ensures a.LoginResponse? && a.user.role != Admin ==> t == Some(ErrorObject(AccessDeniedMessage))
    ensures a.LoginFailure? ==> t == Some(a.thrown)
  {
    match a
    case LoginResponse(_, u) => if u.role != Admin then Some(ErrorObject(AccessDeniedMessage)) else None
    case LoginFailure(t) => Some(t)
  }

  /** The message the catch block stores: an Error's own message, else the fixed text. */
  function ErrorMessage(t: Thrown): (m: string)
    ensures t.ErrorObject? ==> m == t.message
    ensures t.OtherValue? ==> m == LoginFailedMessage
  {
    match t
    case ErrorObject(m) => m
    case OtherValue => LoginFailedMessage
  }

  /** Before the login request is awaited: loading, no error. */
  function LoginStarted(s: Session): (r: Session)
    ensures r.isLoading && r.error == None
    ensures r.token == s.token && r.user == s.user && r.isAuthenticated == s.isAuthenticated
    ensures AdminOnly(s) ==> AdminOnly(r)
  {
    s.(isLoading := true, error := None)
  }

  /** When the login answer arrives: every field is overwritten. */
  function LoginSettled(s: Session, a: LoginAnswer): (r: Session)
    ensures r.isAuthenticated <==> a.LoginResponse? && a.user.role == Admin
    ensures r.isAuthenticated ==> r.token == Some(a.token) && r.user == Some(a.user) && r.error == None
    ensures !r.isAuthenticated ==> r.token == None && r.user == None && r.error.Some?
    ensures AdminOnly(r) && !r.isLoading
  {
    match LoginThrown(a)
    case None => Session(Some(a.token), Some(a.user), true, false, None)
    case Some(t) => Session(None, None, false, false, Some(ErrorMessage(t)))
  }

  /** A whole login: authenticated exactly when the answer carries an admin,
      and otherwise logged out with the failure's message. */
  function AfterLogin(s: Session, a: LoginAnswer): (r: Session)
    ensures r.isAuthenticated <==> a.LoginResponse? && a.user.role == Admin
    ensures r.isAuthenticated ==> r == Session(Some(a.token), Some(a.user), true, false, None)
    ensures a.LoginResponse? && a.user.role != Admin ==>
              r == Session(None, None, false, false, Some(AccessDeniedMessage))
    ensures a.LoginFailure? && a.thrown.ErrorObject? ==>
              r == Session(None, None, false, false, Some(a.thrown.message))
    ensures a.LoginFailure? && a.thrown.OtherValue? ==>
              r == Session(None, None, false, false, Some(LoginFailedMessage))
    ensures AdminOnly(r) && !r.isLoading
  {
    LoginSettled(LoginStarted(s), a)
  }

  /** The outcome of a login does not depend on the session it started from. */
  lemma LoginForgetsPriorSession(s: Session, s': Session, a: LoginAnswer)
    ensures AfterLogin(s, a) == AfterLogin(s', a)
  {
  }

  // ---------------------------------------------------------------------
  // logout

  /** Logout clears every field; a request is sent only when a token is held. */
  function AfterLogout(s: Session): (r: Session)
    ensures r.token == None && r.user == None && !r.isAuthenticated && !r.isLoading && r.error == None
  {
    Initial
  }

  /** Whether logout notifies the backend. */
  function LogoutSendsRequest(s: Session): (sent: bool)
    ensures sent <==> s.token.Some? && s.token.value != ""
  {
    HoldsToken(s)
  }

  lemma LogoutIdempotent(s: Session)
    ensures AfterLogout(AfterLogout(s)) == AfterLogout(s)
    ensures !LogoutSendsRequest(AfterLogout(s))
  {
  }

  // ---------------------------------------------------------------------
  // checkAuth

  /** Before the identity request: without a token only the flag is cleared
      (and no request is made); with one the store starts loading. */
  function CheckAuthStarted(s: Session): (r: Session)
    ensures r.token == s.token && r.user == s.user && r.error == s.error
    ensures !HoldsToken(s) ==> !r.isAuthenticated && r.isLoading == s.isLoading
    ensures HoldsToken(s) ==> r.isLoading && r.isAuthenticated == s.isAuthenticated
    ensures AdminOnly(s) ==> AdminOnly(r)
  {
    if !HoldsToken(s) then s.(isAuthenticated := false) else s.(isLoading := true)
  }

  /** When the identity answer arrives: an admin is stored, anything else
      discards the session. The error field is never touched. */
  function CheckAuthSettled(s: Session, a: MeAnswer): (r: Session)
    ensures r.isAuthenticated <==> a.MeResponse? && a.user.role == Admin
    ensures r.isAuthenticated ==> r.user == Some(a.user) && r.token == s.token
    ensures !r.isAuthenticated ==> r.token == None && r.user == None
    ensures AdminOnly(r) && !r.isLoading && r.error == s.error
  {
    if a.MeResponse? && a.user.role == Admin then
      s.(user := Some(a.user), isAuthenticated := true, isLoading := false)
    else
      s.(token := None, user := None, isAuthenticated := false, isLoading := false)
  }

  function AfterCheckAuth(s: Session, a: MeAnswer): (r: Session)
    ensures !HoldsToken(s) ==> r == s.(isAuthenticated := false)
    ensures HoldsToken(s) && a.MeResponse? && a.user.role == Admin ==>
              r == s.(user := Some(a.user), isAuthenticated := true, isLoading := false)
    ensures HoldsToken(s) && !(a.MeResponse? && a.user.role == Admin) ==>
              r.token == None && r.user == None && !r.isAuthenticated && !r.isLoading
    ensures r.error == s.error
    ensures AdminOnly(r)
  {
    if !HoldsToken(s) then CheckAuthStarted(s) else CheckAuthSettled(CheckAuthStarted(s), a)
  }

  /** Whether checkAuth asks the backend for the current identity. */
  function CheckAuthSendsRequest(s: Session): (sent: bool)
    ensures sent <==> s.token.Some? && s.token.value != ""
  {
    HoldsToken(s)
  }

  // ---------------------------------------------------------------------
  // clearError and persistence

  function AfterClearError(s: Session): (r: Session)
    ensures r.error == None
    ensures r.token == s.token && r.user == s.user
    ensures r.isAuthenticated == s.isAuthenticated && r.isLoading == s.isLoading
  {
    s.(error := None)
  }

  /** The storage projection: token, user and the authenticated flag only. */
  function Partialize(s: Session): (p: Persisted)
    ensures p.token == s.token && p.user == s.user && p.isAuthenticated == s.isAuthenticated
  {
    Persisted(s.token, s.user, s.isAuthenticated)
  }

  /** A restart: the initial state with the stored fields merged over it. */
  function Rehydrate(p: Persisted): (s: Session)
    ensures Partialize(s) == p
    ensures !s.isLoading && s.error == None
  {
    Initial.(token := p.token, user := p.user, isAuthenticated := p.isAuthenticated)
  }

  /** Loading and error never survive a restart; the rest does. */
  lemma ReloadKeepsOnlyPersistedFields(s: Session, s': Session)
    requires Partialize(s) == Partialize(s')
    ensures Rehydrate(Partialize(s)) == Rehydrate(Partialize(s'))
    ensures Rehydrate(Partialize(s)) == s.(isLoading := false, error := None)
  {
  }

  // ---------------------------------------------------------------------
  // interleavings

  /** One step of the store: a half of an asynchronous action, a synchronous
      action, or a restart from storage. A 401 answer anywhere triggers `Logout`. */
  datatype Step =
    | StartLogin
    | SettleLogin(login: LoginAnswer)
    | StartCheckAuth
    | SettleCheckAuth(me: MeAnswer)
    | Logout
    | ClearError
    | Reload

  function Apply(s: Session, step: Step): (r: Session)
    ensures AdminOnly(s) ==> AdminOnly(r)
    ensures step.Logout? ==> r == Initial
    ensures step.Reload? ==> !r.isLoading && r.error == None && Partialize(r) == Partialize(s)
  {
    match step
    case StartLogin => LoginStarted(s)
    case SettleLogin(a) => LoginSettled(s, a)
    case StartCheckAuth => CheckAuthStarted(s)
    case SettleCheckAuth(a) => CheckAuthSettled(s, a)
    case Logout => AfterLogout(s)
    case ClearError => AfterClearError(s)
    case Reload => Rehydrate(Partialize(s))
  }

  /** The session after the steps, in order. A final logout always leaves the
      initial session, and a final restart never leaves a load or an error. */
  function Run(s: Session, steps: seq<Step>): (r: Session)
    ensures steps == [] ==> r == s
    ensures steps != [] && steps[|steps| - 1].Logout? ==> r == Initial
    ensures steps != [] && steps[|steps| - 1].Reload? ==> !r.isLoading && r.error == None
    decreases |steps|
  {
    if steps == [] then s else Run(Apply(s, steps[0]), steps[1..])
  }

  /** Whatever order answers arrive in, and whatever restarts happen between
      them, an authenticated session always holds an admin identity. */
  lemma {:induction false} RunKeepsAdminOnly(s: Session, steps: seq<Step>)
    requires AdminOnly(s)
    ensures AdminOnly(Run(s, steps))
    decreases |steps|
  {
    if steps != [] {
      RunKeepsAdminOnly(Apply(s, steps[0]), steps[1..]);
    }
  }

  lemma EveryReachableSessionIsAdminOnly(steps: seq<Step>)
    ensures AdminOnly(Run(Initial, steps))
  {
    RunKeepsAdminOnly(Initial, steps);
  }

  /** As written, an identity check that is still waiting when the session is
      logged out (by the user, or by a 401 answer elsewhere) authenticates the
      session when its admin answer arrives, with no token held. */
  lemma StaleCheckAuthAuthenticatesWithoutToken(u: User)
    requires u.role == Admin
    ensures var r := Run(Session(Some("t"), Some(u), true, false, None),
                         [StartCheckAuth, Logout, SettleCheckAuth(MeResponse(u))]);
            r.isAuthenticated && r.token == None
  {
    var s0 := Session(Some("t"), Some(u), true, false, None);
    var s1 := Apply(s0, StartCheckAuth);
    var s2 := Apply(s1, Logout);
    var steps := [StartCheckAuth, Logout, SettleCheckAuth(MeResponse(u))];
    assert Run(s0, steps) == Run(s1, steps[1..]);
    assert Run(s1, steps[1..]) == Run(s2, steps[2..]);
    assert Run(s2, steps[2..]) == Run(Apply(s2, SettleCheckAuth(MeResponse(u))), []);
  }

  /** The settle step with the evidently intended guard: an answer that
      arrives after the token was cleared is dropped, and only loading ends. */
  function CheckAuthSettledGuarded(s: Session, a: MeAnswer): (r: Session)
    ensures s.token.None? ==> r == s.(isLoading := false)
    ensures s.token.Some? ==> r == CheckAuthSettled(s, a)
  {
    if s.token.None? then s.(isLoading := false) else CheckAuthSettled(s, a)
  }

  /** A session holds a token whenever it is authenticated. */
  predicate TokenBacked(s: Session)
  {
    s.isAuthenticated ==> s.token.Some?
  }

  /** One step with the guarded settle. */
  function ApplyGuarded(s: Session, step: Step): (r: Session)
    ensures AdminOnly(s) ==> AdminOnly(r)
    ensures TokenBacked(s) ==> TokenBacked(r)
  {
    match step
    case SettleCheckAuth(a) => CheckAuthSettledGuarded(s, a)
    case _ => Apply(s, step)
  }

  function RunGuarded(s: Session, steps: seq<Step>): Session
    decreases |steps|
  {
    if steps == [] then s else RunGuarded(ApplyGuarded(s, steps[0]), steps[1..])
  }

  /** With the guard, every reachable session is admin-only and holds a token
      whenever it is authenticated, whatever the interleaving. */
  lemma {:induction false} GuardedRunKeepsTokenBacked(s: Session, steps: seq<Step>)
    requires AdminOnly(s) && TokenBacked(s)
    ensures AdminOnly(RunGuarded(s, steps)) && TokenBacked(RunGuarded(s, steps))
    decreases |steps|
  {
    if steps != [] {
      GuardedRunKeepsTokenBacked(ApplyGuarded(s, steps[0]), steps[1..]);
    }
  }

  /** The store object. Each method performs one action whose network answer
      is given as a parameter. */
  class Store {
    var token: Option<string>
    var user: Option<User>
    var isAuthenticated: bool
    var isLoading: bool
    var error: Option<string>

    function State(): Session
      reads this
    {
      Session(token, user, isAuthenticated, isLoading, error)
    }

    constructor ()
      ensures State() == Initial
    {
      token, user, isAuthenticated, isLoading, error := None, None, false, false, None;
    }

    /** The store as rebuilt from storage at start-up. */
    constructor Rehydrated(p: Persisted)
      ensures State() == Rehydrate(p)
    {
      token, user, isAuthenticated := p.token, p.user, p.isAuthenticated;
      isLoading, error := false, None;
    }

    /** Returns the exception that login rethrows to its caller, if any. */
    method Login(a: LoginAnswer) returns (rethrown: Option<Thrown>)
      modifies this
      ensures State() == AfterLogin(old(State()), a)
      ensures rethrown == LoginThrown(a)
    {
      isLoading, error := true, None;
      rethrown := None;
      match a {
        case LoginResponse(t, u) =>
          if u.role != Admin {
            rethrown := Some(ErrorObject(AccessDeniedMessage));
          } else {
            token, user, isAuthenticated, isLoading, error := Some(t), Some(u), true, false, None;
          }
        case LoginFailure(thrown) =>
          rethrown := Some(thrown);
      }
      if rethrown.Some? {
        token, user, isAuthenticated, isLoading := None, None, false, false;
        error := Some(ErrorMessage(rethrown.value));
      }
    }

    /** Returns whether the backend logout request was issued. */
    method Logout() returns (requested: bool)
      modifies this
      ensures requested == LogoutSendsRequest(old(State()))
      ensures State() == AfterLogout(old(State()))
    {
      requested := token.Some? && token.value != "";
      token, user, isAuthenticated, isLoading, error := None, None, false, false, None;
    }

    /** Returns whether the identity request was issued. */
    method CheckAuth(a: MeAnswer) returns (requested: bool)
      modifies this
      ensures requested == CheckAuthSendsRequest(old(State()))
      ensures State() == AfterCheckAuth(old(State()), a)
    {
      if token.None? || token.value == "" {
        isAuthenticated := false;
        return false;
      }
      requested := true;
      isLoading := true;
      if a.MeResponse? && a.user.role == Admin {
        user, isAuthenticated, isLoading := Some(a.user), true, false;
      } else {
        token, user, isAuthenticated, isLoading := None, None, false, false;
      }
    }

    method ClearError()
      modifies this
      ensures State() == AfterClearError(old(State()))
    {
      error := None;
    }

    /** What storage receives; a restart from it keeps every field but the
        loading flag and the error. */
    function Persist(): (p: Persisted)
      reads this
      ensures p.token == token && p.user == user && p.isAuthenticated == isAuthenticated
      ensures Rehydrate(p) == State().(isLoading := false, error := None)
    {
      Partialize(State())
    }
  }
}
