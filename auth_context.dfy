/** The session provider: the current user, a loading flag, and the two browser
    stores it touches, modelled as key/value maps. */
module AuthContext {
  import opened Types

  const TokenKey: string := "delivery-token"
  const ProfileKey: string := "delivery-user"
  /** The expiry, in days, given when the token cookie is written. */
  const TokenLifetimeDays: nat := 7

  datatype Cookie = Cookie(value: string, expiresDays: Option<nat>)

  /** The `{ token, user }` body of a successful login or registration. */
  datatype Session = Session(token: string, user: User)

  datatype LoginRequest = LoginRequest(email: string, password: string)

  datatype RegisterRequest = RegisterRequest(
    fullName: string,
    email: string,
    password: string,
    phone: string,
    vehicle: Option<string>)

  datatype AuthState = AuthState(
    user: Option<User>,
    loading: bool,
    cookies: map<string, Cookie>,
    storage: map<string, string>)

  /** isAuthenticated: `!!user`. */
  predicate IsAuthenticated(st: AuthState)
  {
    st.user.Some?
  }

  /** A fresh provider over whatever the browser already stores. */
  function Initial(cookies: map<string, Cookie>, storage: map<string, string>): AuthState
  {
    AuthState(None, true, cookies, storage)
  }

  /** `Cookies.get("delivery-token")`, when truthy. */
  function StoredToken(st: AuthState): (r: Option<string>)
    ensures r.Some? <==> TokenKey in st.cookies && st.cookies[TokenKey].value != ""
    ensures r.Some? ==> r.value == st.cookies[TokenKey].value
  {
    if TokenKey in st.cookies && st.cookies[TokenKey].value != "" then Some(st.cookies[TokenKey].value)
    else None
  }

  /** The mount effect. No stored token: only `loading` is lowered and the
      server is not asked. A token the server accepts: its user is set. A
      rejected token: the user is cleared and the token cookie removed. */
  function AfterBootstrap(st: AuthState, verify: Outcome<User>): (r: AuthState)
    ensures !r.loading && r.storage == st.storage
    ensures StoredToken(st).None? ==> r == st.(loading := false)
    ensures StoredToken(st).Some? && verify.Success? ==> r == st.(user := Some(verify.value), loading := false)
    ensures StoredToken(st).Some? && verify.Failure? ==>
      && r.user.None? && TokenKey !in r.cookies
      && (forall k :: k in st.cookies && k != TokenKey ==> k in r.cookies && r.cookies[k] == st.cookies[k])
      && (forall k :: k in r.cookies ==> k in st.cookies)
  {
    if StoredToken(st).None? then st.(loading := false)
    else match verify
      case Success(u) => st.(user := Some(u), loading := false)
      case Failure(_) => st.(user := None, cookies := st.cookies - {TokenKey}, loading := false)
  }

  /** The shared tail of login and register: on success the token is stored for
      seven days and the user set; on failure user and stores are untouched.
      `loading` ends false either way. */
  function AfterAuthReply(st: AuthState, reply: Outcome<Session>): (r: AuthState)
    ensures !r.loading && r.storage == st.storage
    ensures reply.Success? ==>
      && r.user == Some(reply.value.user)
      && TokenKey in r.cookies && r.cookies[TokenKey] == Cookie(reply.value.token, Some(TokenLifetimeDays))
      && (forall k :: k != TokenKey ==> (k in r.cookies <==> k in st.cookies))
      && (forall k :: k in st.cookies && k != TokenKey ==> r.cookies[k] == st.cookies[k])
    ensures reply.Failure? ==> r == st.(loading := false)
  {
    match reply
    case Success(session) =>
      st.(cookies := st.cookies[TokenKey := Cookie(session.token, Some(TokenLifetimeDays))],
          user := Some(session.user), loading := false)
    case Failure(_) => st.(loading := false)
  }

  /** What the provider rethrows: `error?.response?.data || error`. */
  function Rethrown(e: GatewayError): (t: Thrown)
    ensures e.responseData.Some? ==> t.message == e.responseData.value.message
    ensures e.responseData.None? ==> t.message == Some(e.message)
  {
    if e.responseData.Some? then Thrown(e.responseData.value.message) else Thrown(Some(e.message))
  }

  /** logout: the user is cleared and the cached profile removed from local
      storage. The token cookie is left where it was. */
  function AfterLogout(st: AuthState): (r: AuthState)
    ensures !IsAuthenticated(r) && r.user == None && ProfileKey !in r.storage
    ensures forall k :: k != ProfileKey ==> (k in r.storage <==> k in st.storage)
    ensures forall k :: k in st.storage && k != ProfileKey ==> r.storage[k] == st.storage[k]
    ensures r.cookies == st.cookies && r.loading == st.loading
  {
    st.(user := None, storage := st.storage - {ProfileKey})
  }

  /** A page reload: a new provider over the same browser stores. */
  function Reload(st: AuthState): AuthState
  {
    Initial(st.cookies, st.storage)
  }

  /** Logout leaves the token behind: after a reload the provider asks the
      server about that same token, and if the server still accepts it, the
      session is back without a new login. */
  lemma LogoutThenReloadRestoresSession(st: AuthState, u: User)
    requires StoredToken(st).Some?
    ensures StoredToken(Reload(AfterLogout(st))) == StoredToken(st)
    ensures AfterBootstrap(Reload(AfterLogout(st)), Success(u)).user == Some(u)
  {
  }

  /** After a successful login with a non-empty token, a reload verifies that token. */
  lemma LoginTokenSurvivesReload(st: AuthState, s: Session)
    requires s.token != ""
    ensures StoredToken(Reload(AfterAuthReply(st, Success(s)))) == Some(s.token)
  {
  }

  /** Bootstrap settles the session one way or the other: authenticated exactly
      when there was a token and the server accepted it, with no token left
      behind after a rejection. */
  lemma BootstrapSettles(st: AuthState, verify: Outcome<User>)
    requires st.user.None?
    ensures IsAuthenticated(AfterBootstrap(st, verify)) <==> StoredToken(st).Some? && verify.Success?
    ensures StoredToken(st).Some? && verify.Failure? ==> StoredToken(AfterBootstrap(st, verify)).None?
  {
  }

  /** A failed login or registration changes nothing but `loading`. */
  lemma FailedAuthChangesNothing(st: AuthState, e: GatewayError)
    ensures AfterAuthReply(st, Failure(e)).user == st.user
    ensures AfterAuthReply(st, Failure(e)).cookies == st.cookies
    ensures StoredToken(AfterAuthReply(st, Failure(e))) == StoredToken(st)
  {
  }

  class AuthProvider {
    var user: Option<User>
    var loading: bool
    var cookies: map<string, Cookie>
    var storage: map<string, string>
    /** Every value written to `loading`, oldest first. */
    ghost var loadingLog: seq<bool>

    function State(): AuthState
      reads this
    {
      AuthState(user, loading, cookies, storage)
    }

    constructor (cookies: map<string, Cookie>, storage: map<string, string>)
      ensures State() == Initial(cookies, storage) && loadingLog == []
    {
      user := None;
      loading := true;
      this.cookies := cookies;
      this.storage := storage;
      loadingLog := [];
    }

    /** The mount effect; returns the token sent to the verify call, None when
        no call is made. */
    method Bootstrap(verify: Outcome<User>) returns (sent: Option<string>)
      modifies this
      ensures sent == StoredToken(old(State()))
      ensures State() == AfterBootstrap(old(State()), verify)
      ensures loadingLog == old(loadingLog) + [false]
    {
      if TokenKey in cookies && cookies[TokenKey].value != "" {
        sent := Some(cookies[TokenKey].value);
        match verify {
          case Success(u) =>
            user := Some(u);
          case Failure(_) =>
            user := None;
            cookies := cookies - {TokenKey};
        }
      } else {
        sent := None;
      }
      loading := false;
      loadingLog := loadingLog + [false];
    }

    /** login: returns the request sent and the value rethrown, if any. */
    method Login(email: string, password: string, reply: Outcome<Session>)
      returns (request: LoginRequest, thrown: Option<Thrown>)
      modifies this
      ensures request == LoginRequest(email, password)
      ensures thrown == (if reply.Failure? then Some(Rethrown(reply.error)) else None)
      ensures State() == AfterAuthReply(old(State()), reply)
      ensures loadingLog == old(loadingLog) + [true, false]
    {
      loading := true;
      loadingLog := loadingLog + [true];
      request := LoginRequest(email, password);
      thrown := StoreSession(reply);
      loading := false;
      loadingLog := loadingLog + [false];
    }

    /** register: the same contract as login, with the registration request. */
    method Register(name: string, email: string, password: string, phone: string,
                    vehicle: Option<string>, reply: Outcome<Session>)
      returns (request: RegisterRequest, thrown: Option<Thrown>)
      modifies this
      ensures request == RegisterRequest(name, email, password, phone, vehicle)
      ensures thrown == (if reply.Failure? then Some(Rethrown(reply.error)) else None)
      ensures State() == AfterAuthReply(old(State()), reply)
      ensures loadingLog == old(loadingLog) + [true, false]
    {
      loading := true;
      loadingLog := loadingLog + [true];
      request := RegisterRequest(name, email, password, phone, vehicle);
      thrown := StoreSession(reply);
      loading := false;
      loadingLog := loadingLog + [false];
    }

    /** The try/catch shared by login and register. */
    method StoreSession(reply: Outcome<Session>) returns (thrown: Option<Thrown>)
      modifies this`cookies, this`user
      ensures thrown == (if reply.Failure? then Some(Rethrown(reply.error)) else None)
      ensures State() == AfterAuthReply(old(State()), reply).(loading := loading)
    {
      match reply {
        case Success(session) =>
          cookies := cookies[TokenKey := Cookie(session.token, Some(TokenLifetimeDays))];
          user := Some(session.user);
          thrown := None;
        case Failure(e) =>
          thrown := Some(Rethrown(e));
      }
    }

    method Logout()
      modifies this`user, this`storage
      ensures State() == AfterLogout(old(State()))
    {
      user := None;
      storage := storage - {ProfileKey};
    }
  }
}
