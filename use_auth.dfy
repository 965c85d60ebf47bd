// The client session manager of the auth example (composables/useAuth.ts).
//
// State is the token, the user record and the persisted `auth_token` storage
// entry. Every network call is an input (`Reply`), every request the code
// would issue is an output (`Request`), and whether the code runs in a
// browser (`import.meta.client`, which guards every storage access) is the
// manager's `client` flag.
//
// Each operation is given twice: as a pure transition over `Session` (the
// functions ending in `Step`, which carry the promised properties) and as a
// method of `SessionManager` that performs the same assignments in the order
// the composable does and is proved equal to its transition.
module Auth {
  import opened Api

  const LoginPath := "/api/auth/login"
  const LogoutPath := "/api/auth/logout"
  const UserInfoPath := "/api/auth/userinfo"

  /** Fallback messages of the errors raised on an unsuccessful envelope. */
  const LoginFailedMessage := "登录失败"
  const FetchUserFailedMessage := "获取用户信息失败"

  /** A request as issued: verb, path, Authorization header and JSON body. */
  datatype Request = Request(verb: string, path: string, authorization: Option<string>, body: Option<LoginRequest>)

  function Bearer(token: string): string
  {
    "Bearer " + token
  }

  function UserInfoRequest(token: string): Request
  {
    Request("GET", UserInfoPath, Some(Bearer(token)), None)
  }

  /** What a `$fetch` call comes back with: a decoded envelope, or a thrown error. */
  datatype Reply<+T> = Replied(envelope: Envelope<T>) | Thrown

  /** The error an operation raises: one thrown by `$fetch` itself, or one built from an envelope. */
  datatype Failure = FetchFailed | Raised(message: string)

  datatype Result<+T> = Ok(value: T) | Err(failure: Failure)

  /** `response.code === 0 && response.data` */
  predicate Accepted<T>(reply: Reply<T>)
  {
    reply.Replied? && reply.envelope.code == 0 && reply.envelope.data.Some?
  }

  /** The error raised for a reply that was not accepted. */
  function FailureOf<T>(reply: Reply<T>, fallback: string): Failure
  {
    match reply
    case Thrown => FetchFailed
    case Replied(envelope) => Raised(Or(envelope.message, fallback))
  }

  /** The session state: token, user record and the persisted storage entry. */
  datatype Session = Session(token: Option<string>, user: Option<UserInfo>, stored: Option<string>)

  /** The invariant every operation keeps: no user without a token. */
  predicate Valid(s: Session)
  {
    s.user.Some? ==> s.token.Some?
  }

  /** `isAuthenticated`: `!!token.value && !!user.value`. */
  predicate Authenticated(s: Session)
  {
    Truthy(s.token) && s.user.Some?
  }

  /** Token and user dropped; the storage entry removed where storage exists. */
  function Cleared(s: Session, client: bool): Session
  {
    Session(None, None, if client then None else s.stored)
  }

  /** The state after an operation, what it returned or raised, and the requests it issued. */
  datatype Transition<+T> = Transition(after: Session, result: Result<T>, sent: seq<Request>)

  /** `fetchUserInfo()` */
  function FetchStep(s: Session, client: bool, reply: Reply<UserInfo>): (t: Transition<Option<UserInfo>>)
    // without a token: null, no request, nothing changes
    ensures !Truthy(s.token) ==> t == Transition(s, Ok(None), [])
    // with one: exactly one request, carrying that token
    ensures Truthy(s.token) ==> t.sent == [UserInfoRequest(s.token.value)]
    ensures Truthy(s.token) ==> (t.result.Ok? <==> Accepted(reply))
    // success replaces the user wholesale and touches nothing else
    ensures t.result.Ok? ==> t.after.token == s.token && t.after.stored == s.stored
    ensures t.result.Ok? && Truthy(s.token) ==>
              t.result.value == reply.envelope.data && t.after.user == t.result.value && Authenticated(t.after)
    // any failure clears the whole session and rethrows
    ensures t.result.Err? ==> t.after == Cleared(s, client) && t.result.failure == FailureOf(reply, FetchUserFailedMessage)
    ensures Valid(s) ==> Valid(t.after)
  {
    if !Truthy(s.token) then
      Transition(s, Ok(None), [])
    else
      var sent := [UserInfoRequest(s.token.value)];
      if Accepted(reply) then
        Transition(s.(user := reply.envelope.data), Ok(reply.envelope.data), sent)
      else
        Transition(Cleared(s, client), Err(FailureOf(reply, FetchUserFailedMessage)), sent)
  }

  function LoginRequestOf(credentials: LoginRequest): Request
  {
    Request("POST", LoginPath, None, Some(credentials))
  }

  /** `login(credentials)` */
  function LoginStep(s: Session, client: bool, credentials: LoginRequest,
                     loginReply: Reply<AuthTokens>, userReply: Reply<UserInfo>): (t: Transition<AuthTokens>)
    ensures 1 <= |t.sent| <= 2 && t.sent[0] == LoginRequestOf(credentials)
    // a rejected or failed login call raises, clears token and user, leaves storage alone
    ensures !Accepted(loginReply) ==>
              t == Transition(s.(token := None, user := None), Err(FailureOf(loginReply, LoginFailedMessage)), [LoginRequestOf(credentials)])
    // an accepted one adopts the access token and, on the client, persists it
    ensures Accepted(loginReply) ==>
              var issued := loginReply.envelope.data.value.accessToken;
              && (issued != "" ==> t.sent == [LoginRequestOf(credentials), UserInfoRequest(issued)])
              && (t.result.Ok? <==> issued == "" || Accepted(userReply))
              && (t.result.Ok? ==> t.result.value == loginReply.envelope.data.value && t.after.token == Some(issued)
                                   && (client ==> t.after.stored == Some(issued)))
              && (t.result.Ok? && issued != "" ==> Authenticated(t.after) && t.after.user == userReply.envelope.data)
              && (t.result.Err? ==> t.after == Cleared(s, client) && t.result.failure == FailureOf(userReply, FetchUserFailedMessage))
    // off the client a successful login leaves the storage entry as it was
    ensures Accepted(loginReply) && t.result.Ok? && !client ==> t.after.stored == s.stored
    // a non-empty token and an accepted user reply: token, fetched user and stored token, nothing else
    ensures Accepted(loginReply) && loginReply.envelope.data.value.accessToken != "" && Accepted(userReply) ==>
              var issued := loginReply.envelope.data.value.accessToken;
              t.after == Session(Some(issued), userReply.envelope.data, if client then Some(issued) else s.stored)
    // an empty token is falsy: the user fetch is skipped and the user left as it was
    ensures Accepted(loginReply) && loginReply.envelope.data.value.accessToken == "" ==>
              t == Transition(s.(token := Some(""), stored := if client then Some("") else s.stored),
                              Ok(loginReply.envelope.data.value), [LoginRequestOf(credentials)])
    ensures t.result.Err? ==> t.after.token == None && t.after.user == None
    ensures Valid(s) ==> Valid(t.after)
  {
    var request := LoginRequestOf(credentials);
    if Accepted(loginReply) then
      var tokens := loginReply.envelope.data.value;
      var adopted := s.(token := Some(tokens.accessToken),
                        stored := if client then Some(tokens.accessToken) else s.stored);
      var fetched := FetchStep(adopted, client, userReply);
      match fetched.result
      case Ok(_) => Transition(fetched.after, Ok(tokens), [request] + fetched.sent)
      case Err(failure) => Transition(fetched.after.(token := None, user := None), Err(failure), [request] + fetched.sent)
    else
      Transition(s.(token := None, user := None), Err(FailureOf(loginReply, LoginFailedMessage)), [request])
  }

  function LogoutRequestOf(token: string): Request
  {
    Request("POST", LogoutPath, Some(Bearer(token)), None)
  }

  /**
   * `logout()`. The server notification's outcome is no input: a failure is
   * caught and only logged, and the clearing runs in `finally` either way.
   */
  function LogoutStep(s: Session, client: bool): (t: Transition<()>)
    // it never raises and always ends anonymous, with the storage entry removed
    ensures t.result.Ok? && t.after.token == None && t.after.user == None && !Authenticated(t.after)
    ensures client ==> t.after.stored == None
    ensures !client ==> t.after.stored == s.stored
    // the server is contacted exactly when a token is held, with that token
    ensures Truthy(s.token) <==> t.sent != []
    ensures Truthy(s.token) ==> t.sent == [LogoutRequestOf(s.token.value)]
  {
    var sent := if Truthy(s.token) then [LogoutRequestOf(s.token.value)] else [];
    Transition(Cleared(s, client), Ok(()), sent)
  }

  /** `initAuth()` */
  function InitStep(s: Session, client: bool, reply: Reply<UserInfo>): (t: Transition<()>)
    // failures are absorbed: it never raises
    ensures t.result.Ok?
    // off the client, or with no saved token, nothing happens
    ensures !(client && Truthy(s.stored)) ==> t == Transition(s, Ok(()), [])
    ensures client && Truthy(s.stored) ==>
              && t.sent == [UserInfoRequest(s.stored.value)]
              && (Accepted(reply) ==> t.after == Session(s.stored, reply.envelope.data, s.stored) && Authenticated(t.after))
              && (!Accepted(reply) ==> t.after == Session(None, None, None))
    ensures Valid(s) ==> Valid(t.after)
  {
    if client && Truthy(s.stored) then
      var fetched := FetchStep(s.(token := s.stored), client, reply);
      var after := if fetched.result.Err? then Session(None, None, None) else fetched.after;
      Transition(after, Ok(()), fetched.sent)
    else
      Transition(s, Ok(()), [])
  }

  /** Logging out twice is logging out once: the second call sends nothing and changes nothing. */
  lemma LogoutIdempotent(s: Session, client: bool)
    ensures var once := LogoutStep(s, client).after;
            LogoutStep(once, client) == Transition(once, Ok(()), [])
  {
  }

  /**
   * A token persisted by a successful login on the client is picked up by
   * `initAuth` in a fresh session: with the user-info reply accepted again, the
   * rehydrated session holds the same token and is authenticated.
   */
  lemma LoginPersistsForInit(s: Session, credentials: LoginRequest, loginReply: Reply<AuthTokens>,
                             userReply: Reply<UserInfo>, laterReply: Reply<UserInfo>)
    requires LoginStep(s, true, credentials, loginReply, userReply).result.Ok?
    requires loginReply.envelope.data.value.accessToken != ""
    requires Accepted(laterReply)
    ensures var loggedIn := LoginStep(s, true, credentials, loginReply, userReply).after;
            var restarted := InitStep(Session(None, None, loggedIn.stored), true, laterReply).after;
            restarted.token == loggedIn.token && Authenticated(restarted)
  {
  }

  /** After a logout on the client, a restart stays anonymous without contacting the server. */
  lemma LogoutThenInitStaysAnonymous(s: Session, reply: Reply<UserInfo>)
    ensures var out := LogoutStep(s, true).after;
            InitStep(Session(None, None, out.stored), true, reply) == Transition(Session(None, None, None), Ok(()), [])
  {
  }

  /**
   * A login whose envelope carries an empty access token succeeds without
   * fetching the user (the empty token is falsy): it returns the tokens while
   * the session is not authenticated and still holds whatever user it held.
   */
  lemma EmptyAccessTokenLoginIsNotAuthenticated(s: Session, client: bool, credentials: LoginRequest,
                                                message: string, tokens: AuthTokens, userReply: Reply<UserInfo>)
    requires tokens.accessToken == ""
    ensures var t := LoginStep(s, client, credentials, Replied(Envelope(0, message, Some(tokens))), userReply);
            && t.result == Ok(tokens) && !Authenticated(t.after)
            && t.after.token == Some("") && t.after.user == s.user
            && t.sent == [LoginRequestOf(credentials)]
  {
  }

  class SessionManager {
    const client: bool
    var token: Option<string>
    var user: Option<UserInfo>
    var stored: Option<string>

    function State(): Session
      reads this
    {
      Session(token, user, stored)
    }

    /** `isAuthenticated` */
    predicate IsAuthenticated()
      reads this
      ensures IsAuthenticated() <==> token.Some? && token.value != "" && user.Some?
    {
      Authenticated(State())
    }

    /** A fresh state: no token, no user; `saved` is whatever storage already holds. */
    constructor (client: bool, saved: Option<string>)
      ensures this.client == client && State() == Session(None, None, saved)
      ensures Valid(State())
    {
      this.client := client;
      token := None;
      user := None;
      stored := saved;
    }

    method FetchUserInfo(reply: Reply<UserInfo>) returns (r: Result<Option<UserInfo>>, sent: seq<Request>)
      modifies this
      ensures Transition(State(), r, sent) == FetchStep(old(State()), client, reply)
      ensures Valid(old(State())) ==> Valid(State())
    {
      if !Truthy(token) {
        return Ok(None), [];
      }
      sent := [UserInfoRequest(token.value)];
      var failure: Failure;
      match reply {
        case Replied(response) =>
          if response.code == 0 && response.data.Some? {
            user := response.data;
            return Ok(response.data), sent;
          }
          failure := Raised(Or(response.message, FetchUserFailedMessage));
        case Thrown =>
          failure := FetchFailed;
      }
      token := None;
      user := None;
      if client {
        stored := None;
      }
      r := Err(failure);
    }

    method Login(credentials: LoginRequest, loginReply: Reply<AuthTokens>, userReply: Reply<UserInfo>)
      returns (r: Result<AuthTokens>, sent: seq<Request>)
      modifies this
      ensures Transition(State(), r, sent) == LoginStep(old(State()), client, credentials, loginReply, userReply)
      ensures r.Err? ==> token == None && user == None
      ensures Valid(old(State())) ==> Valid(State())
    {
      sent := [LoginRequestOf(credentials)];
      var failure: Failure;
      match loginReply {
        case Replied(response) =>
          if response.code == 0 && response.data.Some? {
            token := Some(response.data.value.accessToken);
            if client {
              stored := Some(response.data.value.accessToken);
            }
            var fetched, more := FetchUserInfo(userReply);
            sent := sent + more;
            if fetched.Ok? {
              return Ok(response.data.value), sent;
            }
            failure := fetched.failure;
          } else {
            failure := Raised(Or(response.message, LoginFailedMessage));
          }
        case Thrown =>
          failure := FetchFailed;
      }
      token := None;
      user := None;
      r := Err(failure);
    }

    method Logout() returns (sent: seq<Request>)
      modifies this
      ensures Transition(State(), Ok(()), sent) == LogoutStep(old(State()), client)
      ensures token == None && user == None
    {
      sent := [];
      if Truthy(token) {
        sent := [LogoutRequestOf(token.value)];
        // a failed notification is logged and otherwise ignored
      }
      token := None;
      user := None;
      if client {
        stored := None;
      }
    }

    method InitAuth(reply: Reply<UserInfo>) returns (sent: seq<Request>)
      modifies this
      ensures Transition(State(), Ok(()), sent) == InitStep(old(State()), client, reply)
      ensures Valid(old(State())) ==> Valid(State())
    {
      sent := [];
      if client {
        var saved := stored;
        if Truthy(saved) {
          token := saved;
          var fetched;
          fetched, sent := FetchUserInfo(reply);
          if fetched.Err? {
            token := None;
            user := None;
            stored := None;
          }
        }
      }
    }
  }
}
