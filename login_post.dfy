// The login endpoint of the auth example (server/api/auth/login.post.ts):
// an exact-equality check against one configured identity, a session write
// on success, and the success or 401 envelope.
module LoginHandler {
  import opened Api
  import opened ServerKit

  const AdminEmail := "admin@example.com"
  const AdminPassword := "password"
  const LoginDelayMs := 800

  /** The user the session holds after a successful login, and the data returned with it. */
  const AdminUser: UserRecord :=
    map["id" := "1", "email" := AdminEmail, "name" := "Admin User", "role" := "admin"]

  /** The request body; a field the client left out is `None`. */
  datatype LoginBody = LoginBody(email: Option<string>, password: Option<string>)

  predicate CredentialsMatch(body: LoginBody)
  {
    body.email == Some(AdminEmail) && body.password == Some(AdminPassword)
  }

  /** The envelope the handler returns for `body`. */
  function LoginEnvelope(body: LoginBody): (r: Envelope<UserRecord>)
    // success exactly for the configured pair, compared exactly
    ensures r.code == 0 <==> body == LoginBody(Some("admin@example.com"), Some("password"))
    ensures r.code == 0 ==> r.message == "Login successful" && r.data == Some(AdminUser)
    // every other body gets the same 401 envelope
    ensures r.code != 0 ==> r == Envelope(401, "Invalid credentials", None)
  {
    if CredentialsMatch(body) then Envelope(0, "Login successful", Some(AdminUser))
    else Envelope(401, "Invalid credentials", None)
  }

  /** The session user after the handler ran, given the one before. */
  function SessionAfterLogin(prior: Option<UserRecord>, body: LoginBody): (after: Option<UserRecord>)
    // written only on success, and then with the very record the envelope carries
    ensures LoginEnvelope(body).code == 0 ==> after == LoginEnvelope(body).data
    ensures LoginEnvelope(body).code != 0 ==> after == prior
  {
    if CredentialsMatch(body) then Some(AdminUser) else prior
  }

  /** The cookie-backed session store behind `setUserSession`. */
  class SessionStore {
    var user: Option<UserRecord>

    constructor (user: Option<UserRecord>)
      ensures this.user == user
    {
      this.user := user;
    }
  }

  method HandleLogin(store: SessionStore, body: LoginBody) returns (r: Envelope<UserRecord>, effects: seq<Effect>)
    modifies store
    ensures effects == [Sleep(LoginDelayMs)]
    ensures r == LoginEnvelope(body)
    ensures store.user == SessionAfterLogin(old(store.user), body)
  {
    effects := [Sleep(LoginDelayMs)];
    if body.email == Some(AdminEmail) && body.password == Some(AdminPassword) {
      store.user := Some(AdminUser);
      return Envelope(0, "Login successful", Some(AdminUser)), effects;
    }
    r := Envelope(401, "Invalid credentials", None);
  }
}
