// The session endpoint of the auth example (server/api/auth/session.get.ts):
// the auth gate, answering with the 401 envelope or with the session user.
module SessionHandler {
  import opened Api
  import opened ServerKit
  import LoginHandler

  function SessionEnvelope(user: Option<UserRecord>): (r: Envelope<UserRecord>)
    // no user: a 401 envelope with no data, never a raised error
    ensures r.code == 0 <==> user.Some?
    ensures user.None? ==> r.code == 401 && r.data == None && r.message == "Not authenticated"
    // a user: the session user itself
    ensures user.Some? ==> r.message == "success" && r.data == user
  {
    if user.None? then Envelope(401, "Not authenticated", None)
    else Envelope(0, "success", user)
  }

  /**
   * After a successful login the session endpoint answers with the same user
   * record the login envelope carried; after a failed one it answers as it
   * did before.
   */
  lemma SessionAfterLoginEchoesLogin(prior: Option<UserRecord>, body: LoginHandler.LoginBody)
    ensures var login := LoginHandler.LoginEnvelope(body);
            var session := SessionEnvelope(LoginHandler.SessionAfterLogin(prior, body));
            && (login.code == 0 ==> session.code == 0 && session.data == login.data)
            && (login.code != 0 ==> session == SessionEnvelope(prior))
  {
  }
}
