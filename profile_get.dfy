// The profile endpoint of the auth example (server/api/profile.get.ts): the
// auth gate, a wait, then the session user spread into a record with three
// extra fields.
module ProfileHandler {
  import opened Api
  import opened ServerKit
  import LoginHandler

  const ProfileDelayMs := 500
  const Bio := "A passionate developer"
  const JoinedAt := "2024-01-01"

  /** The fields the handler adds after the spread; later fields win. */
  const AddedFields := {"bio", "joinedAt", "lastLogin"}

  /** `{ ...user, bio, joinedAt, lastLogin: now }` */
  function Extend(user: UserRecord, now: string): UserRecord
  {
    user + map["bio" := Bio, "joinedAt" := JoinedAt, "lastLogin" := now]
  }

  /** The handler; `now` is the timestamp the clock would give. */
  function ProfileReply(user: Option<UserRecord>, now: string): (r: Handled<Envelope<UserRecord>>)
    // the gate runs first: no user means no wait and a 401 envelope
    ensures user.None? ==> r.effects == [] && r.reply == Envelope(401, "Unauthorized", None)
    ensures user.Some? ==> r.effects == [Sleep(ProfileDelayMs)] && r.reply.code == 0 && r.reply.message == "success"
    // the data keeps every field of the user the added ones do not replace, and adds those
    ensures user.Some? ==>
              && r.reply.data.Some?
              && r.reply.data.value.Keys == user.value.Keys + AddedFields
              && (forall k :: k in user.value && k !in AddedFields ==> r.reply.data.value[k] == user.value[k])
              && r.reply.data.value["bio"] == Bio
              && r.reply.data.value["joinedAt"] == JoinedAt
              && r.reply.data.value["lastLogin"] == now
  {
    if user.None? then Handled([], Envelope(401, "Unauthorized", None))
    else Handled([Sleep(ProfileDelayMs)], Envelope(0, "success", Some(Extend(user.value, now))))
  }

  /** The user a login stores shares no field with the added ones, so the profile keeps all of it. */
  lemma ProfileKeepsLoggedInUser(now: string)
    ensures var data := ProfileReply(Some(LoginHandler.AdminUser), now).reply.data.value;
            forall k :: k in LoginHandler.AdminUser ==> k in data && data[k] == LoginHandler.AdminUser[k]
  {
    assert LoginHandler.AdminUser.Keys !! AddedFields;
  }
}
