// What the server handlers share: the session user they gate on, and the
// side effects they perform, recorded in order as a trace.
module ServerKit {

  /** `session.user`: a flat JSON object of string fields, as login stores it. */
  type UserRecord = map<string, string>

  /** A side effect of a handler: a timed wait, or a response header set. */
  datatype Effect = Sleep(ms: nat) | SetHeader(name: string, value: string)

  /** A handler's effects, in order, and what it returns. */
  datatype Handled<+T> = Handled(effects: seq<Effect>, reply: T)

  /** `effects` is exactly `n` waits of `ms` milliseconds each. */
  predicate Delays(effects: seq<Effect>, n: nat, ms: nat)
  {
    |effects| == n && forall k :: 0 <= k < n ==> effects[k] == Sleep(ms)
  }
}
