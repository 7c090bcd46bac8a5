/**
 * The authenticated session a route handler reads. Only the user part matters to the push
 * channel: whether there is a user, its id, and its display name.
 */
module Auth {
  import opened Wrappers
  import opened Json

  /**
   * The session user. A missing id is the empty string (both are falsy); the name is
   * absent, `null` or a string, as the session provider leaves it.
   */
  datatype SessionUser = SessionUser(id: string, name: Option<Json>)

  /** The user id a handler may serve: none without a session user or with a falsy id. */
  function Authorized(session: Option<SessionUser>): (userId: Option<string>)
    ensures userId.Some? <==> session.Some? && session.value.id != ""
    ensures userId.Some? ==> userId.value == session.value.id
  {
    if session.None? || session.value.id == "" then None else Some(session.value.id)
  }
}
