/**
 * The shared presence hash (`active_users`): one field per user id, holding the JSON record
 * the connect endpoint writes. It lives in the external key/value store, so every server
 * process sees the same hash; here it is one object that the endpoints are handed.
 */
module Presence {
  import opened Wrappers
  import opened Json

  /** The only hash key the core uses. */
  const ACTIVE_USERS := "active_users"

  /**
   * A presence record after `JSON.parse`. A field the writer left `undefined` is absent
   * from the JSON text and reads back as `None`; the user name may also be `null`.
   */
  datatype PresenceRecord = PresenceRecord(
    clientId: Option<string>,
    userId: Option<string>,
    userName: Option<Json>,
    lastActive: Option<int>)

  /** The record as a JSON object, fields in the order the writer lists them. */
  function RecordJson(r: PresenceRecord): Json
  {
    JObj(Present(RecordProps(r)))
  }

  /** The record's object literal, `undefined` properties included. */
  function RecordProps(r: PresenceRecord): seq<(string, Option<Json>)>
  {
    [("clientId", if r.clientId.Some? then Some(JStr(r.clientId.value)) else None),
     ("userId", if r.userId.Some? then Some(JStr(r.userId.value)) else None),
     ("userName", r.userName),
     ("lastActive", if r.lastActive.Some? then Some(JNum(r.lastActive.value)) else None)]
  }

  /** A hash field's value: a record that parses, or text on which `JSON.parse` throws. */
  datatype Stored = Record(record: PresenceRecord) | Malformed(text: string)

  class Store {
    var activeUsers: map<string, Stored>

    constructor ()
      ensures activeUsers == map[]
    {
      activeUsers := map[];
    }

    /** `HSET active_users field value`. */
    method HSet(field: string, value: Stored)
      modifies this
      ensures activeUsers == old(activeUsers)[field := value]
    {
      activeUsers := activeUsers[field := value];
    }

    /** The integer reply to `HEXISTS active_users field`. */
    function HExistsReply(field: string): int
      reads this
    {
      if field in activeUsers then 1 else 0
    }

    /** `HDEL active_users field`; deleting an absent field changes nothing. */
    method HDel(field: string)
      modifies this
      ensures activeUsers == old(activeUsers) - {field}
    {
      activeUsers := activeUsers - {field};
    }
  }
}
