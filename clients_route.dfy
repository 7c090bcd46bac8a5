/**
 * The presence snapshot endpoint (`GET /api/sse/clients`): turns every field of the shared
 * presence hash into a client entry, and the caller's own field into `userStatus`.
 */
module ClientsRoute {
  import opened Wrappers
  import opened Json
  import opened Auth
  import opened Presence

  /** The store's answer to HGETALL: an error, `null`, or the fields in hash order. */
  datatype HashReply = Failed | Null | Fields(entries: seq<(string, Stored)>)

  datatype Response = Response(status: nat, body: Json)

  const UNAUTHORIZED := Response(401, JObj([("error", JStr("Unauthorized"))]))
  const INTERNAL_ERROR := Response(500, JObj([("error", JStr("Internal server error"))]))

  /**
   * One client entry. Each of `id`, `userName` and `lastActive` falls back, through `||`,
   * to a property of the raw hash string, which is always undefined: a falsy value is left out.
   */
  function Entry(userId: string, r: PresenceRecord): Json
  {
    JObj(Present(EntryProps(userId, r)))
  }

  /** The entry's object literal, `undefined` properties included. */
  function EntryProps(userId: string, r: PresenceRecord): seq<(string, Option<Json>)>
  {
    [("id", if r.clientId.Some? && r.clientId.value != "" then Some(JStr(r.clientId.value)) else None),
     ("userId", Some(JStr(userId))),
     ("userName", if r.userName.Some? && Truthy(r.userName.value) then r.userName else None),
     ("isActive", Some(JBool(true))),
     ("lastActive", if r.lastActive.Some? && r.lastActive.value != 0 then Some(JNum(r.lastActive.value)) else None)]
  }

  /** The caller's status: its parsed record with `isActive: true` added. */
  function UserStatus(r: PresenceRecord): Json
  {
    JObj(RecordJson(r).fields + [("isActive", JBool(true))])
  }

  /** A hash field's value by name. */
  function Lookup(entries: seq<(string, Stored)>, field: string): (r: Option<Stored>)
    ensures r.Some? <==> exists i :: 0 <= i < |entries| && entries[i].0 == field
    ensures r.Some? ==> (field, r.value) in entries
    decreases |entries|
  {
    if entries == [] then None
    else if entries[0].0 == field then Some(entries[0].1)
    else
      var r := Lookup(entries[1..], field);
      assert forall i :: 0 < i < |entries| ==> entries[i] == entries[1..][i - 1];
      r
  }

  ghost predicate AllParse(entries: seq<(string, Stored)>)
  {
    forall i :: 0 <= i < |entries| ==> entries[i].1.Record?
  }

  /** The handler's answer for a session and the hash's contents. */
  function Get(session: Option<SessionUser>, reply: HashReply): (r: Response)
    ensures session.None? ==> r == UNAUTHORIZED
    ensures session.Some? && reply.Failed? ==> r == INTERNAL_ERROR
    ensures session.Some? && reply.Null? ==> r == Response(200, JObj([("clients", JArr([])), ("userStatus", JNull)]))
    ensures session.Some? && reply.Fields? && !AllParse(reply.entries) ==> r == INTERNAL_ERROR
    ensures session.Some? && reply.Fields? && AllParse(reply.entries) && session.value.id == "" ==> r == UNAUTHORIZED
    ensures session.Some? && reply.Fields? && AllParse(reply.entries) && session.value.id != "" ==>
      && r.status == 200 && r.body.JObj? && |r.body.fields| == 2
      && r.body.fields[0].0 == "clients" && r.body.fields[0].1.JArr?
      && var clients := r.body.fields[0].1.items;
      && |clients| == |reply.entries|
      && (forall i :: 0 <= i < |clients| ==> clients[i] == Entry(reply.entries[i].0, reply.entries[i].1.record))
      && r.body.fields[1].0 == "userStatus"
      && (r.body.fields[1].1 != JNull <==> exists i :: 0 <= i < |reply.entries| && reply.entries[i].0 == session.value.id)
      && var own := Lookup(reply.entries, session.value.id);
      && (own.Some? ==> own.value.Record? && r.body.fields[1].1 == UserStatus(own.value.record))
  {
    if session.None? then UNAUTHORIZED
    else match reply
      case Failed => INTERNAL_ERROR
      case Null => Response(200, JObj([("clients", JArr([])), ("userStatus", JNull)]))
      case Fields(entries) =>
        if !forall i :: 0 <= i < |entries| ==> entries[i].1.Record? then INTERNAL_ERROR
        else if session.value.id == "" then UNAUTHORIZED
        else
          var clients := seq(|entries|, i requires 0 <= i < |entries| && entries[i].1.Record? =>
                               Entry(entries[i].0, entries[i].1.record));
          var own := Lookup(entries, session.value.id);
          var status := if own.Some? && own.value.Record? then UserStatus(own.value.record) else JNull;
          Response(200, JObj([("clients", JArr(clients)), ("userStatus", status)]))
  }

  /**
   * A user whose presence the streaming endpoint wrote is listed under `client-<id>`, with
   * its connection time when that is not 0.
   */
  lemma ConnectedUserListed(session: SessionUser, entries: seq<(string, Stored)>, i: nat, user: SessionUser, now: int)
    requires session.id != "" && AllParse(entries) && user.id != ""
    requires i < |entries|
    requires entries[i] == (user.id, Presence.Record(PresenceRecord(Some("client-" + user.id), Some(user.id), user.name, Some(now))))
    ensures var r := Get(Some(session), Fields(entries));
      && r.status == 200 && i < |r.body.fields[0].1.items|
      && var e := r.body.fields[0].1.items[i];
      && Prop(e, "id") == Some(JStr("client-" + user.id))
      && Prop(e, "userId") == Some(JStr(user.id))
      && Prop(e, "isActive") == Some(JBool(true))
      && Prop(e, "lastActive") == (if now != 0 then Some(JNum(now)) else None)
  {
    var r := Get(Some(session), Fields(entries));
    assert r.body.fields[0].1.items[i] == Entry(user.id, entries[i].1.record);
    EntryOfConnected(user, now);
  }

  lemma EntryOfConnected(user: SessionUser, now: int)
    requires user.id != ""
    ensures var e := Entry(user.id, PresenceRecord(Some("client-" + user.id), Some(user.id), user.name, Some(now)));
      && Prop(e, "id") == Some(JStr("client-" + user.id))
      && Prop(e, "userId") == Some(JStr(user.id))
      && Prop(e, "isActive") == Some(JBool(true))
      && Prop(e, "lastActive") == (if now != 0 then Some(JNum(now)) else None)
  {
    var rec := PresenceRecord(Some("client-" + user.id), Some(user.id), user.name, Some(now));
    var props := EntryProps(user.id, rec);
    EntryKeysDistinct(user.id, rec);
    assert "client-" + user.id != "";
    assert props[0] == ("id", Some(JStr("client-" + user.id)));
    UniqueKeys(props, "id", JStr("client-" + user.id));
    assert props[1] == ("userId", Some(JStr(user.id)));
    UniqueKeys(props, "userId", JStr(user.id));
    assert props[3] == ("isActive", Some(JBool(true)));
    UniqueKeys(props, "isActive", JBool(true));
    if now != 0 {
      assert props[4] == ("lastActive", Some(JNum(now)));
      UniqueKeys(props, "lastActive", JNum(now));
    } else {
      AbsentKey(props, "lastActive");
    }
  }

  lemma EntryKeysDistinct(userId: string, r: PresenceRecord)
    ensures var props := EntryProps(userId, r);
      && |props| == 5
      && props[4] == ("lastActive", if r.lastActive.Some? && r.lastActive.value != 0 then Some(JNum(r.lastActive.value)) else None)
      && forall a, b :: 0 <= a < b < |props| ==> props[a].0 != props[b].0
  {
    var props := EntryProps(userId, r);
    assert |props[0].0| == 2 && |props[1].0| == 6 && |props[2].0| == 8 && |props[3].0| == 8 && |props[4].0| == 10;
    assert props[2].0[0] == 'u' && props[3].0[0] == 'i';
  }

  /** A key whose every occurrence in the literal is undefined is not a property of the object. */
  lemma AbsentKey(props: seq<(string, Option<Json>)>, key: string)
    requires forall i :: 0 <= i < |props| && props[i].0 == key ==> props[i].1.None?
    ensures Prop(JObj(Present(props)), key).None?
  {
    var fields := Present(props);
    assert forall v :: (key, v) !in fields;
  }

  /** In an object whose keys all differ, a key present with a value reads back that value. */
  lemma UniqueKeys(props: seq<(string, Option<Json>)>, key: string, v: Json)
    requires (key, Some(v)) in props
    requires forall i, j :: 0 <= i < j < |props| ==> props[i].0 != props[j].0
    ensures Prop(JObj(Present(props)), key) == Some(v)
  {
    var fields := Present(props);
    var r := Member(fields, key);
    assert (key, v) in fields;
    if r.Some? {
      assert (key, Some(r.value)) in props;
      assert r.value == v;
    }
  }

  /**
   * The caller's status reads back every property of its stored record, and `isActive`
   * as true.
   */
  lemma UserStatusReadsBack(r: PresenceRecord)
    ensures var status := UserStatus(r);
      && Prop(status, "isActive") == Some(JBool(true))
      && Prop(status, "clientId") == (if r.clientId.Some? then Some(JStr(r.clientId.value)) else None)
      && Prop(status, "userId") == (if r.userId.Some? then Some(JStr(r.userId.value)) else None)
      && Prop(status, "userName") == r.userName
      && Prop(status, "lastActive") == (if r.lastActive.Some? then Some(JNum(r.lastActive.value)) else None)
  {
    var props := RecordProps(r);
    RecordKeysDistinct(r);
    forall i | 0 <= i < |props| ensures Prop(UserStatus(r), props[i].0) == props[i].1 {
      ReadBack(props, i);
      AppendedKey(Present(props), props[i].0, "isActive", JBool(true));
    }
    assert props[0].0 == "clientId" && props[1].0 == "userId" && props[2].0 == "userName" && props[3].0 == "lastActive";
  }

  lemma RecordKeysDistinct(r: PresenceRecord)
    ensures var props := RecordProps(r);
      && |props| == 4
      && (forall a, b :: 0 <= a < b < |props| ==> props[a].0 != props[b].0)
      && forall a :: 0 <= a < |props| ==> props[a].0 != "isActive"
  {
    var props := RecordProps(r);
    assert |props[0].0| == 8 && |props[1].0| == 6 && |props[2].0| == 8 && |props[3].0| == 10;
    assert props[0].0[0] == 'c' && props[2].0[0] == 'u';
  }

  /** In a literal whose keys all differ, every key reads back its own property, or nothing when undefined. */
  lemma ReadBack(props: seq<(string, Option<Json>)>, i: nat)
    requires i < |props|
    requires forall a, b :: 0 <= a < b < |props| ==> props[a].0 != props[b].0
    ensures Prop(JObj(Present(props)), props[i].0) == props[i].1
  {
    if props[i].1.Some? {
      assert props[i] == (props[i].0, Some(props[i].1.value));
      UniqueKeys(props, props[i].0, props[i].1.value);
    } else {
      AbsentKey(props, props[i].0);
    }
  }

  /** A property added after an object's own ones reads back as itself and hides no other key. */
  lemma AppendedKey(fields: seq<(string, Json)>, key: string, added: string, v: Json)
    ensures Member(fields + [(added, v)], added) == Some(v)
    ensures key != added ==> Member(fields + [(added, v)], key) == Member(fields, key)
  {
    var all := fields + [(added, v)];
    assert all[..|all| - 1] == fields;
  }
}
