/**
 * The relay endpoint (`POST /api/sse/message`): builds a chat message from the request's
 * `data` and publishes it on the global channel when `clientId` is exactly "broadcast",
 * otherwise on the channel the user table stores for that id. Each request publishes
 * through a fresh pub/sub wrapper, which therefore always pings before publishing.
 */
module MessageRoute {
  import opened Wrappers
  import opened Json
  import opened EventStream
  import opened RedisService

  /**
   * How a request ends: 401 before anything else, a throw outside the handler's `try`
   * (the framework's own error answer), or a JSON response.
   */
  datatype Outcome = Unauthorized | Unhandled | Response(status: nat, body: Json)

  /** The parts of a parsed body the handler reads, once destructuring and `data.text` cannot throw. */
  datatype Request = Request(clientId: Option<Json>, data: Json)

  /**
   * `const { clientId, data } = body` and the reads of `data`'s fields: a body that does not
   * parse or is `null`, and a `data` that is missing or `null`, throw.
   */
  function ReadBody(body: Option<Json>): (r: Option<Request>)
    ensures r.Some? <==>
      body.Some? && body.value != JNull && Prop(body.value, "data").Some? && Prop(body.value, "data").value != JNull
    ensures r.Some? ==> r.value == Request(Prop(body.value, "clientId"), Prop(body.value, "data").value)
  {
    if body.None? || body.value == JNull then None
    else
      var data := Prop(body.value, "data");
      if data.None? || data.value == JNull then None
      else Some(Request(Prop(body.value, "clientId"), data.value))
  }

  /** The relayed message; properties `data` does not define are left out of its text. */
  function MessageJson(now: int, timestamp: string, data: Json): Json
  {
    JObj(Present(MessageProps(now, timestamp, data)))
  }

  /** The message's object literal, `undefined` properties included. */
  function MessageProps(now: int, timestamp: string, data: Json): seq<(string, Option<Json>)>
  {
    [("id", Some(JStr(IntText(now)))),
     ("text", Prop(data, "text")),
     ("timestamp", Some(JStr(timestamp))),
     ("senderName", Prop(data, "senderName")),
     ("senderId", Prop(data, "senderId")),
     ("isDirectMessage", Prop(data, "isDirectMessage")),
     ("recipientId", Prop(data, "recipientId"))]
  }

  /** The message carries property `k` exactly when `data` does, with the same value. */
  ghost predicate Carries(fields: seq<(string, Json)>, k: string, data: Json)
  {
    forall v :: (k, v) in fields <==> Prop(data, k) == Some(v)
  }

  /** The keys of the message literal, in order. */
  ghost predicate MessageKeys(props: seq<(string, Option<Json>)>)
  {
    && |props| == 7
    && props[0].0 == "id" && props[1].0 == "text" && props[2].0 == "timestamp"
    && props[3].0 == "senderName" && props[4].0 == "senderId"
    && props[5].0 == "isDirectMessage" && props[6].0 == "recipientId"
  }

  /**
   * The relayed message starts with its id, holds the timestamp, copies each of the five
   * properties it takes from `data` exactly when `data` defines it, and has no other keys.
   */
  lemma MessageFields(now: int, timestamp: string, data: Json)
    ensures var m := MessageJson(now, timestamp, data);
      && m.JObj? && |m.fields| >= 2 && m.fields[0] == ("id", JStr(IntText(now)))
      && ("timestamp", JStr(timestamp)) in m.fields
      && (forall k, v :: (k, v) in m.fields ==>
            k in {"id", "text", "timestamp", "senderName", "senderId", "isDirectMessage", "recipientId"})
      && Carries(m.fields, "text", data) && Carries(m.fields, "senderName", data)
      && Carries(m.fields, "senderId", data) && Carries(m.fields, "isDirectMessage", data)
      && Carries(m.fields, "recipientId", data)
  {
    var props := MessageProps(now, timestamp, data);
    assert MessageKeys(props);
    LayoutHead(props);
    LayoutKeys(props);
    LayoutValues(props);
  }

  /** Each property after the id but the timestamp is present exactly when its value is defined. */
  lemma LayoutValues(props: seq<(string, Option<Json>)>)
    requires MessageKeys(props)
    ensures forall i, v :: i in {1, 3, 4, 5, 6} ==>
      ((props[i].0, v) in Present(props) <==> props[i].1 == Some(v))
  {
    assert |props[0].0| == 2 && |props[1].0| == 4 && |props[2].0| == 9 && |props[3].0| == 10;
    assert |props[4].0| == 8 && |props[5].0| == 15 && |props[6].0| == 11;
    SoleKey(props, 1, "text");
    SoleKey(props, 3, "senderName");
    SoleKey(props, 4, "senderId");
    SoleKey(props, 5, "isDirectMessage");
    SoleKey(props, 6, "recipientId");
  }

  /** The id comes first and the timestamp, always defined, is present. */
  lemma LayoutHead(props: seq<(string, Option<Json>)>)
    requires MessageKeys(props) && props[0].1.Some? && props[2].1.Some?
    ensures var fields := Present(props);
      |fields| >= 2 && fields[0] == ("id", props[0].1.value) && ("timestamp", props[2].1.value) in fields
  {
    assert Present(props) == [("id", props[0].1.value)] + Present(props[1..]);
    assert props[1..][1] == props[2];
  }

  /** Only the literal's keys occur. */
  lemma LayoutKeys(props: seq<(string, Option<Json>)>)
    requires MessageKeys(props)
    ensures forall k, v :: (k, v) in Present(props) ==>
      k in {"id", "text", "timestamp", "senderName", "senderId", "isDirectMessage", "recipientId"}
  {
    forall k, v | (k, v) in Present(props)
      ensures k in {"id", "text", "timestamp", "senderName", "senderId", "isDirectMessage", "recipientId"}
    {
      var i :| 0 <= i < |props| && props[i] == (k, Some(v));
    }
  }

  /** A key that occurs once in a literal is defined by that occurrence alone. */
  lemma SoleKey(props: seq<(string, Option<Json>)>, i: nat, k: string)
    requires i < |props| && props[i].0 == k
    requires forall j :: 0 <= j < |props| && j != i ==> |props[j].0| != |k|
    ensures forall v :: (k, v) in Present(props) <==> props[i].1 == Some(v)
  {
  }

  /** `clientId` as `getSingleUserChannel` renders it in a template (`undefined` when absent). */
  function ClientIdText(clientId: Option<Json>): string
  {
    if clientId.None? then "undefined" else TemplateText(clientId.value, false)
  }

  /**
   * Where the message goes: the global channel only for the exact string "broadcast";
   * otherwise the user table's channel for the id (`stored` is that lookup's outcome).
   */
  function Target(clientId: Option<Json>, stored: Result<Option<string>, string>): (c: ChannelRef)
    ensures clientId == Some(JStr("broadcast")) ==> c == GetGlobalChannel()
    ensures clientId != Some(JStr("broadcast")) ==> c == GetSingleUserChannel(ClientIdText(clientId), stored)
  {
    if clientId == Some(JStr("broadcast")) then GetGlobalChannel()
    else GetSingleUserChannel(ClientIdText(clientId), stored)
  }

  /**
   * When the user table has no channel of its own for the id, the message reaches the
   * global channel exactly for "broadcast", and otherwise the named user's channel.
   */
  lemma TargetIsGlobalOnlyForBroadcast(clientId: Option<Json>, stored: Result<Option<string>, string>)
    requires stored.Ok? && (stored.value.None? || stored.value.value == "")
    ensures Target(clientId, stored) == GetGlobalChannel() <==> clientId == Some(JStr("broadcast"))
    ensures clientId != Some(JStr("broadcast")) ==> Target(clientId, stored) == Channel(UserChannelName(ClientIdText(clientId)))
  {
    if clientId != Some(JStr("broadcast")) {
      UserChannelIsNotGlobal(ClientIdText(clientId));
    }
  }

  const SUCCESS := JObj([("success", JBool(true))])
  const FAILED := JObj([("error", JStr("Failed to send message"))])

  /**
   * The handler. `pingOk` and `reply` are the store's answers to the fresh wrapper's ping
   * and to PUBLISH; `published` is what the store accepted.
   */
  method Post(hasUser: bool, body: Option<Json>, now: int, timestamp: string,
              stored: Result<Option<string>, string>, pingOk: bool, reply: Result<nat, string>)
    returns (outcome: Outcome, published: seq<(ChannelRef, string)>)
    ensures !hasUser ==> outcome == Unauthorized && published == []
    ensures hasUser && ReadBody(body).None? ==> outcome == Unhandled && published == []
    ensures hasUser && ReadBody(body).Some? ==>
      var req := ReadBody(body).value;
      var ok := pingOk && reply.Ok?;
      && outcome == (if ok then Response(200, SUCCESS) else Response(500, FAILED))
      && published == if ok then [(Target(req.clientId, stored), Stringify(MessageJson(now, timestamp, req.data)))] else []
  {
    if !hasUser {
      return Unauthorized, [];
    }
    var req := ReadBody(body);
    if req.None? {
      return Unhandled, [];
    }
    var service := new Service();
    var message := Stringify(MessageJson(now, timestamp, req.value.data));
    var r := service.Publish(Target(req.value.clientId, stored), message, pingOk, reply);
    published := service.published;
    outcome := if r.Ok? then Response(200, SUCCESS) else Response(500, FAILED);
  }

  /**
   * A relayed message fits one `data:` line: a stream session that writes it as a `message`
   * frame hands a reading client exactly that text.
   */
  lemma RelayedMessageReadBack(now: int, timestamp: string, data: Json)
    ensures var text := Stringify(MessageJson(now, timestamp, data));
      Parse(FormatMessage("message", Text(text))) == [Event("message", text)]
  {
    var text := Stringify(MessageJson(now, timestamp, data));
    StringifyIsOneLine(MessageJson(now, timestamp, data));
    ParseFormatted("message", Text(text));
  }
}
