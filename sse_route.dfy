/**
 * The older streaming endpoint (`GET /api/sse`) and its send endpoint (`POST /api/sse`).
 * The GET handler only maps the user to `client-<id>` in the registry (it never registers a
 * client), then runs a stream session that writes a `connected` frame and heartbeats behind
 * an `isActive` guard. Its teardown lowers the guard before calling `close`, so `close` does
 * nothing: no close frame is written and the controller is never closed. The POST handler
 * tests the Promise `sendToClient` returns, which is always truthy, so it never answers 404.
 */
module SseRoute {
  import opened Wrappers
  import opened Json
  import opened EventStream
  import opened Auth
  import SseManager

  const HEARTBEAT_INTERVAL := 50000

  /** The calls the teardown makes. */
  datatype Action = ClearInterval | RemoveAbortListener

  function ConnectedFrame(clientId: string, userId: string, timestamp: string): string
  {
    FormatMessage("connected", Value(JObj([
      ("clientId", JStr(clientId)), ("userId", JStr(userId)), ("timestamp", JStr(timestamp)),
      ("heartbeatInterval", JNum(HEARTBEAT_INTERVAL))])))
  }

  function HeartbeatFrame(timestamp: string): string
  {
    FormatMessage("heartbeat", Value(JObj([("type", JStr("heartbeat")), ("timestamp", JStr(timestamp))])))
  }

  class LegacySession {
    const userId: string
    const clientId: string
    var isActive: bool
    var heartbeatRunning: bool
    var abortListening: bool
    var frames: seq<string>
    var actions: seq<Action>
    /** Whether the stream controller was ever closed; nothing in this endpoint closes it. */
    var closed: bool

    ghost predicate Valid()
      reads this
    {
      && clientId == "client-" + userId
      && (heartbeatRunning || abortListening ==> isActive)
      && !closed
    }

    /**
     * The synchronous `start`: the heartbeat interval first, then the `connected` frame (the
     * stream cannot be cancelled yet, so that write succeeds), then the abort listener.
     */
    constructor (userId: string, timestamp: string)
      ensures Valid()
      ensures this.userId == userId && clientId == "client-" + userId
      ensures isActive && heartbeatRunning && abortListening && actions == []
      ensures frames == [ConnectedFrame("client-" + userId, userId, timestamp)]
    {
      this.userId := userId;
      clientId := "client-" + userId;
      isActive := true;
      heartbeatRunning := true;
      frames := [ConnectedFrame("client-" + userId, userId, timestamp)];
      abortListening := true;
      actions := [];
      closed := false;
    }

    /**
     * `cleanup`: once only. Lowers the guard, stops the heartbeat and removes the abort
     * listener, then calls `close`, which returns at once because the guard is already down.
     */
    method Cleanup()
      requires Valid()
      modifies this
      ensures Valid()
      ensures !isActive && !heartbeatRunning && !abortListening
      ensures actions == if old(isActive) then old(actions) + [ClearInterval, RemoveAbortListener] else old(actions)
      ensures frames == old(frames) && closed == old(closed)
    {
      if !isActive {
        return;
      }
      isActive := false;
      heartbeatRunning := false;
      actions := actions + [ClearInterval];
      abortListening := false;
      actions := actions + [RemoveAbortListener];
      // `close` starts with the same guard and so writes no close frame and does not close.
    }

    /** `send`: nothing once the guard is down; a write that throws starts the teardown. */
    method Send(data: string, writeFails: bool)
      requires Valid()
      modifies this
      ensures Valid()
      ensures !old(isActive) ==> frames == old(frames) && actions == old(actions) && !isActive
      ensures old(isActive) && !writeFails ==>
        frames == old(frames) + [data] && actions == old(actions) && isActive
        && heartbeatRunning == old(heartbeatRunning) && abortListening == old(abortListening)
      ensures old(isActive) && writeFails ==>
        frames == old(frames) && actions == old(actions) + [ClearInterval, RemoveAbortListener]
        && !isActive && !heartbeatRunning && !abortListening
    {
      if !isActive {
        return;
      }
      if writeFails {
        Cleanup();
      } else {
        frames := frames + [data];
      }
    }

    /** One heartbeat interval callback (`sendHeartbeat`). */
    method Tick(timestamp: string, writeFails: bool)
      requires Valid()
      modifies this
      ensures Valid()
      ensures !old(heartbeatRunning) ==> frames == old(frames) && actions == old(actions) && isActive == old(isActive)
      ensures old(heartbeatRunning) && !writeFails ==> frames == old(frames) + [HeartbeatFrame(timestamp)] && isActive
      ensures old(heartbeatRunning) && writeFails ==>
        frames == old(frames) && actions == old(actions) + [ClearInterval, RemoveAbortListener] && !isActive
    {
      if heartbeatRunning && isActive {
        Send(HeartbeatFrame(timestamp), writeFails);
      }
    }

    /** The request's abort signal, while the listener is attached. */
    method Abort()
      requires Valid()
      modifies this
      ensures Valid()
      ensures !isActive || !old(abortListening)
      ensures !old(abortListening) ==> actions == old(actions) && isActive == old(isActive)
      ensures old(abortListening) ==> actions == old(actions) + [ClearInterval, RemoveAbortListener]
      ensures frames == old(frames)
    {
      if abortListening {
        Cleanup();
      }
    }
  }

  /**
   * The GET handler: 401 without a session user or with a falsy id; otherwise the user is
   * mapped to `client-<id>` in the registry and the stream session starts.
   */
  method Get(session: Option<SessionUser>, manager: SseManager.Manager, timestamp: string)
    returns (status: nat, s: LegacySession?)
    requires manager.Valid()
    modifies manager
    ensures manager.Valid()
    ensures Authorized(session).None? ==>
      status == 401 && s == null && manager.userClientMap == old(manager.userClientMap)
      && manager.userOrder == old(manager.userOrder)
    ensures Authorized(session).Some? ==>
      && status == 200 && s != null && fresh(s) && s.Valid() && s.userId == session.value.id
      && manager.userClientMap == old(manager.userClientMap)[session.value.id := "client-" + session.value.id]
      && s.frames == [ConnectedFrame("client-" + session.value.id, session.value.id, timestamp)]
    ensures manager.clients == old(manager.clients) && manager.clientOrder == old(manager.clientOrder)
    ensures manager.outbox == old(manager.outbox)
  {
    var user := Authorized(session);
    if user.None? {
      return 401, null;
    }
    manager.SetUserClient(user.value, "client-" + user.value);
    s := new LegacySession(user.value, timestamp);
    status := 200;
  }

  /** A POST answer: the status and the JSON body. */
  datatype Response = Response(status: nat, body: Json)

  /** What a validated POST asks the registry to do. */
  datatype SendRequest = SendRequest(clientId: Json, event: Json, data: Option<Json>)

  /**
   * The POST body's outcome: a body that does not parse, or `null`, throws inside the `try`
   * (500); a falsy `clientId` or `event` is a 400; anything else is sent.
   */
  function Validate(body: Option<Json>): (r: Result<SendRequest, Response>)
    ensures r.Err? ==> r.error.status == 500 || r.error.status == 400
    ensures r.Err? && r.error.status == 500 <==> body.None? || body == Some(JNull)
    ensures r.Ok? <==>
      && body.Some? && body.value != JNull
      && Prop(body.value, "clientId").Some? && Truthy(Prop(body.value, "clientId").value)
      && Prop(body.value, "event").Some? && Truthy(Prop(body.value, "event").value)
    ensures r.Ok? ==> r.value == SendRequest(Prop(body.value, "clientId").value, Prop(body.value, "event").value,
                                             Prop(body.value, "data"))
  {
    if body.None? || body.value == JNull then Err(Response(500, JObj([("error", JStr("Internal server error"))])))
    else
      var clientId, event := Prop(body.value, "clientId"), Prop(body.value, "event");
      if clientId.None? || !Truthy(clientId.value) || event.None? || !Truthy(event.value) then
        Err(Response(400, JObj([("error", JStr("clientId and event are required"))])))
      else Ok(SendRequest(clientId.value, event.value, Prop(body.value, "data")))
  }

  /** How `formatMessage` renders the `data` of a request: `undefined` in a template, a string as is. */
  function DataOf(data: Option<Json>): Data
  {
    if data.None? then Text("undefined")
    else if data.value.JStr? then Text(data.value.s)
    else Value(data.value)
  }

  /**
   * The POST handler. A valid request is handed to `sendToClient`, but the handler tests the
   * returned Promise, which is truthy, so it answers 200 whether or not anything was sent.
   * Only a string client id can name a registered client; any other value finds none.
   */
  method Post(body: Option<Json>, manager: SseManager.Manager, now: int, failing: set<string>)
    returns (response: Response)
    requires manager.Valid()
    modifies manager
    ensures manager.Valid()
    ensures Validate(body).Err? ==> response == Validate(body).error
    ensures Validate(body).Ok? ==> response == Response(200, JObj([("success", JBool(true))]))
    ensures Validate(body).Err? || !Validate(body).value.clientId.JStr? ==>
      manager.clients == old(manager.clients) && manager.outbox == old(manager.outbox)
    ensures Validate(body).Ok? && Validate(body).value.clientId.JStr? ==>
      var req := Validate(body).value;
      var id := old(manager.Resolve(req.clientId.s));
      if id in old(manager.clients) && id !in failing then
        && manager.outbox == old(manager.outbox) + [SseManager.Delivery(id, FormatMessage(TemplateText(req.event, false), DataOf(req.data)))]
        && manager.clients == old(manager.clients)[id := old(manager.clients)[id].(lastActivity := now)]
      else manager.outbox == old(manager.outbox) && manager.clients == old(manager.clients)
    ensures manager.userClientMap == old(manager.userClientMap) && manager.clientOrder == old(manager.clientOrder)
  {
    var v := Validate(body);
    if v.Err? {
      return v.error;
    }
    var req := v.value;
    if req.clientId.JStr? {
      var _ := manager.SendToClient(req.clientId.s, TemplateText(req.event, false), DataOf(req.data), now, failing);
    }
    response := Response(200, JObj([("success", JBool(true))]));
  }

  /**
   * The two endpoints do not meet: after a GET on a fresh registry, sending to that user
   * finds no client stored under the user's client id, because the GET only maps the user.
   * On an empty registry `sendToClient` first re-creates placeholder clients from the
   * presence hash (left out of `SendToClient`), but it reads `clientId` off the stored
   * string, so every placeholder goes under an undefined id and never under that client id.
   */
  method GetThenSend(user: SessionUser, timestamp: string, now: int, event: string, data: Data)
    returns (sent: bool)
    requires user.id != ""
    ensures !sent
  {
    var manager := new SseManager.Manager();
    var status, s := Get(Some(user), manager, timestamp);
    sent := manager.SendToClient(user.id, event, data, now, {});
  }
}
