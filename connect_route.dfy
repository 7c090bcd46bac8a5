/**
 * The live streaming endpoint (`GET /api/sse/connect`). After the session check it writes the
 * user's presence record, then runs one stream session: it subscribes its own pub/sub wrapper
 * to the user's channel and the global channel, writes a `connected` frame, starts a heartbeat,
 * and tears everything down once (on abort or on the first failed write) behind the `isActive`
 * guard flag. The bytes handed to the stream controller are `frames`; the calls the teardown
 * makes are logged, in order, in `actions`.
 */
module ConnectRoute {
  import opened Wrappers
  import opened Json
  import opened EventStream
  import opened RedisService
  import opened Auth
  import Presence

  const HEARTBEAT_INTERVAL := 50000

  /** The calls the teardown makes. */
  datatype Action =
    | ClearInterval
    | Unsubscribe(channel: ChannelRef)
    | PresenceDelete(field: string)
    /** `send` called with the close frame (which its guard then drops). */
    | SendClose(frame: string)
    | ControllerClose

  /** The session's one message handler closure. */
  const HANDLE_MESSAGE: Handler := 0

  /** The presence record written for a user before the stream starts. */
  function PresenceOf(user: SessionUser, now: int): Presence.Stored
  {
    Presence.Record(Presence.PresenceRecord(Some("client-" + user.id), Some(user.id), user.name, Some(now)))
  }

  function ConnectedFrame(clientId: string, userId: string, timestamp: string): string
  {
    FormatMessage("connected", Value(JObj([("clientId", JStr(clientId)), ("userId", JStr(userId)), ("timestamp", JStr(timestamp))])))
  }

  function HeartbeatFrame(timestamp: string): string
  {
    FormatMessage("heartbeat", Value(JObj([("timestamp", JStr(timestamp))])))
  }

  function CloseFrameText(timestamp: string): string
  {
    FormatMessage("close", Value(JObj([("message", JStr("Connection closed")), ("timestamp", JStr(timestamp))])))
  }

  /** What `handleMessage` writes for one pub/sub message. */
  function MessageFrame(message: string): string
  {
    FormatMessage("message", Text(message))
  }

  /** The teardown calls, in order; a throwing presence delete ends the teardown there. */
  function CleanupActions(userChannel: ChannelRef, userId: string, presenceFails: bool, timestamp: string): (acts: seq<Action>)
    ensures |acts| == if presenceFails then 4 else 6
    ensures acts[..4] == [ClearInterval, Unsubscribe(userChannel), Unsubscribe(GetGlobalChannel()), PresenceDelete(userId)]
    ensures !presenceFails ==> acts[4..] == [SendClose(CloseFrameText(timestamp)), ControllerClose]
  {
    [ClearInterval, Unsubscribe(userChannel), Unsubscribe(GetGlobalChannel()), PresenceDelete(userId)]
    + (if presenceFails then [] else [SendClose(CloseFrameText(timestamp)), ControllerClose])
  }

  /**
   * A message relayed on a channel this session listens to is written once per `subscribe`
   * call on its wrapper; a client reading the stream sees it twice.
   */
  lemma DuplicateDelivery(message: string)
    requires OneLine(message)
    ensures Feed(Empty, Lines(MessageFrame(message) + MessageFrame(message))).1
         == [Event("message", message), Event("message", message)]
  {
    var e := Event("message", message);
    assert Wire(e) == MessageFrame(message);
    assert WireAll([e, e]) == Wire(e) + WireAll([e]);
    assert WireAll([e]) == Wire(e) + WireAll([]);
    assert Wire(e) + "" == Wire(e);
    ParseWireAll([e, e]);
  }

  class ConnectSession {
    const userId: string
    const clientId: string
    const userChannel: ChannelRef
    /** The wrapper instance this request created for itself. */
    const redis: Service
    const store: Presence.Store
    var isActive: bool
    var heartbeatRunning: bool
    var abortListening: bool
    /**
     * The `connected` write threw inside `start`, before `cleanup` was initialised: the
     * stream is errored, every later write throws, and calling `cleanup` throws instead of
     * cleaning up.
     */
    var startFailed: bool
    var frames: seq<string>
    var actions: seq<Action>

    ghost predicate Valid()
      reads this, redis
    {
      && clientId == "client-" + userId
      && redis.listeners == 2
      && redis.messageHandlers ==
           (if isActive then map[userChannel := HANDLE_MESSAGE, GetGlobalChannel() := HANDLE_MESSAGE] else map[])
      && (heartbeatRunning ==> isActive)
      && (startFailed ==> !heartbeatRunning && !abortListening)
    }

    /**
     * The stream's `start`: subscribe both channels with `handleMessage`, write the
     * `connected` frame, start the heartbeat and listen for the request's abort.
     */
    constructor (userId: string, store: Presence.Store, dbError: Option<string>, timestamp: string,
                 connectedWriteFails: bool)
      ensures Valid() && fresh(redis)
      ensures this.userId == userId && this.store == store && userChannel == GetUserChannel(userId, dbError)
      ensures isActive && actions == [] && startFailed == connectedWriteFails
      ensures frames == if connectedWriteFails then [] else [ConnectedFrame("client-" + userId, userId, timestamp)]
      ensures heartbeatRunning == abortListening == !connectedWriteFails
    {
      this.userId := userId;
      clientId := "client-" + userId;
      this.store := store;
      userChannel := GetUserChannel(userId, dbError);
      redis := new Service();
      isActive := true;
      heartbeatRunning, abortListening, startFailed := false, false, false;
      frames, actions := [], [];
      new;
      UserChannelIsNotGlobal(userId);
      redis.Subscribe(userChannel, HANDLE_MESSAGE);
      redis.Subscribe(GetGlobalChannel(), HANDLE_MESSAGE);
      if connectedWriteFails {
        startFailed := true;
      } else {
        frames := [ConnectedFrame(clientId, userId, timestamp)];
        heartbeatRunning := true;
        abortListening := true;
      }
    }

    /**
     * `cleanup`: once only. Lowers the guard, stops the heartbeat, removes both channel
     * handlers, deletes the presence field, then sends a close frame, which the lowered
     * guard drops, and closes the controller. A throwing presence delete ends it early.
     * After a failed start the closure was never initialised, so nothing can call it.
     */
    method Cleanup(presenceFails: bool, timestamp: string)
      requires Valid() && !startFailed
      modifies this, redis, store
      ensures Valid()
      ensures !old(isActive) ==>
        && actions == old(actions) && store.activeUsers == old(store.activeUsers)
        && heartbeatRunning == old(heartbeatRunning) && redis.messageHandlers == old(redis.messageHandlers)
      ensures old(isActive) ==>
        && !isActive && !heartbeatRunning && redis.messageHandlers == map[]
        && actions == old(actions) + CleanupActions(userChannel, userId, presenceFails, timestamp)
        && store.activeUsers == if presenceFails then old(store.activeUsers) else old(store.activeUsers) - {userId}
      ensures !isActive
      ensures frames == old(frames) && abortListening == old(abortListening) && startFailed == old(startFailed)
      ensures redis.listeners == old(redis.listeners) && redis.published == old(redis.published)
    {
      if !isActive {
        return;
      }
      StopStreaming();
      actions := actions + [PresenceDelete(userId)];
      if presenceFails {
        return;
      }
      store.HDel(userId);
      // The close frame goes through `send`, whose guard is already down: nothing is written.
      actions := actions + [SendClose(CloseFrameText(timestamp))];
      actions := actions + [ControllerClose];
    }

    /** The first steps of `cleanup`: lower the guard, stop the heartbeat, drop both channel handlers. */
    method StopStreaming()
      requires Valid() && isActive
      modifies this, redis
      ensures Valid()
      ensures !isActive && !heartbeatRunning && redis.messageHandlers == map[]
      ensures actions == old(actions) + [ClearInterval, Unsubscribe(userChannel), Unsubscribe(GetGlobalChannel())]
      ensures frames == old(frames) && abortListening == old(abortListening) && startFailed == old(startFailed)
      ensures redis.listeners == old(redis.listeners) && redis.published == old(redis.published)
    {
      isActive := false;
      heartbeatRunning := false;
      actions := actions + [ClearInterval];
      redis.Unsubscribe(userChannel);
      actions := actions + [Unsubscribe(userChannel)];
      redis.Unsubscribe(GetGlobalChannel());
      assert redis.messageHandlers.Keys == {};
      actions := actions + [Unsubscribe(GetGlobalChannel())];
    }

    /**
     * `send`: nothing once the guard is down; a write that throws starts the teardown,
     * except after a failed start, where the call to `cleanup` itself throws.
     */
    method Send(data: string, writeFails: bool, presenceFails: bool, timestamp: string)
      requires Valid()
      modifies this, redis, store
      ensures Valid()
      ensures !old(isActive) || (startFailed && writeFails) ==>
        && frames == old(frames) && actions == old(actions) && isActive == old(isActive)
        && store.activeUsers == old(store.activeUsers) && redis.messageHandlers == old(redis.messageHandlers)
      ensures old(isActive) && !writeFails && !startFailed ==>
        && frames == old(frames) + [data] && actions == old(actions) && isActive
        && store.activeUsers == old(store.activeUsers) && redis.messageHandlers == old(redis.messageHandlers)
      ensures old(isActive) && writeFails && !startFailed ==>
        && frames == old(frames) && !isActive && !heartbeatRunning && redis.messageHandlers == map[]
        && actions == old(actions) + CleanupActions(userChannel, userId, presenceFails, timestamp)
        && store.activeUsers == if presenceFails then old(store.activeUsers) else old(store.activeUsers) - {userId}
      ensures abortListening == old(abortListening) && startFailed == old(startFailed)
      ensures redis.listeners == old(redis.listeners) && redis.published == old(redis.published)
      ensures isActive ==> heartbeatRunning == old(heartbeatRunning) && store.activeUsers == old(store.activeUsers)
    {
      if !isActive {
        return;
      }
      if writeFails || startFailed {
        if !startFailed {
          Cleanup(presenceFails, timestamp);
        }
      } else {
        frames := frames + [data];
      }
    }

    /** One heartbeat interval callback. */
    method Tick(timestamp: string, writeFails: bool, presenceFails: bool)
      requires Valid()
      modifies this, redis, store
      ensures Valid()
      ensures !old(heartbeatRunning) ==>
        frames == old(frames) && actions == old(actions) && isActive == old(isActive)
      ensures old(heartbeatRunning) && !writeFails ==>
        frames == old(frames) + [HeartbeatFrame(timestamp)] && isActive && heartbeatRunning
      ensures old(heartbeatRunning) && writeFails ==>
        && frames == old(frames) && !isActive && !heartbeatRunning
        && actions == old(actions) + CleanupActions(userChannel, userId, presenceFails, timestamp)
      ensures abortListening == old(abortListening) && startFailed == old(startFailed)
    {
      if heartbeatRunning {
        Send(HeartbeatFrame(timestamp), writeFails, presenceFails, timestamp);
      }
    }

    /** `handleMessage`: only a string message is relayed, as a `message` frame. */
    method HandleMessage(message: Option<string>, writeFails: bool, presenceFails: bool, timestamp: string)
      requires Valid()
      modifies this, redis, store
      ensures Valid()
      ensures message.None? || !old(isActive) || (startFailed && writeFails) ==>
        frames == old(frames) && actions == old(actions) && isActive == old(isActive)
        && redis.messageHandlers == old(redis.messageHandlers)
      ensures message.Some? && old(isActive) && !writeFails && !startFailed ==>
        frames == old(frames) + [MessageFrame(message.value)] && actions == old(actions) && isActive
        && redis.messageHandlers == old(redis.messageHandlers)
      ensures message.Some? && old(isActive) && writeFails && !startFailed ==>
        && frames == old(frames) && !isActive && !heartbeatRunning
        && actions == old(actions) + CleanupActions(userChannel, userId, presenceFails, timestamp)
        && store.activeUsers == if presenceFails then old(store.activeUsers) else old(store.activeUsers) - {userId}
      ensures message.None? || isActive ==> store.activeUsers == old(store.activeUsers)
      ensures isActive ==> heartbeatRunning == old(heartbeatRunning)
      ensures abortListening == old(abortListening) && startFailed == old(startFailed)
      ensures redis.listeners == old(redis.listeners) && redis.published == old(redis.published)
    {
      if message.None? {
        return;
      }
      Send(MessageFrame(message.value), writeFails, presenceFails, timestamp);
    }

    /**
     * One inbound pub/sub message: each listener attached to the wrapper's subscriber looks
     * the channel up and calls its handler. With both channels subscribed, a relayed message
     * is written twice; a failed first write tears the session down and the second listener
     * then finds no handler.
     */
    method Deliver(channel: string, message: Option<string>, writeFails: bool, presenceFails: bool, timestamp: string)
      requires Valid()
      modifies this, redis, store
      ensures Valid()
      ensures var relayed := old(isActive) && message.Some? && Channel(channel) in old(redis.messageHandlers);
        && (!relayed || (startFailed && writeFails) ==>
              frames == old(frames) && actions == old(actions) && isActive == old(isActive)
              && store.activeUsers == old(store.activeUsers))
        && (relayed && !writeFails && !startFailed ==>
              frames == old(frames) + [MessageFrame(message.value), MessageFrame(message.value)]
              && actions == old(actions) && isActive && store.activeUsers == old(store.activeUsers))
        && (relayed && writeFails && !startFailed ==>
              && frames == old(frames) && !isActive && !heartbeatRunning
              && actions == old(actions) + CleanupActions(userChannel, userId, presenceFails, timestamp)
              && store.activeUsers == if presenceFails then old(store.activeUsers) else old(store.activeUsers) - {userId})
      ensures isActive ==> heartbeatRunning == old(heartbeatRunning)
      ensures abortListening == old(abortListening) && startFailed == old(startFailed)
    {
      ghost var relayed := isActive && message.Some? && Channel(channel) in redis.messageHandlers;
      var k := 0;
      while k < redis.listeners
        invariant Valid()
        invariant 0 <= k <= redis.listeners == 2
        invariant abortListening == old(abortListening) && startFailed == old(startFailed)
        invariant isActive ==> heartbeatRunning == old(heartbeatRunning)
        invariant !relayed || (startFailed && writeFails) || k == 0 ==>
          frames == old(frames) && actions == old(actions) && isActive == old(isActive)
          && store.activeUsers == old(store.activeUsers)
        invariant relayed && !writeFails && !startFailed ==>
          frames == old(frames) + seq(k, _ => MessageFrame(message.value)) && actions == old(actions) && isActive
          && store.activeUsers == old(store.activeUsers)
        invariant relayed && writeFails && !startFailed && k > 0 ==>
          && frames == old(frames) && !isActive && !heartbeatRunning
          && actions == old(actions) + CleanupActions(userChannel, userId, presenceFails, timestamp)
          && store.activeUsers == if presenceFails then old(store.activeUsers) else old(store.activeUsers) - {userId}
      {
        if Channel(channel) in redis.messageHandlers {
          HandleMessage(message, writeFails, presenceFails, timestamp);
          if message.Some? {
            assert seq(k + 1, _ => MessageFrame(message.value)) == seq(k, _ => MessageFrame(message.value)) + [MessageFrame(message.value)];
          }
        }
        k := k + 1;
      }
      if message.Some? {
        assert seq(2, _ => MessageFrame(message.value)) == [MessageFrame(message.value), MessageFrame(message.value)];
      }
    }

    /** The request's abort signal: the teardown, if `start` got as far as listening for it. */
    method Abort(presenceFails: bool, timestamp: string)
      requires Valid()
      modifies this, redis, store
      ensures Valid()
      ensures !abortListening || !old(isActive) ==>
        actions == old(actions) && isActive == old(isActive) && store.activeUsers == old(store.activeUsers)
      ensures abortListening && old(isActive) ==>
        && !isActive && !heartbeatRunning && redis.messageHandlers == map[]
        && actions == old(actions) + CleanupActions(userChannel, userId, presenceFails, timestamp)
        && store.activeUsers == if presenceFails then old(store.activeUsers) else old(store.activeUsers) - {userId}
      ensures frames == old(frames) && abortListening == old(abortListening)
    {
      if abortListening {
        Cleanup(presenceFails, timestamp);
      }
    }
  }

  /**
   * The handler: 401 without a session user or with a falsy user id, and then nothing is
   * written; otherwise the presence record is written and the stream session started.
   */
  method Get(session: Option<SessionUser>, store: Presence.Store, now: int, timestamp: string,
             dbError: Option<string>, connectedWriteFails: bool)
    returns (status: nat, s: ConnectSession?)
    modifies store
    ensures Authorized(session).None? ==> status == 401 && s == null && store.activeUsers == old(store.activeUsers)
    ensures Authorized(session).Some? ==>
      && status == 200 && s != null && fresh(s) && fresh(s.redis) && s.Valid()
      && s.userId == session.value.id && s.store == store
      && store.activeUsers == old(store.activeUsers)[session.value.id := PresenceOf(session.value, now)]
      && s.userChannel == GetUserChannel(session.value.id, dbError)
      && s.isActive && s.actions == [] && s.startFailed == connectedWriteFails
      && s.frames == (if connectedWriteFails then [] else [ConnectedFrame("client-" + session.value.id, session.value.id, timestamp)])
  {
    if Authorized(session).None? {
      return 401, null;
    }
    var user := session.value;
    store.HSet(user.id, PresenceOf(user, now));
    s := new ConnectSession(user.id, store, dbError, timestamp, connectedWriteFails);
    status := 200;
  }

  /**
   * After a normal start, one message on the global channel reaches the stream twice, right
   * after the `connected` frame.
   */
  method GlobalMessageTwice(user: SessionUser, store: Presence.Store, now: int, timestamp: string, message: string)
    returns (frames: seq<string>)
    requires user.id != ""
    modifies store
    ensures frames == [ConnectedFrame("client-" + user.id, user.id, timestamp), MessageFrame(message), MessageFrame(message)]
  {
    var status, s := Get(Some(user), store, now, timestamp, None, false);
    s.Deliver(GLOBAL_CHANNEL, Some(message), false, false, timestamp);
    frames := s.frames;
  }
}
