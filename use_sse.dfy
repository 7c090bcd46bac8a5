/**
 * The browser-side hook (`useSSE`): its refs become the fields of one `SseClient` object. It
 * opens an event source at most while none is held, updates the client id and the connected
 * flag from `connected` and `heartbeat` events, schedules reconnects with a linearly growing
 * delay up to five attempts, and keeps a table of event handlers. The error handler never drops
 * the held source, so a scheduled reconnect finds one and does nothing.
 */
module UseSse {
  import opened Wrappers
  import opened Json
  import opened Collections

  const MAX_RECONNECT_ATTEMPTS := 5
  const RECONNECT_DELAY := 1000

  /** Identity of a handler function registered through `addEventHandler`. */
  type Handler = nat

  /** A call the hook makes to one of the callbacks it was given. */
  datatype Callback =
    | OnConnect(clientId: Option<Json>)
    | OnEvent(event: string, data: Json)
    | OnError
    | OnDisconnect

  /** The closure `addEventHandler` returns. */
  datatype Remover = Remover(eventType: string, handler: Handler)

  /** What one connection error does to the attempt counter, and the delay it schedules, if any. */
  function ErrorStep(attempts: nat): (r: (nat, Option<int>))
    ensures attempts < MAX_RECONNECT_ATTEMPTS ==> r == (attempts + 1, Some(RECONNECT_DELAY * (attempts + 1)))
    ensures attempts >= MAX_RECONNECT_ATTEMPTS ==> r == (attempts, None)
  {
    if attempts < MAX_RECONNECT_ATTEMPTS then (attempts + 1, Some(RECONNECT_DELAY * (attempts + 1)))
    else (attempts, None)
  }

  /** The delays scheduled by `errors` connection errors in a row, starting from `attempts`. */
  function Delays(attempts: nat, errors: nat): seq<int>
    decreases errors
  {
    if errors == 0 then []
    else
      var (next, delay) := ErrorStep(attempts);
      (if delay.Some? then [delay.value] else []) + Delays(next, errors - 1)
  }

  function Min(a: nat, b: nat): nat
  {
    if a < b then a else b
  }

  /**
   * From a fresh counter, `k` errors schedule 1000, 2000, ... ms, one per error, up to five:
   * the delays grow and never exceed 5000 ms.
   */
  lemma {:induction false} DelaysFromFresh(k: nat)
    ensures Delays(0, k) == seq(Min(k, MAX_RECONNECT_ATTEMPTS), i => RECONNECT_DELAY * (i + 1))
  {
    DelaysFrom(0, k);
  }

  lemma {:induction false} DelaysFrom(a: nat, k: nat)
    requires a <= MAX_RECONNECT_ATTEMPTS
    ensures Delays(a, k) == seq(Min(k, MAX_RECONNECT_ATTEMPTS - a), i => RECONNECT_DELAY * (a + i + 1))
    decreases k
  {
    if k == 0 {
    } else if a == MAX_RECONNECT_ATTEMPTS {
      DelaysFrom(a, k - 1);
      assert Delays(a, k) == [] + Delays(a, k - 1);
    } else {
      DelaysFrom(a + 1, k - 1);
      var tail := seq(Min(k - 1, MAX_RECONNECT_ATTEMPTS - a - 1), i => RECONNECT_DELAY * (a + 1 + i + 1));
      assert Delays(a, k) == [RECONNECT_DELAY * (a + 1)] + tail;
      var whole := seq(Min(k, MAX_RECONNECT_ATTEMPTS - a), i => RECONNECT_DELAY * (a + i + 1));
      assert |whole| == 1 + |tail|;
      assert forall i :: 0 < i < |whole| ==> whole[i] == tail[i - 1];
    }
  }

  /** No schedule of reconnects ever waits more than five seconds, and each waits at least as long as the one before. */
  lemma DelaysBounded(k: nat)
    ensures var d := Delays(0, k);
      && |d| <= MAX_RECONNECT_ATTEMPTS
      && (forall i :: 0 <= i < |d| ==> RECONNECT_DELAY <= d[i] <= RECONNECT_DELAY * MAX_RECONNECT_ATTEMPTS)
      && (forall i, j :: 0 <= i <= j < |d| ==> d[i] <= d[j])
  {
    DelaysFromFresh(k);
  }

  class SseClient {
    /** `clientIdRef`: `None` for `null` or `undefined`. */
    var clientId: Option<Json>
    /** `eventSourceRef`: the id of the event source held, if any. */
    var source: Option<nat>
    var sourcesOpened: nat
    var closedSources: seq<nat>
    var isConnected: bool
    var attempts: nat
    /** Reconnect timers still pending, by id, with their delays. */
    var timers: map<nat, int>
    /** `reconnectTimeoutRef`: the timer scheduled last; it is never reset. */
    var latestTimer: Option<nat>
    var nextTimer: nat
    var handlers: map<string, seq<Handler>>
    /** The callbacks the caller passed; an absent one is never called. */
    const hasOnEvent: bool
    const hasOnConnect: bool
    const hasOnError: bool
    const hasOnDisconnect: bool
    var calls: seq<Callback>

    ghost predicate Valid()
      reads this
    {
      && attempts <= MAX_RECONNECT_ATTEMPTS
      && (source.Some? ==> source.value < sourcesOpened)
      && (forall t :: t in timers ==> t < nextTimer)
      && (latestTimer.Some? ==> latestTimer.value < nextTimer)
    }

    /**
     * Mounting: the effects set the client id to `client-<userId>` and connect, which opens
     * the first event source.
     */
    constructor (userId: Option<Json>, hasOnEvent: bool, hasOnConnect: bool, hasOnError: bool, hasOnDisconnect: bool)
      ensures Valid()
      ensures clientId == Some(JStr("client-" + (if userId.None? then "undefined" else TemplateText(userId.value, false))))
      ensures source == Some(0) && sourcesOpened == 1 && closedSources == []
      ensures !isConnected && attempts == 0 && timers == map[] && latestTimer.None? && handlers == map[] && calls == []
      ensures this.hasOnEvent == hasOnEvent && this.hasOnConnect == hasOnConnect
      ensures this.hasOnError == hasOnError && this.hasOnDisconnect == hasOnDisconnect
    {
      clientId := Some(JStr("client-" + (if userId.None? then "undefined" else TemplateText(userId.value, false))));
      source, sourcesOpened, closedSources := None, 0, [];
      isConnected, attempts := false, 0;
      timers, latestTimer, nextTimer := map[], None, 0;
      handlers := map[];
      this.hasOnEvent, this.hasOnConnect := hasOnEvent, hasOnConnect;
      this.hasOnError, this.hasOnDisconnect := hasOnError, hasOnDisconnect;
      calls := [];
      new;
      Connect();
    }

    /** `connect`: opens a new event source only with a truthy client id and no source held. */
    method Connect()
      requires Valid()
      modifies this
      ensures Valid()
      ensures var opens := old(clientId).Some? && Truthy(old(clientId).value) && old(source).None?;
        && (opens ==> source == Some(old(sourcesOpened)) && sourcesOpened == old(sourcesOpened) + 1)
        && (!opens ==> source == old(source) && sourcesOpened == old(sourcesOpened))
      ensures clientId == old(clientId) && isConnected == old(isConnected) && attempts == old(attempts)
      ensures timers == old(timers) && latestTimer == old(latestTimer) && nextTimer == old(nextTimer)
      ensures handlers == old(handlers) && calls == old(calls) && closedSources == old(closedSources)
    {
      if clientId.None? || !Truthy(clientId.value) {
        return;
      }
      if source.Some? {
        return;
      }
      source := Some(sourcesOpened);
      sourcesOpened := sourcesOpened + 1;
    }

    /**
     * The `connected` listener. A payload that does not parse, or `null`, changes nothing;
     * otherwise the client id becomes the payload's `clientId` and the flag is raised. The
     * attempt counter is not reset.
     */
    method Connected(payload: Option<Json>)
      requires Valid() && source.Some?
      modifies this
      ensures Valid()
      ensures payload.None? || payload == Some(JNull) ==>
        clientId == old(clientId) && isConnected == old(isConnected) && calls == old(calls)
      ensures payload.Some? && payload.value != JNull ==>
        && clientId == Prop(payload.value, "clientId") && isConnected
        && calls == old(calls) + (if hasOnConnect then [OnConnect(clientId)] else [])
                               + (if hasOnEvent then [OnEvent("connected", payload.value)] else [])
      ensures attempts == old(attempts) && source == old(source) && sourcesOpened == old(sourcesOpened)
      ensures timers == old(timers) && latestTimer == old(latestTimer) && nextTimer == old(nextTimer)
      ensures handlers == old(handlers) && closedSources == old(closedSources)
    {
      if payload.None? || payload.value == JNull {
        return;
      }
      var data := payload.value;
      clientId := Prop(data, "clientId");
      isConnected := true;
      if hasOnConnect {
        calls := calls + [OnConnect(clientId)];
      }
      if hasOnEvent {
        calls := calls + [OnEvent("connected", data)];
      }
    }

    /** The `heartbeat` listener: a payload that parses raises the flag. */
    method Heartbeat(payload: Option<Json>)
      requires Valid() && source.Some?
      modifies this
      ensures Valid()
      ensures payload.None? ==> isConnected == old(isConnected) && calls == old(calls)
      ensures payload.Some? ==>
        isConnected && calls == old(calls) + (if hasOnEvent then [OnEvent("heartbeat", payload.value)] else [])
      ensures clientId == old(clientId) && attempts == old(attempts) && source == old(source)
      ensures sourcesOpened == old(sourcesOpened) && timers == old(timers) && latestTimer == old(latestTimer)
      ensures nextTimer == old(nextTimer) && handlers == old(handlers) && closedSources == old(closedSources)
    {
      if payload.None? {
        return;
      }
      isConnected := true;
      if hasOnEvent {
        calls := calls + [OnEvent("heartbeat", payload.value)];
      }
    }

    /** The `clients_update` and `message` listeners: a payload that parses is passed on, nothing else. */
    method Relay(event: string, payload: Option<Json>)
      requires Valid() && source.Some?
      requires event == "clients_update" || event == "message"
      modifies this`calls
      ensures calls == old(calls) + (if hasOnEvent && payload.Some? then [OnEvent(event, payload.value)] else [])
    {
      if payload.Some? && hasOnEvent {
        calls := calls + [OnEvent(event, payload.value)];
      }
    }

    /**
     * `onerror`: lowers the flag; below the maximum, counts one more attempt and schedules a
     * reconnect after `1000 * attempts` ms. The source is kept.
     */
    method Error()
      requires Valid() && source.Some?
      modifies this
      ensures Valid()
      ensures !isConnected
      ensures calls == old(calls) + (if hasOnError then [OnError] else [])
      ensures attempts == ErrorStep(old(attempts)).0
      ensures ErrorStep(old(attempts)).1.Some? ==>
        && timers == old(timers)[old(nextTimer) := ErrorStep(old(attempts)).1.value]
        && latestTimer == Some(old(nextTimer)) && nextTimer == old(nextTimer) + 1
      ensures ErrorStep(old(attempts)).1.None? ==>
        timers == old(timers) && latestTimer == old(latestTimer) && nextTimer == old(nextTimer)
      ensures clientId == old(clientId) && source == old(source) && sourcesOpened == old(sourcesOpened)
      ensures handlers == old(handlers) && closedSources == old(closedSources)
    {
      isConnected := false;
      if hasOnError {
        calls := calls + [OnError];
      }
      if attempts < MAX_RECONNECT_ATTEMPTS {
        attempts := attempts + 1;
        timers := timers[nextTimer := RECONNECT_DELAY * attempts];
        latestTimer := Some(nextTimer);
        nextTimer := nextTimer + 1;
      }
    }

    /**
     * A reconnect timer firing: it calls `connect`. While the errored source is still held,
     * that is a no-op, so no new source is ever opened this way.
     */
    method FireTimer(t: nat)
      requires Valid() && t in timers
      modifies this
      ensures Valid()
      ensures timers == old(timers) - {t}
      ensures old(source).Some? ==> source == old(source) && sourcesOpened == old(sourcesOpened)
      ensures old(source).None? && old(clientId).Some? && Truthy(old(clientId).value) ==>
        source == Some(old(sourcesOpened)) && sourcesOpened == old(sourcesOpened) + 1
      ensures old(source).None? && (old(clientId).None? || !Truthy(old(clientId).value)) ==>
        source == old(source) && sourcesOpened == old(sourcesOpened)
      ensures clientId == old(clientId) && isConnected == old(isConnected) && attempts == old(attempts)
      ensures latestTimer == old(latestTimer) && nextTimer == old(nextTimer) && calls == old(calls)
      ensures handlers == old(handlers) && closedSources == old(closedSources)
    {
      timers := timers - {t};
      Connect();
    }

    /**
     * `disconnect`: with a source held, closes and drops it, lowers the flag and calls
     * `onDisconnect`; in any case cancels the last scheduled reconnect.
     */
    method Disconnect()
      requires Valid()
      modifies this
      ensures Valid()
      ensures source.None?
      ensures old(source).Some? ==>
        && closedSources == old(closedSources) + [old(source).value] && !isConnected
        && calls == old(calls) + (if hasOnDisconnect then [OnDisconnect] else [])
      ensures old(source).None? ==>
        closedSources == old(closedSources) && isConnected == old(isConnected) && calls == old(calls)
      ensures timers == if old(latestTimer).Some? then old(timers) - {old(latestTimer).value} else old(timers)
      ensures clientId == old(clientId) && attempts == old(attempts) && sourcesOpened == old(sourcesOpened)
      ensures latestTimer == old(latestTimer) && nextTimer == old(nextTimer) && handlers == old(handlers)
    {
      if source.Some? {
        closedSources := closedSources + [source.value];
        source := None;
        isConnected := false;
        if hasOnDisconnect {
          calls := calls + [OnDisconnect];
        }
      }
      if latestTimer.Some? {
        timers := timers - {latestTimer.value};
      }
    }

    /** `sendMessage`'s answer: false without a truthy client id, on a failed fetch or a non-ok status. */
    method SendMessage(response: Option<bool>) returns (sent: bool)
      ensures sent <==> clientId.Some? && Truthy(clientId.value) && response == Some(true)
    {
      if clientId.None? || !Truthy(clientId.value) {
        return false;
      }
      if response.None? {
        return false;
      }
      sent := response.value;
    }

    /** `addEventHandler`: appends the handler to its event's list, creating the list if needed. */
    method AddEventHandler(eventType: string, handler: Handler) returns (remover: Remover)
      requires Valid()
      modifies this`handlers
      ensures remover == Remover(eventType, handler)
      ensures handlers == old(handlers)[eventType := (if eventType in old(handlers) then old(handlers)[eventType] else []) + [handler]]
    {
      var list := if eventType in handlers then handlers[eventType] else [];
      handlers := handlers[eventType := list + [handler]];
      remover := Remover(eventType, handler);
    }

    /** Calling a remover: splices the first occurrence of its handler out of its event's list. */
    method Remove(remover: Remover)
      requires Valid()
      modifies this`handlers
      ensures var list := if remover.eventType in old(handlers) then old(handlers)[remover.eventType] else [];
        handlers == if remover.handler in list then old(handlers)[remover.eventType := RemoveFirst(list, remover.handler)]
                    else old(handlers)
    {
      var list := if remover.eventType in handlers then handlers[remover.eventType] else [];
      if remover.handler in list {
        handlers := handlers[remover.eventType := RemoveFirst(list, remover.handler)];
      }
    }
  }

  /**
   * A connection error followed by its reconnect timer leaves the client on the same source:
   * the reconnect is a no-op.
   */
  method ErrorThenRetry(userId: Option<Json>) returns (before: Option<nat>, after: Option<nat>, sourceCount: nat)
    ensures before == after == Some(0) && sourceCount == 1
  {
    var client := new SseClient(userId, true, true, true, true);
    before := client.source;
    client.Error();
    var t := client.latestTimer.value;
    client.FireTimer(t);
    after := client.source;
    sourceCount := client.sourcesOpened;
  }
}
