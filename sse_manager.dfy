/**
 * The per-process connection registry: which client id each user is mapped to, the live
 * clients with their last activity time, per-event handler lists, and the send loops that
 * write frames to clients. JavaScript `Map`s iterate in insertion order, so each map is kept
 * beside the list of its keys in that order. What a client's `send` closure receives is
 * appended to `outbox`; the clients whose `send` throws during a call are the input `failing`.
 */
module SseManager {
  import opened Wrappers
  import opened Collections
  import opened Json
  import opened EventStream
  import Presence

  const HEARTBEAT_INTERVAL := 50000
  /** Five minutes, in milliseconds. */
  const CLIENT_TIMEOUT := 5 * 60 * 1000

  /** A registered client: its id and the time of its last successful send. */
  datatype Client = Client(id: string, lastActivity: int)

  /** One frame handed to one client's `send`. */
  datatype Delivery = Delivery(clientId: string, frame: string)

  /** Identity of an event handler closure. */
  type Handler = nat

  /** The closure `on` returns: it remembers the handler array it pushed into and the handler. */
  datatype Unsubscriber = Unsubscriber(list: nat, handler: Handler)

  /** An entry of `getActiveClients`. */
  datatype ClientInfo = ClientInfo(id: string, userId: string, lastActivity: int)

  /** The result of `getActiveClient`. */
  datatype ActiveClient = ActiveClient(id: string, userId: string, lastActivity: int, isActive: bool)

  /** The part of the registry a send loop changes: client activity times and what was sent. */
  datatype Round = Round(clients: map<string, Client>, outbox: seq<Delivery>)

  /**
   * One iteration of a send loop for client id `id`: an existing client that the filter
   * accepts gets the frame and, when `touch`, its activity time set to `now`; a client whose
   * `send` throws gets nothing and keeps its time, and the loop goes on.
   */
  function Turn(r: Round, id: string, message: string, accept: Client -> bool, touch: bool,
                now: int, failing: set<string>): Round
  {
    if id in r.clients && accept(r.clients[id]) && id !in failing then
      Round(if touch then r.clients[id := r.clients[id].(lastActivity := now)] else r.clients,
            r.outbox + [Delivery(id, message)])
    else r
  }

  /** A whole send loop over `ids`, in order. */
  function SendRound(r: Round, ids: seq<string>, message: string, accept: Client -> bool, touch: bool,
                     now: int, failing: set<string>): Round
    decreases |ids|
  {
    if ids == [] then r
    else Turn(SendRound(r, ids[..|ids| - 1], message, accept, touch, now, failing),
              ids[|ids| - 1], message, accept, touch, now, failing)
  }

  /** The deliveries a send loop makes when every client passes the filter. */
  function Reached(ids: seq<string>, live: set<string>, message: string): seq<Delivery>
    decreases |ids|
  {
    if ids == [] then []
    else
      Reached(ids[..|ids| - 1], live, message)
      + (if ids[|ids| - 1] in live then [Delivery(ids[|ids| - 1], message)] else [])
  }

  /**
   * What any send loop does: no client appears or disappears, only clients it reached can
   * have a new activity time, and every new delivery is the loop's frame for one of its ids
   * that exists and did not throw.
   */
  lemma {:induction false} SendRoundFrame(r: Round, ids: seq<string>, message: string, accept: Client -> bool,
                                          touch: bool, now: int, failing: set<string>)
    ensures var q := SendRound(r, ids, message, accept, touch, now, failing);
      && q.clients.Keys == r.clients.Keys
      && (forall id :: id in r.clients ==> q.clients[id].id == r.clients[id].id)
      && (forall id :: id in r.clients && (id !in ids || id in failing || !touch) ==> q.clients[id] == r.clients[id])
      && |r.outbox| <= |q.outbox| <= |r.outbox| + |ids|
      && q.outbox[..|r.outbox|] == r.outbox
      && (forall k :: |r.outbox| <= k < |q.outbox| ==>
            q.outbox[k].frame == message && q.outbox[k].clientId in ids
            && q.outbox[k].clientId in r.clients && q.outbox[k].clientId !in failing)
    decreases |ids|
  {
    if ids != [] {
      var p := ids[..|ids| - 1];
      SendRoundFrame(r, p, message, accept, touch, now, failing);
      var q0 := SendRound(r, p, message, accept, touch, now, failing);
      var q := SendRound(r, ids, message, accept, touch, now, failing);
      assert q == Turn(q0, ids[|ids| - 1], message, accept, touch, now, failing);
      assert forall id :: id in p ==> id in ids;
      assert q.outbox[..|q0.outbox|] == q0.outbox;
      assert q.outbox[..|r.outbox|] == q0.outbox[..|r.outbox|];
    }
  }

  /**
   * With a filter that accepts every client, a send loop reaches exactly the ids, in order,
   * whose client exists and does not throw; one throwing client does not stop the others.
   * When the loop touches clients, each reached client's activity time becomes `now`.
   */
  lemma {:induction false} SendRoundAccepting(r: Round, ids: seq<string>, message: string, accept: Client -> bool,
                                              touch: bool, now: int, failing: set<string>)
    requires forall c :: accept(c)
    ensures var q := SendRound(r, ids, message, accept, touch, now, failing);
      && q.outbox == r.outbox + Reached(ids, r.clients.Keys - failing, message)
      && (touch ==> forall id :: id in ids && id in r.clients && id !in failing ==>
            id in q.clients && q.clients[id].lastActivity == now)
    decreases |ids|
  {
    if ids != [] {
      var p := ids[..|ids| - 1];
      var last := ids[|ids| - 1];
      SendRoundAccepting(r, p, message, accept, touch, now, failing);
      SendRoundFrame(r, p, message, accept, touch, now, failing);
      var q0 := SendRound(r, p, message, accept, touch, now, failing);
      var q := SendRound(r, ids, message, accept, touch, now, failing);
      assert q == Turn(q0, last, message, accept, touch, now, failing);
      var live := r.clients.Keys - failing;
      if last in live {
        assert q.outbox == q0.outbox + [Delivery(last, message)];
        assert Reached(ids, live, message) == Reached(p, live, message) + [Delivery(last, message)];
      } else {
        assert Reached(ids, live, message) == Reached(p, live, message) + [];
      }
      if touch {
        forall id | id in ids && id in r.clients && id !in failing
          ensures id in q.clients && q.clients[id].lastActivity == now
        {
          if id != last {
            assert id in p;
          }
        }
      }
    }
  }

  /** The client ids the users are mapped to, in user order. */
  function MappedIds(users: seq<string>, userClients: map<string, string>): (ids: seq<string>)
    requires forall u :: u in users ==> u in userClients
    ensures |ids| == |users| && forall i :: 0 <= i < |users| ==> ids[i] == userClients[users[i]]
  {
    seq(|users|, i requires 0 <= i < |users| => userClients[users[i]])
  }

  /**
   * `getActiveClients`: one entry per mapped user, in mapping order. The activity time is
   * the client's, or `now` when the client is missing or its time is 0 (`||` on a falsy 0).
   */
  function ActiveClientsOf(users: seq<string>, userClients: map<string, string>,
                           clients: map<string, Client>, now: int): (infos: seq<ClientInfo>)
    requires forall u :: u in users ==> u in userClients
    ensures |infos| == |users|
    ensures forall i :: 0 <= i < |users| ==>
      var c := userClients[users[i]];
      && infos[i].id == c && infos[i].userId == users[i]
      && infos[i].lastActivity == (if c in clients && clients[c].lastActivity != 0 then clients[c].lastActivity else now)
  {
    seq(|users|, i requires 0 <= i < |users| =>
      var c := userClients[users[i]];
      ClientInfo(c, users[i], if c in clients && clients[c].lastActivity != 0 then clients[c].lastActivity else now))
  }

  function ClientInfoJson(info: ClientInfo): Json
  {
    JObj([("id", JStr(info.id)), ("userId", JStr(info.userId)), ("lastActivity", JNum(info.lastActivity))])
  }

  /** The `clients_update` frame: `{clients: getActiveClients()}`. */
  function ClientsUpdateFrame(infos: seq<ClientInfo>): string
  {
    FormatMessage("clients_update",
      Value(JObj([("clients", JArr(seq(|infos|, i requires 0 <= i < |infos| => ClientInfoJson(infos[i]))))])))
  }

  /** The payload of the registry's own heartbeat. */
  function HeartbeatData(timestamp: string): Data
  {
    Value(JObj([("timestamp", JStr(timestamp))]))
  }

  /** The filter `sendToAll` uses when none is given. */
  function AcceptAll(c: Client): bool
  {
    true
  }

  /** Whether a mapped client counts as inactive for `cleanupInactiveClients`. */
  ghost predicate Stale(clients: map<string, Client>, clientId: string, now: int)
  {
    clientId !in clients || now - clients[clientId].lastActivity > CLIENT_TIMEOUT
  }

  class Manager {
    var clients: map<string, Client>
    /** Keys of `clients` in insertion order (`getClients`). */
    var clientOrder: seq<string>
    var userClientMap: map<string, string>
    /** Keys of `userClientMap` in insertion order. */
    var userOrder: seq<string>
    /** Event name to the handler array currently registered for it. */
    var eventHandlers: map<string, nat>
    /** Every handler array ever created; one detached from `eventHandlers` is still reachable from its removers. */
    var handlerLists: map<nat, seq<Handler>>
    var nextList: nat
    /** Frames handed to clients' `send`, in order. */
    var outbox: seq<Delivery>
    var heartbeatRunning: bool

    ghost predicate Valid()
      reads this
    {
      && KeyOrder(clientOrder, clients.Keys)
      && KeyOrder(userOrder, userClientMap.Keys)
      && (forall id :: id in clients ==> clients[id].id == id)
      && (forall e :: e in eventHandlers ==> eventHandlers[e] in handlerLists)
      && (forall l :: l in handlerLists ==> l < nextList)
    }

    /** The singleton's construction: empty maps and a running heartbeat interval. */
    constructor ()
      ensures Valid()
      ensures clients == map[] && userClientMap == map[] && eventHandlers == map[] && outbox == []
      ensures heartbeatRunning
    {
      clients, clientOrder := map[], [];
      userClientMap, userOrder := map[], [];
      eventHandlers, handlerLists, nextList := map[], map[], 0;
      outbox := [];
      heartbeatRunning := true;
    }

    /** `getClientCount`: one per entry of `getClients`. */
    function ClientCount(): (n: nat)
      reads this
      requires Valid()
      ensures n == |clientOrder|
    {
      KeyOrderCardinality(clientOrder, clients.Keys);
      |clients|
    }

    /** `getUserClientId`. */
    function GetUserClientId(userId: string): (r: Option<string>)
      reads this
      ensures r.Some? <==> userId in userClientMap
      ensures r.Some? ==> r.value == userClientMap[userId]
    {
      if userId in userClientMap then Some(userClientMap[userId]) else None
    }

    /** `isUserActive`: mapped to a non-empty client id whose client was active within the timeout. */
    function IsUserActive(userId: string, now: int): (active: bool)
      reads this
      ensures active ==> userId in userClientMap && userClientMap[userId] != ""
      ensures active ==> !Stale(clients, userClientMap[userId], now)
    {
      && userId in userClientMap
      && userClientMap[userId] != ""
      && userClientMap[userId] in clients
      && now - clients[userClientMap[userId]].lastActivity < CLIENT_TIMEOUT
    }

    function ActiveClients(now: int): seq<ClientInfo>
      reads this
      requires Valid()
    {
      ActiveClientsOf(userOrder, userClientMap, clients, now)
    }

    /**
     * `getActiveClient`: nothing for an unmapped user, an empty mapped id or a missing
     * client; otherwise the client with `isActive` as `isUserActive` decides it.
     */
    function GetActiveClient(userId: string, now: int): (r: Option<ActiveClient>)
      reads this
      ensures r.Some? <==>
        userId in userClientMap && userClientMap[userId] != "" && userClientMap[userId] in clients
      ensures r.Some? ==>
        && r.value.id == userClientMap[userId] && r.value.userId == userId
        && r.value.lastActivity == clients[r.value.id].lastActivity
        && (r.value.isActive <==> now - r.value.lastActivity < CLIENT_TIMEOUT)
    {
      if userId !in userClientMap || userClientMap[userId] == "" then None
      else
        var c := userClientMap[userId];
        if c !in clients then None
        else Some(ActiveClient(c, userId, clients[c].lastActivity, IsUserActive(userId, now)))
    }

    /** `isUserActive` and `getActiveClient` agree: a user is active exactly when its active client is reported active. */
    lemma ActiveClientAgrees(userId: string, now: int)
      ensures IsUserActive(userId, now) <==> GetActiveClient(userId, now).Some? && GetActiveClient(userId, now).value.isActive
    {
    }

    /** The client id `sendToClient` uses: the user's mapped id when it is non-empty, else the argument. */
    function Resolve(clientId: string): string
      reads this
    {
      if clientId in userClientMap && userClientMap[clientId] != "" then userClientMap[clientId] else clientId
    }

    /**
     * `setUserClient`: maps the user to the client id, replacing an earlier mapping; the
     * earlier client is neither closed nor removed.
     */
    method SetUserClient(userId: string, clientId: string)
      requires Valid()
      modifies this
      ensures Valid()
      ensures userClientMap == old(userClientMap)[userId := clientId]
      ensures userOrder == if userId in old(userClientMap) then old(userOrder) else old(userOrder) + [userId]
      ensures clients == old(clients) && clientOrder == old(clientOrder) && outbox == old(outbox)
      ensures eventHandlers == old(eventHandlers) && handlerLists == old(handlerLists)
      ensures nextList == old(nextList) && heartbeatRunning == old(heartbeatRunning)
    {
      var existing := GetUserClientId(userId);
      if userId !in userClientMap {
        userOrder := userOrder + [userId];
      }
      userClientMap := userClientMap[userId := clientId];
    }

    /** `addClient`: inserts or overwrites the client with activity time `now`. */
    method AddClient(clientId: string, now: int)
      requires Valid()
      modifies this
      ensures Valid()
      ensures clients == old(clients)[clientId := Client(clientId, now)]
      ensures clientOrder == if clientId in old(clients) then old(clientOrder) else old(clientOrder) + [clientId]
      ensures userClientMap == old(userClientMap) && userOrder == old(userOrder) && outbox == old(outbox)
      ensures eventHandlers == old(eventHandlers) && handlerLists == old(handlerLists)
      ensures nextList == old(nextList) && heartbeatRunning == old(heartbeatRunning)
    {
      if clientId !in clients {
        clientOrder := clientOrder + [clientId];
      }
      clients := clients[clientId := Client(clientId, now)];
    }

    /**
     * `sendToClient` without the branch that rebuilds clients from the presence hash:
     * false for an empty id, for a resolved id with no client and when `send` throws;
     * otherwise the frame is sent, the client's activity time becomes `now`, and true.
     */
    method SendToClient(clientId: string, event: string, data: Data, now: int, failing: set<string>)
      returns (ok: bool)
      requires Valid()
      modifies this
      ensures Valid()
      ensures ok <==> clientId != "" && old(Resolve(clientId)) in old(clients) && old(Resolve(clientId)) !in failing
      ensures ok ==>
        var id := old(Resolve(clientId));
        && clients == old(clients)[id := old(clients)[id].(lastActivity := now)]
        && outbox == old(outbox) + [Delivery(id, FormatMessage(event, data))]
      ensures !ok ==> clients == old(clients) && outbox == old(outbox)
      ensures clientOrder == old(clientOrder) && userClientMap == old(userClientMap) && userOrder == old(userOrder)
      ensures eventHandlers == old(eventHandlers) && handlerLists == old(handlerLists)
      ensures nextList == old(nextList) && heartbeatRunning == old(heartbeatRunning)
    {
      if clientId == "" {
        return false;
      }
      var actual := Resolve(clientId);
      if actual !in clients {
        return false;
      }
      if actual in failing {
        return false;
      }
      var message := FormatMessage(event, data);
      outbox := outbox + [Delivery(actual, message)];
      clients := clients[actual := clients[actual].(lastActivity := now)];
      ok := true;
    }

    /** One send loop over `ids`, as `sendToAll`, its heartbeat follow-up and `broadcast` run it. */
    method SendLoop(ids: seq<string>, message: string, accept: Client -> bool, touch: bool,
                    now: int, failing: set<string>)
      requires Valid()
      modifies this
      ensures Valid()
      ensures Round(clients, outbox)
           == SendRound(Round(old(clients), old(outbox)), ids, message, accept, touch, now, failing)
      ensures clientOrder == old(clientOrder) && userClientMap == old(userClientMap) && userOrder == old(userOrder)
      ensures eventHandlers == old(eventHandlers) && handlerLists == old(handlerLists)
      ensures nextList == old(nextList) && heartbeatRunning == old(heartbeatRunning)
    {
      ghost var start := Round(clients, outbox);
      var i := 0;
      while i < |ids|
        invariant 0 <= i <= |ids|
        invariant Round(clients, outbox) == SendRound(start, ids[..i], message, accept, touch, now, failing)
        invariant clientOrder == old(clientOrder) && userClientMap == old(userClientMap) && userOrder == old(userOrder)
        invariant eventHandlers == old(eventHandlers) && handlerLists == old(handlerLists)
        invariant nextList == old(nextList) && heartbeatRunning == old(heartbeatRunning)
      {
        var id := ids[i];
        assert ids[..i + 1][..i] == ids[..i];
        if id in clients && accept(clients[id]) && id !in failing {
          outbox := outbox + [Delivery(id, message)];
          if touch {
            clients := clients[id := clients[id].(lastActivity := now)];
          }
        }
        i := i + 1;
      }
      assert ids[..i] == ids;
      SendRoundFrame(start, ids, message, accept, touch, now, failing);
    }

    /**
     * `sendToAll`: the frame to every mapped user's existing client that passes the filter,
     * touching those clients. After a `heartbeat`, a `clients_update` frame, built from the
     * updated registry, goes to every mapped existing client without touching any. The
     * clients whose `send` throws are `failing` in the first round and `failingUpdate` in the
     * second.
     */
    method SendToAll(event: string, data: Data, accept: Client -> bool, now: int,
                     failing: set<string>, failingUpdate: set<string>)
      requires Valid()
      modifies this
      ensures Valid()
      ensures
        var ids := MappedIds(old(userOrder), old(userClientMap));
        var first := SendRound(Round(old(clients), old(outbox)), ids, FormatMessage(event, data), accept, true, now, failing);
        Round(clients, outbox) ==
          if event == "heartbeat" then
            SendRound(first, ids, ClientsUpdateFrame(ActiveClientsOf(userOrder, userClientMap, first.clients, now)),
                      AcceptAll, false, now, failingUpdate)
          else first
      ensures clientOrder == old(clientOrder) && userClientMap == old(userClientMap) && userOrder == old(userOrder)
      ensures eventHandlers == old(eventHandlers) && handlerLists == old(handlerLists)
      ensures nextList == old(nextList) && heartbeatRunning == old(heartbeatRunning)
    {
      var message := FormatMessage(event, data);
      var ids := MappedIds(userOrder, userClientMap);
      SendLoop(ids, message, accept, true, now, failing);
      if event == "heartbeat" {
        var update := ClientsUpdateFrame(ActiveClients(now));
        SendLoop(ids, update, AcceptAll, false, now, failingUpdate);
      }
    }

    /** The singleton's interval callback: a heartbeat to all, while the interval runs. */
    method HeartbeatTick(timestamp: string, now: int, failing: set<string>, failingUpdate: set<string>)
      requires Valid()
      modifies this
      ensures Valid()
      ensures !old(heartbeatRunning) ==> Round(clients, outbox) == Round(old(clients), old(outbox))
      ensures old(heartbeatRunning) ==>
        var ids := MappedIds(old(userOrder), old(userClientMap));
        var first := SendRound(Round(old(clients), old(outbox)), ids,
                               FormatMessage("heartbeat", HeartbeatData(timestamp)), AcceptAll, true, now, failing);
        Round(clients, outbox) ==
          SendRound(first, ids, ClientsUpdateFrame(ActiveClientsOf(userOrder, userClientMap, first.clients, now)),
                    AcceptAll, false, now, failingUpdate)
      ensures clientOrder == old(clientOrder) && userClientMap == old(userClientMap) && userOrder == old(userOrder)
      ensures eventHandlers == old(eventHandlers) && handlerLists == old(handlerLists)
      ensures nextList == old(nextList) && heartbeatRunning == old(heartbeatRunning)
    {
      if heartbeatRunning {
        SendToAll("heartbeat", HeartbeatData(timestamp), AcceptAll, now, failing, failingUpdate);
      }
    }

    /** `broadcast`: the frame to every client, in `getClients` order, touching each one reached. */
    method Broadcast(event: string, data: Data, now: int, failing: set<string>)
      requires Valid()
      modifies this
      ensures Valid()
      ensures Round(clients, outbox)
           == SendRound(Round(old(clients), old(outbox)), old(clientOrder), FormatMessage(event, data),
                        AcceptAll, true, now, failing)
      ensures clientOrder == old(clientOrder) && userClientMap == old(userClientMap) && userOrder == old(userOrder)
      ensures eventHandlers == old(eventHandlers) && handlerLists == old(handlerLists)
      ensures nextList == old(nextList) && heartbeatRunning == old(heartbeatRunning)
    {
      var message := FormatMessage(event, data);
      var ids := clientOrder;
      SendLoop(ids, message, AcceptAll, true, now, failing);
    }

    /**
     * `on`: appends the handler to the event's array, creating the array first when the
     * event has none; the remover returned refers to that array.
     */
    method On(event: string, handler: Handler) returns (remover: Unsubscriber)
      requires Valid()
      modifies this
      ensures Valid()
      ensures event in eventHandlers && remover == Unsubscriber(eventHandlers[event], handler)
      ensures event in old(eventHandlers) ==>
        && eventHandlers == old(eventHandlers) && nextList == old(nextList)
        && handlerLists == old(handlerLists)[remover.list := old(handlerLists)[remover.list] + [handler]]
      ensures event !in old(eventHandlers) ==>
        && remover.list == old(nextList) && nextList == old(nextList) + 1
        && eventHandlers == old(eventHandlers)[event := remover.list]
        && handlerLists == old(handlerLists)[remover.list := [handler]]
      ensures clients == old(clients) && clientOrder == old(clientOrder) && outbox == old(outbox)
      ensures userClientMap == old(userClientMap) && userOrder == old(userOrder)
      ensures heartbeatRunning == old(heartbeatRunning)
    {
      if event !in eventHandlers {
        var list := nextList;
        eventHandlers := eventHandlers[event := list];
        handlerLists := handlerLists[list := []];
        nextList := nextList + 1;
        assert handlerLists[list] + [handler] == [handler];
        handlerLists := handlerLists[list := handlerLists[list] + [handler]];
        assert handlerLists == old(handlerLists)[list := [handler]];
        remover := Unsubscriber(list, handler);
      } else {
        var list := eventHandlers[event];
        handlerLists := handlerLists[list := handlerLists[list] + [handler]];
        remover := Unsubscriber(list, handler);
      }
    }

    /** Calling a remover: splices the first occurrence of its handler out of its array, if any. */
    method Unsubscribe(remover: Unsubscriber)
      requires Valid()
      modifies this
      ensures Valid()
      ensures remover.list in old(handlerLists) ==>
        handlerLists == old(handlerLists)[remover.list := RemoveFirst(old(handlerLists)[remover.list], remover.handler)]
      ensures remover.list !in old(handlerLists) ==> handlerLists == old(handlerLists)
      ensures eventHandlers == old(eventHandlers) && nextList == old(nextList)
      ensures clients == old(clients) && clientOrder == old(clientOrder) && outbox == old(outbox)
      ensures userClientMap == old(userClientMap) && userOrder == old(userOrder)
      ensures heartbeatRunning == old(heartbeatRunning)
    {
      if remover.list in handlerLists {
        handlerLists := handlerLists[remover.list := RemoveFirst(handlerLists[remover.list], remover.handler)];
      }
    }

    /**
     * `cleanupInactiveClients`: the mapped client ids, in mapping order, whose client is
     * missing or idle for more than the timeout. The source only logs them.
     */
    method InactiveClients(now: int) returns (ids: seq<string>)
      requires Valid()
      ensures |ids| <= |userOrder|
      ensures forall c :: c in ids <==>
        exists u :: u in userClientMap && userClientMap[u] == c && Stale(clients, c, now)
    {
      ids := [];
      var i := 0;
      while i < |userOrder|
        invariant 0 <= i <= |userOrder|
        invariant |ids| <= i
        invariant forall c :: c in ids <==>
          exists k :: 0 <= k < i && userClientMap[userOrder[k]] == c && Stale(clients, c, now)
      {
        var c := userClientMap[userOrder[i]];
        if c !in clients || now - clients[c].lastActivity > CLIENT_TIMEOUT {
          ids := ids + [c];
        }
        i := i + 1;
      }
      forall c ensures c in ids <==> exists u :: u in userClientMap && userClientMap[u] == c && Stale(clients, c, now) {
        if c in ids {
          var k :| 0 <= k < |userOrder| && userClientMap[userOrder[k]] == c && Stale(clients, c, now);
          assert userOrder[k] in userClientMap;
        }
        if exists u :: u in userClientMap && userClientMap[u] == c && Stale(clients, c, now) {
          var u :| u in userClientMap && userClientMap[u] == c && Stale(clients, c, now);
          assert u in userOrder;
          var k :| 0 <= k < |userOrder| && userOrder[k] == u;
        }
      }
    }

    /** The first user, in mapping order, mapped to `clientId`. */
    method FindUser(clientId: string) returns (found: Option<string>)
      requires Valid()
      ensures found.Some? ==>
        && found.value in userClientMap && userClientMap[found.value] == clientId
        && exists i :: 0 <= i < |userOrder| && userOrder[i] == found.value
             && forall j :: 0 <= j < i ==> userClientMap[userOrder[j]] != clientId
      ensures found.None? ==> forall u :: u in userClientMap ==> userClientMap[u] != clientId
    {
      var i := 0;
      while i < |userOrder|
        invariant 0 <= i <= |userOrder|
        invariant forall j :: 0 <= j < i ==> userClientMap[userOrder[j]] != clientId
      {
        if userClientMap[userOrder[i]] == clientId {
          return Some(userOrder[i]);
        }
        i := i + 1;
      }
      found := None;
      forall u | u in userClientMap ensures userClientMap[u] != clientId {
        assert u in userOrder;
      }
    }

    /**
     * `removeClient`: finds the first user mapped to the client; when there is one (and its
     * id is non-empty) deletes its presence field, then its mapping. Then deletes the client.
     * A throwing presence delete skips every local change.
     */
    method RemoveClient(clientId: string, store: Presence.Store, presenceFails: bool)
      requires Valid()
      modifies this, store
      ensures Valid()
      ensures
        var u := FirstUserOf(old(userOrder), old(userClientMap), clientId);
        if u.Some? && u.value != "" && presenceFails then
          && clients == old(clients) && userClientMap == old(userClientMap)
          && store.activeUsers == old(store.activeUsers)
        else
          && clients == old(clients) - {clientId}
          && clientOrder == Without(old(clientOrder), clientId)
          && (if u.Some? && u.value != "" then
                && userClientMap == old(userClientMap) - {u.value}
                && userOrder == Without(old(userOrder), u.value)
                && store.activeUsers == old(store.activeUsers) - {u.value}
              else
                && userClientMap == old(userClientMap) && userOrder == old(userOrder)
                && store.activeUsers == old(store.activeUsers))
      ensures outbox == old(outbox) && eventHandlers == old(eventHandlers) && handlerLists == old(handlerLists)
      ensures nextList == old(nextList) && heartbeatRunning == old(heartbeatRunning)
    {
      var u := FindUser(clientId);
      FirstUserOfFound(userOrder, userClientMap, clientId, u);
      if u.Some? && u.value != "" {
        if presenceFails {
          return;
        }
        store.HDel(u.value);
        userClientMap := userClientMap - {u.value};
        userOrder := Without(userOrder, u.value);
      }
      clients := clients - {clientId};
      clientOrder := Without(clientOrder, clientId);
    }

    /**
     * `cleanup` (the local part): deletes every mapped user's presence field in mapping
     * order, then clears the maps, stops the heartbeat and drops the handler table. The
     * delete at position `failAt` throws (none does when `failAt` is past the end), after
     * which nothing more happens.
     */
    method Cleanup(store: Presence.Store, failAt: nat)
      requires Valid()
      modifies this, store
      ensures Valid()
      ensures var done := if failAt < |old(userOrder)| then failAt else |old(userOrder)|;
        store.activeUsers == old(store.activeUsers) - (set k | 0 <= k < done :: old(userOrder)[k])
      ensures failAt < |old(userOrder)| ==>
        && clients == old(clients) && clientOrder == old(clientOrder)
        && userClientMap == old(userClientMap) && userOrder == old(userOrder)
        && eventHandlers == old(eventHandlers) && heartbeatRunning == old(heartbeatRunning)
      ensures failAt >= |old(userOrder)| ==>
        && clients == map[] && userClientMap == map[] && eventHandlers == map[] && !heartbeatRunning
      ensures outbox == old(outbox) && handlerLists == old(handlerLists) && nextList == old(nextList)
    {
      var i := 0;
      while i < |userOrder|
        invariant 0 <= i <= |userOrder|
        invariant i <= failAt
        invariant store.activeUsers == old(store.activeUsers) - (set k | 0 <= k < i :: userOrder[k])
        invariant clients == old(clients) && clientOrder == old(clientOrder)
        invariant userClientMap == old(userClientMap) && userOrder == old(userOrder)
        invariant eventHandlers == old(eventHandlers) && heartbeatRunning == old(heartbeatRunning)
        invariant outbox == old(outbox) && handlerLists == old(handlerLists) && nextList == old(nextList)
      {
        if i == failAt {
          return;
        }
        store.HDel(userOrder[i]);
        assert (set k | 0 <= k < i + 1 :: userOrder[k]) == (set k | 0 <= k < i :: userOrder[k]) + {userOrder[i]};
        i := i + 1;
      }
      clients, clientOrder := map[], [];
      userClientMap, userOrder := map[], [];
      heartbeatRunning := false;
      eventHandlers := map[];
    }
  }

  /** The user `removeClient` picks: the first in mapping order whose client id matches. */
  function FirstUserOf(users: seq<string>, userClients: map<string, string>, clientId: string): Option<string>
    requires forall u :: u in users ==> u in userClients
    decreases |users|
  {
    if users == [] then None
    else if userClients[users[0]] == clientId then Some(users[0])
    else FirstUserOf(users[1..], userClients, clientId)
  }

  lemma {:induction false} FirstUserOfFound(users: seq<string>, userClients: map<string, string>, clientId: string,
                                            found: Option<string>)
    requires Distinct(users) && forall u :: u in users ==> u in userClients
    requires found.Some? ==>
      exists i :: 0 <= i < |users| && users[i] == found.value
        && forall j :: 0 <= j < i ==> userClients[users[j]] != clientId
    requires found.Some? ==> found.value in userClients && userClients[found.value] == clientId
    requires found.None? ==> forall u :: u in users ==> userClients[u] != clientId
    ensures FirstUserOf(users, userClients, clientId) == found
    decreases |users|
  {
    if users != [] {
      if found.Some? {
        var i :| 0 <= i < |users| && users[i] == found.value
          && forall j :: 0 <= j < i ==> userClients[users[j]] != clientId;
        if i > 0 {
          assert users[0] != found.value;
          assert Distinct(users[1..]);
          assert users[1..][i - 1] == found.value;
          FirstUserOfFound(users[1..], userClients, clientId, found);
        }
      } else {
        FirstUserOfFound(users[1..], userClients, clientId, found);
      }
    }
  }
}
