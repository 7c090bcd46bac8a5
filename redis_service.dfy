/**
 * The channel handler table of the pub/sub wrapper: a map from channel to handler on one
 * subscriber connection, the deterministic channel names, the cached "connected" flag in
 * front of `publish`, and the cursor-driven key scan. Apart from the presence hash, the store
 * is not modelled: its answers (ping, publish, scan replies, the user table's channel
 * column) are inputs.
 */
module RedisService {
  import opened Wrappers
  import opened Collections
  import Presence

  const GLOBAL_CHANNEL := "global:messages"

  /**
   * What a channel-name helper hands back. `getUserChannel` and `getSingleUserChannel`
   * return (rather than throw) the database error, and callers use that value as a channel.
   */
  datatype ChannelRef = Channel(name: string) | ErrorObject(message: string)

  /** Identity of a handler closure. */
  type Handler = nat

  /** The per-user channel name. */
  function UserChannelName(userId: string): string
  {
    "user:" + userId + ":messages"
  }

  /** Different users never share a channel. */
  lemma UserChannelNameInjective(a: string, b: string)
    requires UserChannelName(a) == UserChannelName(b)
    ensures a == b
  {
    var s, t := UserChannelName(a), UserChannelName(b);
    assert |a| == |b|;
    assert a == s[5..5 + |a|];
    assert b == t[5..5 + |b|];
  }

  /** No user channel is the global channel. */
  lemma UserChannelIsNotGlobal(userId: string)
    ensures UserChannelName(userId) != GLOBAL_CHANNEL
  {
    assert UserChannelName(userId)[0] == 'u';
    assert GLOBAL_CHANNEL[0] == 'g';
  }

  /** `getGlobalChannel`. */
  function GetGlobalChannel(): (c: ChannelRef)
    ensures c.Channel? && c.name != "" && forall u :: c.name != UserChannelName(u)
  {
    var c := Channel(GLOBAL_CHANNEL);
    forall u ensures c.name != UserChannelName(u) {
      UserChannelIsNotGlobal(u);
    }
    c
  }

  /**
   * `getUserChannel`: records the user's channel name in the user table and returns it;
   * when that update fails (`dbError`), the error itself is returned.
   */
  function GetUserChannel(userId: string, dbError: Option<string>): (c: ChannelRef)
    ensures c.Channel? <==> dbError.None?
    ensures c.Channel? ==> c.name == UserChannelName(userId) && c != GetGlobalChannel()
    ensures c.ErrorObject? ==> c.message == dbError.value
  {
    UserChannelIsNotGlobal(userId);
    match dbError
    case None => Channel(UserChannelName(userId))
    case Some(e) => ErrorObject(e)
  }

  /**
   * `getSingleUserChannel`: the channel stored for the user if it is a non-empty string,
   * else the default name; a failed lookup (`Err`) is returned as the error value.
   * `stored` is `Ok(None)` when the user does not exist or has no channel.
   */
  function GetSingleUserChannel(userId: string, stored: Result<Option<string>, string>): (c: ChannelRef)
    ensures stored.Err? <==> c.ErrorObject?
    ensures stored.Ok? && stored.value.Some? && stored.value.value != "" ==> c == Channel(stored.value.value)
    ensures stored.Ok? && (stored.value.None? || stored.value.value == "") ==> c == Channel(UserChannelName(userId))
  {
    match stored
    case Err(e) => ErrorObject(e)
    case Ok(Some(ch)) => if ch != "" then Channel(ch) else Channel(UserChannelName(userId))
    case Ok(None) => Channel(UserChannelName(userId))
  }

  /**
   * `hExists` on the presence hash: true exactly when HEXISTS answers 1, which the store
   * does for a field it holds.
   */
  function HExists(store: Presence.Store, field: string): (present: bool)
    reads store
    ensures present <==> field in store.activeUsers
  {
    store.HExistsReply(field) == 1
  }

  /** The COUNT hint `scanKeys` sends when its caller gives none. */
  const DEFAULT_BATCH_SIZE := 100

  /** One SCAN request: the cursor sent, the MATCH pattern and the COUNT hint. */
  datatype ScanCall = ScanCall(cursor: string, pattern: string, count: int)

  /** One SCAN reply: the next cursor and a batch of keys. */
  datatype ScanReply = ScanReply(cursor: string, keys: seq<string>)

  function ReplyCursors(replies: seq<ScanReply>): (cs: seq<string>)
    ensures |cs| == |replies| && forall i :: 0 <= i < |replies| ==> cs[i] == replies[i].cursor
  {
    seq(|replies|, i requires 0 <= i < |replies| => replies[i].cursor)
  }

  /** Every batch's keys, concatenated in reply order. */
  function AllKeys(replies: seq<ScanReply>): seq<string>
  {
    if replies == [] then [] else AllKeys(replies[..|replies| - 1]) + replies[|replies| - 1].keys
  }

  class Service {
    /** Channel to handler; one handler per channel. */
    var messageHandlers: map<ChannelRef, Handler>
    /** `message` listeners attached to the subscriber connection: one per `subscribe` call. */
    var listeners: nat
    var isConnected: bool
    /** Channels the subscriber connection has been asked to subscribe to and not to leave. */
    ghost var subscribed: set<ChannelRef>
    /** Messages the store accepted for publication, in order. */
    var published: seq<(ChannelRef, string)>

    constructor ()
      ensures messageHandlers == map[] && listeners == 0 && !isConnected
      ensures subscribed == {} && published == []
    {
      messageHandlers := map[];
      listeners := 0;
      isConnected := false;
      subscribed := {};
      published := [];
    }

    /**
     * `subscribe`: sets the channel's handler, replacing an earlier one, and attaches one
     * more dispatch listener to the subscriber connection.
     */
    method Subscribe(channel: ChannelRef, handler: Handler)
      modifies this
      ensures messageHandlers == old(messageHandlers)[channel := handler]
      ensures listeners == old(listeners) + 1
      ensures subscribed == old(subscribed) + {channel}
      ensures isConnected == old(isConnected) && published == old(published)
    {
      messageHandlers := messageHandlers[channel := handler];
      subscribed := subscribed + {channel};
      listeners := listeners + 1;
    }

    /** `unsubscribe`: removes only this channel's handler; listeners stay attached. */
    method Unsubscribe(channel: ChannelRef)
      modifies this
      ensures messageHandlers == old(messageHandlers) - {channel}
      ensures subscribed == old(subscribed) - {channel}
      ensures listeners == old(listeners) && isConnected == old(isConnected) && published == old(published)
    {
      messageHandlers := messageHandlers - {channel};
      subscribed := subscribed - {channel};
    }

    /**
     * The handler calls caused by one inbound message on `channel`: every attached listener
     * looks the channel up and calls its handler, so a message for a channel with a handler
     * runs it once per `subscribe` call made on this instance; any other message is dropped.
     */
    function Dispatch(channel: string): (calls: seq<Handler>)
      reads this
      ensures Channel(channel) !in messageHandlers ==> calls == []
      ensures Channel(channel) in messageHandlers ==>
        |calls| == listeners && forall i :: 0 <= i < |calls| ==> calls[i] == messageHandlers[Channel(channel)]
    {
      if Channel(channel) in messageHandlers then
        var h := messageHandlers[Channel(channel)];
        seq(listeners, _ => h)
      else []
    }

    /**
     * `ensureConnected`: once a ping has succeeded the flag answers without pinging; a
     * failed ping clears the flag and throws.
     */
    method EnsureConnected(pingOk: bool) returns (pinged: bool, r: Result<bool, string>)
      modifies this`isConnected
      ensures pinged <==> !old(isConnected)
      ensures r.Ok? <==> (old(isConnected) || pingOk)
      ensures r.Ok? ==> r.value && isConnected
      ensures r.Err? ==> r.error == "Failed to connect to Redis" && !isConnected
    {
      if isConnected {
        return false, Ok(true);
      }
      pinged := true;
      if pingOk {
        isConnected := true;
        r := Ok(true);
      } else {
        isConnected := false;
        r := Err("Failed to connect to Redis");
      }
    }

    /**
     * `publish`: connects if needed, then publishes; any failure is rethrown. `reply` is the
     * store's answer to PUBLISH (the receiver count) or its error.
     */
    method Publish(channel: ChannelRef, message: string, pingOk: bool, reply: Result<nat, string>)
      returns (r: Result<nat, string>)
      modifies this
      ensures isConnected == (old(isConnected) || pingOk)
      ensures !old(isConnected) && !pingOk ==> r == Err("Failed to connect to Redis") && published == old(published)
      ensures (old(isConnected) || pingOk) ==> r == reply
      ensures r.Ok? <==> (old(isConnected) || pingOk) && reply.Ok?
      ensures published == if r.Ok? then old(published) + [(channel, message)] else old(published)
      ensures messageHandlers == old(messageHandlers) && listeners == old(listeners)
      ensures subscribed == old(subscribed)
    {
      var _, connected := EnsureConnected(pingOk);
      if connected.Err? {
        return Err(connected.error);
      }
      r := reply;
      if r.Ok? {
        published := published + [(channel, message)];
      }
    }

    /**
     * `scanKeys`: SCAN from cursor "0", each call with the previous reply's cursor, until a
     * reply carries cursor "0"; the result is every batch's keys in order. `replies` are
     * the store's successive answers; a complete SCAN iteration ends on cursor "0".
     */
    method ScanKeys(pattern: string, batchSize: int, replies: seq<ScanReply>)
      returns (keys: seq<string>, calls: seq<ScanCall>)
      requires "0" in ReplyCursors(replies)
      ensures |calls| == IndexOf(ReplyCursors(replies), "0") + 1
      ensures calls[0] == ScanCall("0", pattern, batchSize)
      ensures forall i :: 0 < i < |calls| ==> calls[i] == ScanCall(replies[i - 1].cursor, pattern, batchSize)
      ensures forall i :: 0 <= i < |calls| - 1 ==> replies[i].cursor != "0"
      ensures replies[|calls| - 1].cursor == "0"
      ensures keys == AllKeys(replies[..|calls|])
    {
      ghost var last := IndexOf(ReplyCursors(replies), "0");
      var cursor := "0";
      keys := [];
      calls := [];
      var n := 0;
      while true
        invariant n <= last
        invariant |calls| == n
        invariant n == 0 ==> cursor == "0"
        invariant n > 0 ==> cursor == replies[n - 1].cursor && cursor != "0"
        invariant forall i :: 0 < i < n ==> calls[i] == ScanCall(replies[i - 1].cursor, pattern, batchSize)
        invariant n > 0 ==> calls[0] == ScanCall("0", pattern, batchSize)
        invariant keys == AllKeys(replies[..n])
        decreases last - n
      {
        calls := calls + [ScanCall(cursor, pattern, batchSize)];
        var reply := replies[n];
        assert replies[..n + 1][..n] == replies[..n];
        cursor := reply.cursor;
        keys := keys + reply.keys;
        n := n + 1;
        if cursor == "0" {
          break;
        }
        assert ReplyCursors(replies)[n - 1] != "0";
      }
      assert ReplyCursors(replies)[n - 1] == "0";
    }

    /** `scanKeys` called without a batch size: every SCAN asks for the default 100 keys. */
    method ScanKeysDefault(pattern: string, replies: seq<ScanReply>) returns (keys: seq<string>, calls: seq<ScanCall>)
      requires "0" in ReplyCursors(replies)
      ensures |calls| == IndexOf(ReplyCursors(replies), "0") + 1
      ensures forall i :: 0 <= i < |calls| ==> calls[i].pattern == pattern && calls[i].count == DEFAULT_BATCH_SIZE
      ensures keys == AllKeys(replies[..|calls|])
    {
      keys, calls := ScanKeys(pattern, DEFAULT_BATCH_SIZE, replies);
    }
  }
}
