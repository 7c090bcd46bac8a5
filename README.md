# SSE presence and relay core, modelled in Dafny

This project models the server-sent-events core of a Next.js chat application:

- **The per-process connection registry (`SSEManager`).** It maps user ids to client ids and client ids to live clients, sends frames to one client, to every mapped user or to every client, and keeps per-event handler arrays.
- **The pub/sub wrapper (`RedisService`).** It covers the channel handler table, the channel-name functions, the cached connection flag, `publish` and the cursor-driven `scanKeys` loop.
- **The two streaming endpoints.**
  - `GET /api/sse/connect` is the live one. It writes presence, subscribes to the user and global channels, and writes frames. Its teardown is guarded by an `isActive` flag.
  - `GET /api/sse` is the older one.
- **The `POST /api/sse` send endpoint.**
- **The relay endpoint `POST /api/sse/message`.**
- **The presence snapshot `GET /api/sse/clients`.**
- **The browser hook `useSSE`.** It covers connect guard, reconnect counter with linear back-off, disconnect, and handler table.
- **The rate limiter.** It counts in the key/value store and falls back to an in-memory fixed window.

Frames follow the `text/event-stream` format of the WHATWG HTML Living Standard, section 9.2 (Server-sent events). `EventStream` holds the frame formatter and the standard's line-based interpretation of a stream. That lets the model state what a browser dispatches for what a server wrote.

How the program's state is represented:

- **Mutable state becomes classes.** This covers the registry, the handler table, a stream session, the hook's refs and the limiter's store. Each class has `modifies` frames, and its methods state the complete new state.
- **Pure handlers become functions.** This covers the snapshot, body validation, message construction and channel routing.
- **JavaScript `Map`s keep their insertion order.** Each is modelled as a `map` plus a `seq` of its keys, because `forEach` order decides the order of deliveries.
- **Outside effects become parameters or recorded values:**
  - a client `send` closure appends to `outbox`;
  - a write that throws is a boolean or a set of failing client ids;
  - clocks (`Date.now`, ISO timestamps) and every answer of the key/value store or the database are parameters.

The model follows the code where the code's behaviour differs from what its comments or an idealised design suggest:

- **The live endpoint's close frame is dropped.** It is sent after the guard flag is lowered, so `send` drops it.
- **The legacy endpoint never closes.** Its teardown calls `close` after lowering the guard, so `close` does nothing.
- **A reconnect does nothing.** The error handler keeps the failed event source, so the scheduled `connect` returns at once.
- **Each `subscribe` attaches another message listener.** A session that subscribes to two channels writes every relayed message twice.
- **A carriage return cuts a string payload.** `formatMessage` writes strings raw on the `data:` line, and a reader ends that line at a carriage return as at a line feed.
- **`POST /api/sse` always answers 200.** It tests the Promise `sendToClient` returns, which is always truthy.
- **A failed presence delete stops the live endpoint's teardown.** A throwing `hDel` ends `cleanup` before the close attempt. The steps are not independently fault tolerant.

## Model

| member | source | states |
|---|---|---|
| Auth.Authorized | src/app/api/sse/connect/route.ts:170-177 | a request is authorised exactly when there is a session user with a non-empty id, and then it acts for that id |
| Collections.IndexOf | src/lib/sse/SSEManager.ts:299 | the index found holds the element and no earlier position does (`indexOf`) |
| Collections.RemoveFirstCount | src/lib/sse/SSEManager.ts:299-302 | splicing out the first occurrence removes exactly one copy of a present element, and changes nothing when it is absent |
| Collections.Without | src/lib/sse/SSEManager.ts:371-374 | deleting a key from an insertion-ordered key list keeps every other key, keeps the list duplicate-free, and never lengthens it |
| Collections.KeyOrderCardinality | src/lib/sse/SSEManager.ts:327-329 | a duplicate-free key list that enumerates a map's keys has as many entries as the map |
| Json.NatText | src/app/api/sse/message/route.ts:68 | a number's decimal text is a non-empty string of digits that denotes exactly that number, with no leading zero |
| Json.StringifyIsOneLine | src/lib/sse/SSEManager.ts:307 | the JSON text of any value contains no line feed and no carriage return, because control characters are escaped, so it fits one `data:` line |
| Json.Prop | src/app/api/sse/message/route.ts:62 | a property read yields a value only from an object that has that key, and yields nothing for a non-object or a missing key |
| Json.Member | src/app/api/sse/clients/route.ts:31 | when a parsed object has a key more than once, the last occurrence wins, and a missing key yields nothing |
| Json.Present | src/app/api/sse/message/route.ts:67-75 | an object literal's text keeps exactly its defined properties; `undefined` ones are left out |
| EventStream.FormatMessage | src/lib/sse/SSEManager.ts:306-309 | when the event name and a string payload hold no line break, a reader splits the frame into exactly an `event:` line with the name, a `data:` line with the payload's text (JSON text for any other value) and a blank line |
| EventStream.FrameYieldsEvent | src/lib/sse/SSEManager.ts:308 | an `event:` line, a `data:` line and a blank line dispatch exactly that event and reset the buffers |
| EventStream.ParseWireAll | src/lib/sse/SSEManager.ts:306-309 | frames written back to back are read back as exactly those events, in order, when every name is non-empty and no name or data holds a line feed or carriage return |
| EventStream.ParseFormatted | src/lib/sse/SSEManager.ts:306-309 | a browser reading one `formatMessage` frame with a non-empty one-line name dispatches one event, with that name and with the JSON text written or the string written when it holds no line break |
| EventStream.CarriageReturnCutsData | src/lib/sse/SSEManager.ts:306-309 | a string payload `a` + CR + `b` reaches the browser as `a` alone: the data line ends at the carriage return, and the rest is read as a line with an unknown field and ignored |
| Presence.Store.HSet | src/features/redis/services/redis-service.ts:219-225 | setting a presence field replaces only that field |
| Presence.Store.HDel | src/features/redis/services/redis-service.ts:228-230 | deleting a presence field removes only that field |
| RedisService.UserChannelNameInjective | src/features/redis/services/redis-service.ts:149-160 | different users get different channel names |
| RedisService.UserChannelIsNotGlobal | src/features/redis/services/redis-service.ts:149-177 | no user channel name is the global channel name |
| RedisService.GetGlobalChannel | src/features/redis/services/redis-service.ts:175-177 | the global channel is a fixed non-empty name distinct from every user channel |
| RedisService.GetUserChannel | src/features/redis/services/redis-service.ts:149-160 | the user's channel name when the database update succeeds, and otherwise the error itself, returned rather than thrown |
| RedisService.GetSingleUserChannel | src/features/redis/services/redis-service.ts:162-172 | the stored channel when it is non-empty, otherwise the user's default name; a failed lookup returns its error |
| RedisService.HExists | src/features/redis/services/redis-service.ts:238-241 | on the presence hash, a field is reported present exactly when the hash holds it |
| RedisService.Service.Subscribe | src/features/redis/services/redis-service.ts:115-132 | the channel's handler is replaced, one more message listener is attached, and nothing else changes |
| RedisService.Service.Unsubscribe | src/features/redis/services/redis-service.ts:135-146 | only the channel's handler is removed; the listeners stay attached |
| RedisService.Service.Dispatch | src/features/redis/services/redis-service.ts:126-131 | a message on a channel with a handler runs it once per listener attached so far; other messages are dropped |
| RedisService.Service.EnsureConnected | src/features/redis/services/redis-service.ts:38-50 | it pings exactly when the flag is down; it succeeds when the flag was up or the ping succeeds; a failed ping lowers the flag and fails with the source's message |
| RedisService.Service.Publish | src/features/redis/services/redis-service.ts:248-257 | a message is published exactly when the connection check and PUBLISH both succeed, and any failure is passed on; afterwards the connection flag is up exactly when it was already up or the ping succeeded, and a failed ping fails with `Failed to connect to Redis` |
| RedisService.Service.ScanKeys | src/features/redis/services/redis-service.ts:270-284 | the first SCAN starts at cursor "0", each later one uses the previous reply's cursor, and the loop stops at the first reply whose cursor is "0"; the keys are every batch's keys in order |
| RedisService.Service.ScanKeysDefault | src/features/redis/services/redis-service.ts:270-284 | without a batch size every SCAN sends the pattern and a COUNT of 100, and the keys are every batch's keys up to the reply with cursor "0" |
| SseManager.SendRoundFrame | src/lib/sse/SSEManager.ts:230-246 | a send loop adds or removes no client, changes the activity time only of clients it reached, and delivers only its frame, only to existing clients whose `send` did not throw |
| SseManager.SendRoundAccepting | src/lib/sse/SSEManager.ts:230-288 | without a filter, every existing non-failing client in the loop's order receives the frame, and a touching loop sets each such client's activity time to now |
| SseManager.MappedIds | src/lib/sse/SSEManager.ts:235 | the client ids visited are the mapped ids, in user order |
| SseManager.ActiveClientsOf | src/lib/sse/SSEManager.ts:102-115 | one entry per mapped user, in mapping order, whose activity time falls back to now when the client is missing or its time is 0 |
| SseManager.Manager.constructor | src/lib/sse/SSEManager.ts:22-43 | the registry starts empty, with the heartbeat running |
| SseManager.Manager.ClientCount | src/lib/sse/SSEManager.ts:327-329 | the count equals the number of clients in `getClients` order |
| SseManager.Manager.GetUserClientId | src/lib/sse/SSEManager.ts:83-85 | the mapped client id exactly when the user is mapped |
| SseManager.Manager.IsUserActive | src/lib/sse/SSEManager.ts:52-61 | a user reported active is mapped to a non-empty client id whose client exists and is not inactive by the measure `cleanupInactiveClients` uses |
| SseManager.Manager.ActiveClientAgrees | src/lib/sse/SSEManager.ts:117-151 | `isUserActive` holds exactly when `getActiveClient` returns a client whose `isActive` is true |
| SseManager.Manager.GetActiveClient | src/lib/sse/SSEManager.ts:117-151 | a result exactly when the user is mapped to a non-empty id of a live client; it carries that client's time, and `isActive` holds iff the client was active within five minutes |
| SseManager.Manager.SetUserClient | src/lib/sse/SSEManager.ts:71-81 | only the user's mapping changes; the earlier client is neither closed nor removed |
| SseManager.Manager.AddClient | src/lib/sse/SSEManager.ts:87-94 | the client is inserted or overwritten with activity time now; the user map is untouched |
| SseManager.Manager.SendToClient | src/lib/sse/SSEManager.ts:183-228 | it succeeds iff the id is non-empty and its resolution (mapped id first, else the id itself) names a live client whose `send` does not throw; on success exactly one frame is delivered and that client's activity time becomes now, and otherwise nothing changes |
| SseManager.Manager.SendLoop | src/lib/sse/SSEManager.ts:235-246 | the loop's new clients and outbox are exactly the send-round specification over the given ids |
| SseManager.Manager.SendToAll | src/lib/sse/SSEManager.ts:230-265 | the frame goes to every mapped live client the filter accepts, touching each; a heartbeat is followed by a `clients_update` frame to every mapped live client, filter ignored and nobody touched; each round has its own set of clients whose `send` throws |
| SseManager.Manager.HeartbeatTick | src/lib/sse/SSEManager.ts:40-43 | while the interval runs, each tick is a heartbeat `sendToAll`; once stopped, nothing happens |
| SseManager.Manager.Broadcast | src/lib/sse/SSEManager.ts:271-288 | the frame goes to every live client in `getClients` order, touching each one reached |
| SseManager.Manager.On | src/lib/sse/SSEManager.ts:290-304 | the handler is appended to its event's array, which is created if missing, and the remover refers to that array |
| SseManager.Manager.Unsubscribe | src/lib/sse/SSEManager.ts:298-303 | a remover splices the first occurrence of its handler out of its array; it is harmless when repeated |
| SseManager.Manager.InactiveClients | src/lib/sse/SSEManager.ts:311-325 | exactly the mapped client ids whose client is missing or idle for more than five minutes |
| SseManager.Manager.FindUser | src/lib/sse/SSEManager.ts:359-365 | the first user in mapping order that is mapped to the client, or none when no user is |
| SseManager.Manager.RemoveClient | src/lib/sse/SSEManager.ts:356-379 | the first user mapped to the client loses its presence field and mapping, then the client is deleted; a throwing presence delete leaves the local maps unchanged |
| SseManager.Manager.Cleanup | src/lib/sse/SSEManager.ts:331-354 | presence fields are deleted in mapping order up to the first delete that throws; only when none throws are the maps and the handler table cleared and the heartbeat stopped |
| SseManager.FirstUserOfFound | src/lib/sse/SSEManager.ts:359-365 | the loop's answer is the first user in order mapped to the client |
| ConnectRoute.CleanupActions | src/app/api/sse/connect/route.ts:245-268 | the teardown stops the heartbeat, unsubscribes the user channel then the global one, deletes the presence field, then attempts the close frame and closes the controller; a throwing delete ends it after the delete |
| ConnectRoute.DuplicateDelivery | src/app/api/sse/connect/route.ts:211-229 | a browser reading the doubled write of one relayed message dispatches it twice |
| ConnectRoute.ConnectSession.constructor | src/app/api/sse/connect/route.ts:196-271 | both channels subscribed with one handler, then the `connected` frame; the heartbeat and abort listener start only if that write succeeds |
| ConnectRoute.ConnectSession.Cleanup | src/app/api/sse/connect/route.ts:245-268 | it runs once: on the first call it does the teardown actions in order and lowers the guard, later calls change nothing, and no frame is written |
| ConnectRoute.ConnectSession.Send | src/app/api/sse/connect/route.ts:200-208 | nothing once inactive; a successful write appends the frame; a failed write runs the teardown |
| ConnectRoute.ConnectSession.Tick | src/app/api/sse/connect/route.ts:239-243 | while the heartbeat runs, each tick writes a heartbeat frame or, on a failed write, tears down |
| ConnectRoute.ConnectSession.HandleMessage | src/app/api/sse/connect/route.ts:211-218 | only a string message is written, unchanged, as a `message` frame |
| ConnectRoute.ConnectSession.Deliver | src/app/api/sse/connect/route.ts:221-229 | a message on a subscribed channel is written once per listener, which is twice |
| ConnectRoute.ConnectSession.Abort | src/app/api/sse/connect/route.ts:270 | the request's abort runs the teardown if the session is still active |
| ConnectRoute.Get | src/app/api/sse/connect/route.ts:169-243 | 401 with no presence write for a missing user or id; otherwise the presence record is written and the session starts |
| ConnectRoute.GlobalMessageTwice | src/app/api/sse/connect/route.ts:221-236 | after a normal start, one global message yields the `connected` frame followed by two copies of the message frame |
| SseRoute.LegacySession.constructor | src/app/api/sse/route.ts:28-117 | the heartbeat starts, then the `connected` frame with `heartbeatInterval` is written, then the abort listener is attached |
| SseRoute.LegacySession.Cleanup | src/app/api/sse/route.ts:58-112 | it runs once: it stops the heartbeat and removes the abort listener, and `close` then writes no close frame and closes nothing |
| SseRoute.LegacySession.Send | src/app/api/sse/route.ts:33-41 | nothing once inactive; a write appends the frame; a failed write runs the teardown |
| SseRoute.LegacySession.Tick | src/app/api/sse/route.ts:44-55 | while the heartbeat runs, each tick writes a `{type, timestamp}` heartbeat frame or tears down |
| SseRoute.LegacySession.Abort | src/app/api/sse/route.ts:90-117 | the abort signal runs the teardown while the listener is attached |
| SseRoute.Get | src/app/api/sse/route.ts:11-24 | 401 for a missing user or id; otherwise only the user's mapping to `client-<id>` is registered, and no client |
| SseRoute.Validate | src/app/api/sse/route.ts:149-183 | 500 exactly when the body does not parse or is null; 400 when `clientId` or `event` is falsy; otherwise the fields to send |
| SseRoute.Post | src/app/api/sse/route.ts:149-184 | a valid body always answers 200 `{success: true}`; a string client id is handed to `sendToClient`, with its effect as that method states |
| SseRoute.GetThenSend | src/app/api/sse/route.ts:24-76 | after a GET on a fresh registry, sending to that user fails: the GET only maps the user, so no client is stored under the user's client id |
| MessageRoute.ReadBody | src/app/api/sse/message/route.ts:61-75 | the handler throws outside its `try` exactly when the body is missing or null, or when `data` is missing or null |
| MessageRoute.MessageFields | src/app/api/sse/message/route.ts:67-75 | the message starts with the time-based id, holds the timestamp, copies each of `text`, `senderName`, `senderId`, `isDirectMessage` and `recipientId` exactly when `data` defines it, and has no other keys |
| MessageRoute.Target | src/app/api/sse/message/route.ts:93-99 | the global channel for the exact string "broadcast", otherwise the user table's channel for the id |
| MessageRoute.TargetIsGlobalOnlyForBroadcast | src/app/api/sse/message/route.ts:93-99 | with no stored channel of its own, a message reaches the global channel iff it is for "broadcast", and otherwise the named user's channel |
| MessageRoute.Post | src/app/api/sse/message/route.ts:55-106 | 401 and nothing published without a user; a bad body is not handled; otherwise exactly one publish to the target, answering 200 on success and 500 `Failed to send message` on failure |
| MessageRoute.RelayedMessageReadBack | src/app/api/sse/message/route.ts:67-75 | a stream session that writes a relayed message as a `message` frame hands the browser exactly that text |
| ClientsRoute.Lookup | src/app/api/sse/clients/route.ts:49 | the current user's field is found exactly when the hash has it |
| ClientsRoute.Get | src/app/api/sse/clients/route.ts:7-67 | 401 without a user; 500 on a failed read or an unparsable record; `{clients: [], userStatus: null}` for a null reply; otherwise one entry per field, in order, with `userStatus` non-null iff the caller has a field, and then that field's parsed record with `isActive: true` added |
| ClientsRoute.UserStatusReadsBack | src/app/api/sse/clients/route.ts:49-53 | the caller's status reads back `isActive` as true and each of the record's `clientId`, `userId`, `userName` and `lastActive`, absent when the record left it undefined |
| ClientsRoute.ConnectedUserListed | src/app/api/sse/clients/route.ts:28-40 | a user whose presence the live endpoint wrote is listed with id `client-<id>`, its user id, `isActive: true`, and its connection time when that is not 0 |
| ClientsRoute.EntryOfConnected | src/app/api/sse/clients/route.ts:33-39 | the entry built from such a record reads back those properties |
| ClientsRoute.UniqueKeys | src/app/api/sse/clients/route.ts:33-39 | in an object literal with distinct keys, a defined property reads back its value |
| ClientsRoute.AbsentKey | src/app/api/sse/clients/route.ts:34-38 | a property whose value is `undefined` is absent from the entry |
| UseSse.ErrorStep | src/hooks/useSSE.ts:172-179 | below five attempts an error counts one more attempt and schedules a retry after 1000 ms times the new count; at five it schedules nothing |
| UseSse.DelaysFromFresh | src/hooks/useSSE.ts:33-179 | consecutive errors from a fresh counter schedule 1000, 2000, … ms, at most five of them |
| UseSse.DelaysBounded | src/hooks/useSSE.ts:33-179 | reconnect delays never exceed 5000 ms, never decrease, and are at most five |
| UseSse.SseClient.constructor | src/hooks/useSSE.ts:37-223 | mounting sets the client id to `client-<userId>` and opens the first event source |
| UseSse.SseClient.Connect | src/hooks/useSSE.ts:95-110 | a new source is opened exactly when the client id is truthy and no source is held |
| UseSse.SseClient.Connected | src/hooks/useSSE.ts:113-128 | a parsed payload sets the client id from it and raises the flag, without resetting the attempt counter; a malformed payload changes nothing |
| UseSse.SseClient.Heartbeat | src/hooks/useSSE.ts:130-141 | a parsed heartbeat raises the flag |
| UseSse.SseClient.Relay | src/hooks/useSSE.ts:143-165 | a parsed `clients_update` or `message` payload is passed to `onEvent` and changes nothing else |
| UseSse.SseClient.Error | src/hooks/useSSE.ts:167-180 | the flag drops and the counter and timers follow the error step; the failed source is kept |
| UseSse.SseClient.FireTimer | src/hooks/useSSE.ts:95-176 | a retry calls `connect`, which opens nothing while the old source is held |
| UseSse.SseClient.Disconnect | src/hooks/useSSE.ts:269-283 | with a source held it closes and drops it, lowers the flag and calls `onDisconnect`; in every case it cancels only the last scheduled retry |
| UseSse.SseClient.SendMessage | src/hooks/useSSE.ts:237-266 | true exactly when the client id is truthy and the response is ok |
| UseSse.SseClient.AddEventHandler | src/hooks/useSSE.ts:286-290 | the handler is appended to its event's list, which is created if missing |
| UseSse.SseClient.Remove | src/hooks/useSSE.ts:292-299 | the remover splices the first occurrence of the handler out of its event's list, if there is one |
| UseSse.ErrorThenRetry | src/hooks/useSSE.ts:102-180 | an error followed by its retry leaves the client on its first and only source |
| RateLimit.RedisResult | src/lib/rate-limit/index.ts:33-41 | success iff the count is within the limit; requests left are the limit minus the count, never below 0; the reset comes from a positive TTL, else from a whole window |
| RateLimit.FallbackStep | src/lib/rate-limit/index.ts:44-56 | a missing or ended window restarts at count 1; an open window below the limit counts the request and keeps its end; a full window refuses it with 0 left |
| RateLimit.WithinWindow | src/lib/rate-limit/index.ts:51-56 | inside one open window, the i-th further request succeeds iff `count + i + 1` is within the limit, and reports the requests left as the store path would |
| RateLimit.FallbackMatchesStore | src/lib/rate-limit/index.ts:34-56 | for a limit of at least 1, requests within one fresh window get the same success and requests-left answers as the store path with counts 1, 2, …; no more than `limit` of them succeed |
| RateLimit.RateLimitState.GetRateLimiter | src/lib/rate-limit/index.ts:10-20 | the first call's options are kept, and every later call ignores its own |
| RateLimit.RateLimitState.Limit | src/lib/rate-limit/index.ts:21-57 | the store path's answer when all its commands succeed, with EXPIRE sent exactly when the count is 1; otherwise the in-memory step for the key at the current second |

## Left out

- **Network clients.** The key/value store, the database and the network are outside the model: their answers are parameters. This covers `createSubscriber`'s connection and readiness handling, the `getRedis` wrapper, the `PrismaClient` setup and the `db.user` calls. A failing `getRedis` is not modelled.
- **SseManager.Manager.SendToClient.** It does not model the branch that rebuilds placeholder clients from the presence hash when the registry is empty (src/lib/sse/SSEManager.ts:190-205). That branch depends on the network. It reads `clientId` off the stored string, so it registers its placeholders under an undefined id, which the model's string keys cannot represent. It never stores a client under a real client id, so it cannot make the send succeed.
- ParseWireAll and ParseFormatted promise the round trip only for names and string payloads without a line feed or carriage return. `formatMessage` writes a string payload raw, and a reader ends the line at either character, so such a payload is cut short (`EventStream.CarriageReturnCutsData`).
- **RedisService.Service.ScanKeys.** It requires some reply to carry cursor "0". With no such reply the program would issue SCAN calls forever, which the model does not represent.
- **Timers, clocks, signals and lifecycle.** `setInterval`, `setTimeout`, `Date.now`, ISO timestamps, the `SIGTERM`/`SIGINT` hooks and the React lifecycle are not modelled. Ticks, timer firings, aborts and unmounts are explicit method calls or parameters. The hook's unmount effects are not modelled.
- **Concurrency.** Async steps are not interleaved: each handler, including the live endpoint's asynchronous `cleanup`, runs to completion before the next event.
- **ConnectRoute.Get.** It does not model a throwing presence write (`hSet`) before the stream starts.
- **Failed subscriptions.** The rejection of `Promise.all` over the two subscriptions in the live endpoint is not modelled.
- **JSON numbers.** Only integers are modelled, with no floating point.
- **`JSON.stringify`.** Non-string, non-number values outside the `Json` datatype are not modelled.
- **Property lookups.** Only own keys are looked up. Inherited properties such as `__proto__` are not.
- **ClientsRoute.Get.** It assumes every presence value that parses is an object with the writer's fields. Other JSON values (a number, a string, an array) are not modelled.
- **UseSse.SseClient.constructor.** `encodeURIComponent` on the event source's URL is not modelled. A source is an opaque number.
- **RateLimit.RateLimitState.Limit.** The store's counter and TTL are its answers. The store's own expiry of the counter is not modelled.
- **Excluded files.** The UI, authentication glue and upload service are not part of this model. Type-only files are used only for their shapes.

