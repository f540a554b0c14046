# ThingsBoard React client: telemetry websocket service and alarm query parameters

A Dafny model of two parts of the ThingsBoard React client, with the properties
proved about them.

**The telemetry websocket service** (`TelemetryWebsocketService`) multiplexes the
telemetry subscriptions of many subscribers over one websocket. Its state:

- four flags: active, opening, opened and reconnecting;
- a command-id counter;
- a registry from command id to subscriber, with its key insertion order;
- a reconnect set of subscribers, kept distinct and in insertion order;
- a FIFO outbound queue.

The model is a class with these fields, and each operation and transport event is a
method that updates them in place:

- `subscribe`, `unsubscribe`, `close`;
- the socket opened, a message, an error, the socket closed;
- the reconnect timer fired, the token refresh resolved or rejected.

Any interleaving of events is a sequence of method calls. Subscription commands are
objects whose `cmdId` the service writes in place; queued commands are shared with
their subscribers. The transport appears only through its effects, which ghost logs
record:

- the frames written to the socket (authentication frames and `{cmds: [...]}` batches);
- the requests made of the environment (new socket, token refresh, logout, socket close);
- the calls made into subscriber code (`onData`, `onReconnected`).

The REST client is an object holding the stored token and its expiry. The pure parts
are functions with lemmas: the socket URL, the `type` fallback applied when the queue
is flushed, the ten-command batching, the unsubscribe envelopes and message routing.

**The alarm service** builds query-parameter dictionaries: the first and second alarm
list queries, and the highest-severity request. Each becomes a function from the query
record to a `map` from parameter key to value, written as the same chain of
conditional writes. Each is paired with a key-by-key specification function and a
lemma that the dictionary matches it.

Files:

- `wrappers.dfy`: `Option` and the JavaScript truthiness tests the source applies to
  optional values.
- `seqs.dfy`: sequence helpers (distinctness, removal, first-occurrence
  deduplication).
- `telemetry.dfy`: the command and subscriber classes, values of command objects in a
  heap, and inbound messages.
- `websocket_protocol.dfy`: the pure protocol functions and their lemmas.
- `websocket_service.dfy`: the service class.
- `websocket_findings.dfy`: the reachable run behind the finding below.
- `alarm.dfy`: the alarm query parameters.

## Model

| member | source | states |
|---|---|---|
| TelemetryWebsocket.TelemetryWebsocketService.constructor | src/service/TelemetryWebsocketService.ts:8-28 | A new service is inactive, with no socket, an empty registry, reconnect set and queue, and the counter at 0. Its URL is the one derived from the REST endpoint. |
| WebsocketProtocol.TelemetryUriShape | src/service/TelemetryWebsocketService.ts:24-27 | The URL starts with `wss://` exactly when the endpoint starts with `https`, and with `ws://` otherwise. It ends in `/api/ws`, with the endpoint minus any `http(s)://` prefix in between. |
| WebsocketProtocol.TelemetryUriOfHost | src/service/TelemetryWebsocketService.ts:24-27 | `https://h` gives `wss://h/api/ws` and `http://h` gives `ws://h/api/ws`. |
| WebsocketProtocol.StripHttpScheme | src/service/TelemetryWebsocketService.ts:26 | The prefix removal leaves a suffix of the endpoint. It removes exactly `https://` or `http://` when one is there, and nothing when neither is. |
| WebsocketProtocol.UriLayout | src/service/TelemetryWebsocketService.ts:27 | Where scheme, host and path sit in the assembled URL. |
| TelemetryWebsocket.TelemetryWebsocketService.NextCmdId | src/service/TelemetryWebsocketService.ts:60-63 | The counter goes up by one and returns its new value. |
| TelemetryWebsocket.TelemetryWebsocketService.Subscribe | src/service/TelemetryWebsocketService.ts:30-39 | The service becomes active, and the counter grows by the number of commands. Command k ends with the id `last + j + 1` of the last position j that lists the same command object, as the in-place writes of the loop leave it. With no object listed twice, command k gets `last + k + 1`. Every new id maps to the subscriber without overwriting an earlier one. If the socket was open, the old queue and then the new commands are written out in batches and the queue ends empty. If not, the commands are appended to the queue by reference and nothing is written. Then the open attempt of `tryOpenSocket` follows. |
| TelemetryWebsocket.TelemetryWebsocketService.PublishRegistered | src/service/TelemetryWebsocketService.ts:38 | The `publishCommands` call that ends `subscribe`, on the old queue followed by the new commands. If the socket is open, the queue ends empty and the log grows by exactly the publish frames of the old queue's values and then the new commands' values. If not, the queue and the log are unchanged. Then the open attempt of `tryOpenSocket` follows. |
| TelemetryWebsocket.TelemetryWebsocketService.Register | src/service/TelemetryWebsocketService.ts:32-37 | The `forEach` loop adds exactly the id range `last + 1 .. last + n` to the registry and to its key order, and appends the commands to the queue in order. Each command ends with the id of its last position. |
| TelemetryWebsocket.TelemetryWebsocketService.RegisterAll | src/service/TelemetryWebsocketService.ts:32-37 | The same loop, stated as the step-by-step registry, key order and queue after its n turns. |
| TelemetryWebsocket.TelemetryWebsocketService.RegisterNext | src/service/TelemetryWebsocketService.ts:33-36 | One turn of the loop writes the next id into command i, registers it and queues the command. That id becomes the last-written id of every earlier position listing the same object, and the other positions keep theirs. |
| TelemetryWebsocket.TelemetryWebsocketService.RegisterCommand | src/service/TelemetryWebsocketService.ts:33-36 | The next id is fresh (not in the registry), maps to the subscriber, is written into the command, and the command is queued by reference. |
| TelemetryWebsocket.RegisterKeepsRegistry | src/service/TelemetryWebsocketService.ts:33-34 | Registering `last + 1` keeps every id in `1 .. last` and the key order strictly increasing, with exactly the registry's keys. |
| TelemetryWebsocket.AssignedIds | src/service/TelemetryWebsocketService.ts:35 | Writing id `base + i + 1` into command i gives that id to every earlier position listing the same object, and leaves the other positions' ids alone. |
| TelemetryWebsocket.IdsInOrderOfDistinct | src/service/TelemetryWebsocketService.ts:33-35 | When no command object is listed twice, command k carries `base + k + 1`. |
| TelemetryWebsocket.LastSlotDistinct | src/service/TelemetryWebsocketService.ts:33-35 | A command object listed once has only its own position as its last position. |
| TelemetryWebsocket.EmptyRegistryOrder | src/service/TelemetryWebsocketService.ts:15 | An empty registry has an empty key order. |
| WebsocketProtocol.IdSeqAt | src/service/TelemetryWebsocketService.ts:60-63 | The k-th id handed out after `base` is `base + k + 1`. |
| WebsocketProtocol.IdRangeKeys | src/service/TelemetryWebsocketService.ts:32-34 | One `subscribe` registers exactly the ids `base + 1 .. base + n`, all to its subscriber. |
| WebsocketProtocol.SubscribeKeepsRegistry | src/service/TelemetryWebsocketService.ts:32-34 | Adding that range to a registry whose ids are at most `base` overwrites nothing. |
| WebsocketProtocol.RegisteredIsUnion | src/service/TelemetryWebsocketService.ts:32-34 | Setting the ids one at a time gives the registry plus the whole range. |
| TelemetryWebsocket.TelemetryWebsocketService.Unsubscribe | src/service/TelemetryWebsocketService.ts:41-58 | While inactive, nothing changes. Otherwise, exactly the set ids of the subscriber's commands leave the registry, and the subscriber leaves the reconnect set. One unsubscribe envelope per command with a set id is queued behind the queue and sent through `publishCommands`. |
| TelemetryWebsocket.TelemetryWebsocketService.Retract | src/service/TelemetryWebsocketService.ts:43-56 | `unsubscribe` on an active service: the registry, reconnect set, queue and log as above. |
| TelemetryWebsocket.TelemetryWebsocketService.Retire | src/service/TelemetryWebsocketService.ts:43-54 | The `forEach` loop deletes exactly the set ids and appends their envelopes to the queue as literals, in command order. |
| TelemetryWebsocket.RetiredInFull | src/service/TelemetryWebsocketService.ts:43-54 | Handling the commands one at a time is the same as removing all their set ids and appending all their envelopes at once. |
| TelemetryWebsocket.RetireKeepsRegistry | src/service/TelemetryWebsocketService.ts:52 | Deleting one id keeps the registry invariant. |
| TelemetryWebsocket.RetireAllKeepsRegistry | src/service/TelemetryWebsocketService.ts:43-54 | Deleting the ids of a run of commands keeps the registry invariant. |
| WebsocketProtocol.UnsubscribeEnvelopesShape | src/service/TelemetryWebsocketService.ts:44-51 | Every queued envelope has a set id, `unsubscribe: true`, and no type, keys or scope. Every command with a set id gets its envelope. |
| WebsocketProtocol.UnsubscribeEnvelopesOneEach | src/service/TelemetryWebsocketService.ts:43-51 | When every command has an id, envelope k belongs to command k. |
| WebsocketProtocol.UnsubscribeEnvelopesNone | src/service/TelemetryWebsocketService.ts:44 | Commands without ids queue nothing. |
| WebsocketProtocol.UnsubscribeSentAsTimeseries | src/service/TelemetryWebsocketService.ts:76-84 | Every unsubscribe envelope is sent typed `TIMESERIES` with `unsubscribe: true`. |
| WebsocketProtocol.RetiredIds | src/service/TelemetryWebsocketService.ts:44-52 | The deleted ids are exactly the set ids of the commands, and never the authentication id 0. |
| WebsocketProtocol.RetiredIdsSnoc | src/service/TelemetryWebsocketService.ts:44-52 | One more command adds its id exactly when that id is set. |
| TelemetryWebsocket.TelemetryWebsocketService.PublishCommands | src/service/TelemetryWebsocketService.ts:65-97 | If not opened, the queue and the socket log are unchanged. If opened, the queue is drained completely and the log grows by the publish frames of the queue's current values. Then comes the open attempt of `tryOpenSocket`. |
| TelemetryWebsocket.TelemetryWebsocketService.Drain | src/service/TelemetryWebsocketService.ts:66-95 | The `while` loop writes the publish frames of the queue and empties it when open. When not open it does nothing. The log stays well formed. |
| WebsocketProtocol.PublishFramesDrain | src/service/TelemetryWebsocketService.ts:66-95 | The batches concatenated are the queued commands, each normalized, in FIFO order. Every batch holds 1 to 10 commands and only the last may hold fewer than 10. There are ceil(n/10) batches. |
| WebsocketProtocol.PublishStep | src/service/TelemetryWebsocketService.ts:68-94 | One turn of the loop sends the first `min(n, 10)` commands and leaves the frames of the rest. |
| WebsocketProtocol.Normalize | src/service/TelemetryWebsocketService.ts:72-87 | The copy differs from the command at most in `type`, and an existing `type` is kept. `type` changes exactly when it is missing and the command has `keys` and `scope`, or has `unsubscribe` set. When it changes, it becomes `TIMESERIES`. |
| WebsocketProtocol.NormalizeAllAt | src/service/TelemetryWebsocketService.ts:72-87 | Each command of a batch is normalized on its own. |
| WebsocketProtocol.NormalizeAllConcat | src/service/TelemetryWebsocketService.ts:72-87 | Normalizing distributes over concatenation. |
| WebsocketProtocol.FrameCmdsConcat | src/service/TelemetryWebsocketService.ts:89-94 | The commands carried by two runs of frames add up. |
| WebsocketProtocol.AppendBatches | src/service/TelemetryWebsocketService.ts:68-94 | Two runs of well-formed batches make one. |
| TelemetryWebsocket.WellFormedLogExtend | src/service/TelemetryWebsocketService.ts:94 | Writing batches on an open connection keeps the log's only authentication frame at the start of the connection. |
| TelemetryWebsocket.TelemetryWebsocketService.TryOpenSocket | src/service/TelemetryWebsocketService.ts:99-121 | Only an active service that is neither opened nor opening makes an attempt: it sets opening, then connects with a usable stored token or requests one refresh. Otherwise nothing changes. |
| TelemetryWebsocket.TelemetryWebsocketService.OpenSocket | src/service/TelemetryWebsocketService.ts:123-141 | A socket is created for the service URL, and it will authenticate with the given token. |
| TelemetryWebsocket.TelemetryWebsocketService.RefreshSucceeded | src/service/TelemetryWebsocketService.ts:107-109 | The settled refresh connects with the token now stored when there is one. With none it does nothing, and opening stays set. |
| TelemetryWebsocket.TelemetryWebsocketService.RefreshFailed | src/service/TelemetryWebsocketService.ts:110-113 | The refresh failure ends the attempt (opening cleared) and requests logout. |
| TelemetryWebsocket.TelemetryWebsocketService.OnOpen | src/service/TelemetryWebsocketService.ts:148-176 | The socket is opened and not opening, and a pending timer is cancelled. The authentication frame with id 0 and the token comes first, followed only by command frames. Without a reconnect, the queue is published and nothing else changes. With one, the flag is cleared and each subscriber of the set has `onReconnected` called (if defined) and is resubscribed with fresh ids, in order. The set then ends empty, and the service is active if it was or if the set was not empty, because `subscribe` activates it. With an empty set, the queue is left untouched. |
| TelemetryWebsocket.TelemetryWebsocketService.Authenticate | src/service/TelemetryWebsocketService.ts:149-164 | The flags change, the authentication frame is appended, and the timer is cleared. |
| TelemetryWebsocket.TelemetryWebsocketService.Resume | src/service/TelemetryWebsocketService.ts:166-175 | The two branches of `onOpen`, as above. |
| TelemetryWebsocket.TelemetryWebsocketService.Resubscribe | src/service/TelemetryWebsocketService.ts:166-172 | The reconnect loop hands the set's subscribers the id ranges after the counter, in order, and logs their `onReconnected` calls. It empties the set. Each `subscribe` activates the service, so the service is active afterwards exactly when it was before or the set was not empty. When the set was not empty, it writes well-formed batches carrying the old queue and every resubscribed command. |
| TelemetryWebsocket.TelemetryWebsocketService.RejoinAll | src/service/TelemetryWebsocketService.ts:168-171 | After the loop, the counter, registry and callbacks are those after every subscriber's turn, and the queue is empty if any turn ran. The log has grown by well-formed batches that carry the old queue and every resubscribed command. The service is active if it was, or if any turn ran. |
| TelemetryWebsocket.TelemetryWebsocketService.RejoinNext | src/service/TelemetryWebsocketService.ts:168-171 | One turn extends that state by one more subscriber, and leaves the service active. The turn writes exactly the publish frames of the queue (on the first turn) followed by the subscriber's commands with their new ids. |
| TelemetryWebsocket.TelemetryWebsocketService.Rejoin | src/service/TelemetryWebsocketService.ts:169-170 | `onReconnected` (if defined), then `subscribe` on the open socket: the service is active, the subscriber's id range is added and the queue is drained. The frames written are exactly the publish frames of the old queue's values followed by the subscriber's commands with their new ids. |
| WebsocketProtocol.ResubscribeStep | src/service/TelemetryWebsocketService.ts:168-171 | One more subscriber's ids follow the ones before it, and so does its callback. |
| WebsocketProtocol.ReallocatedIsUnion | src/service/TelemetryWebsocketService.ts:168-171 | Resubscribing one at a time gives the registry plus the whole allocation. |
| WebsocketProtocol.AllocationKeys | src/service/TelemetryWebsocketService.ts:168-171 | A resubscription hands out exactly the ids `base + 1 .. base + T`, where T is the number of commands. |
| WebsocketProtocol.AllocationOwners | src/service/TelemetryWebsocketService.ts:168-171 | Every such id goes to a resubscribed subscriber. |
| WebsocketProtocol.ReconnectCallbacks | src/service/TelemetryWebsocketService.ts:169 | Exactly one `onReconnected` call for each subscriber that defines it, and no other call. |
| TelemetryWebsocket.TelemetryWebsocketService.OnOpenFlushed | src/service/TelemetryWebsocketService.ts:148-176 | `onOpen` with the queue also published after the reconnect branch. The open socket is left with an empty queue. The reconnect branch activates the service when the set was not empty, as `onOpen` does. |
| TelemetryWebsocket.TelemetryWebsocketService.ResumeFlushed | src/service/TelemetryWebsocketService.ts:166-175 | The branches of the corrected `onOpen`: the queue always ends empty, and the activity is that of `Resume`. |
| TelemetryWebsocket.TelemetryWebsocketService.ResubscribeFlushed | src/service/TelemetryWebsocketService.ts:166-172 | Resubscribe, then publish. The service is active afterwards exactly when it was or the set was not empty. With an empty set this writes exactly the frames of the old queue. |
| TelemetryWebsocket.TelemetryWebsocketService.OnMessage | src/service/TelemetryWebsocketService.ts:178-195 | The message goes to the `onData` of the subscriber its id routes to, and is dropped otherwise. Only the callback log changes. |
| WebsocketProtocol.CorrelationId | src/service/TelemetryWebsocketService.ts:181-186 | The id is `subscriptionId` when set and nonzero. Otherwise it is `cmdId` when set and nonzero. Otherwise there is none, so it is never 0. |
| WebsocketProtocol.Route | src/service/TelemetryWebsocketService.ts:178-195 | A subscriber is found exactly when the message parsed, has an id, and that id is registered. It is then the registered subscriber. |
| WebsocketProtocol.RouteSubscriptionIdFirst | src/service/TelemetryWebsocketService.ts:181-186 | A nonzero `subscriptionId` decides alone: `cmdId` is never consulted. |
| WebsocketProtocol.RouteAfterRetire | src/service/TelemetryWebsocketService.ts:178-195 | After ids are retired, their late messages are dropped, and the others are routed as before. |
| WebsocketProtocol.AuthIdNeverRouted | src/service/TelemetryWebsocketService.ts:155 | A message carrying only the authentication id 0 is never routed. |
| TelemetryWebsocket.TelemetryWebsocketService.OnError | src/service/TelemetryWebsocketService.ts:197-200 | The open attempt is over and nothing else changes. |
| TelemetryWebsocket.TelemetryWebsocketService.OnClose | src/service/TelemetryWebsocketService.ts:202-219 | Opening and opened are cleared. If active and not already reconnecting, the reconnect set becomes the registry's subscribers, each once, in registration order; the registry is emptied and reconnecting is set. Otherwise the set, the registry and the flag are untouched. While active, exactly one timer of 2000 ms is pending afterwards. While inactive, the timer is unchanged. |
| TelemetryWebsocket.TelemetryWebsocketService.Suspend | src/service/TelemetryWebsocketService.ts:206-214 | The first close moves the subscribers, empties the registry and sets the flag. |
| TelemetryWebsocket.TelemetryWebsocketService.CollectSubscribers | src/service/TelemetryWebsocketService.ts:207-210 | The loop leaves the registry's values in key insertion order, deduplicated by first occurrence. |
| WebsocketProtocol.ReconnectSetCoversRegistry | src/service/TelemetryWebsocketService.ts:207-210 | That set is distinct. It holds only registered subscribers, and each of them. |
| WebsocketProtocol.OrderedValues | src/service/TelemetryWebsocketService.ts:208 | Entry k is the subscriber of the k-th key in insertion order. |
| TelemetryWebsocket.TelemetryWebsocketService.TimerFired | src/service/TelemetryWebsocketService.ts:217 | The timer is no longer pending, and the open attempt of `tryOpenSocket` follows. |
| TelemetryWebsocket.TelemetryWebsocketService.Close | src/service/TelemetryWebsocketService.ts:221-226 | The service becomes inactive. Its socket is closed if it has one. |
| TelemetryWebsocketFindings.StrandedSubscription | src/service/TelemetryWebsocketService.ts:166-175 | A reachable run that ends with the socket open and one command still queued. |
| TelemetryWebsocketFindings.FlushedSubscription | src/service/TelemetryWebsocketService.ts:166-175 | The same run with the corrected `onOpen` ends with nothing queued. |
| TelemetryWebsocketFindings.ReconnectWithNewSubscriber | src/service/TelemetryWebsocketService.ts:30-58 | subscribe, open, unsubscribe, close, then subscribe while reconnecting. This leaves a reconnecting service with an empty reconnect set, one queued command and a requested connection. |
| Telemetry.Snapshots | src/model/telemetry.ts:6-14 | One value per command object, read in the current heap. |
| Telemetry.ValuesConcat | src/service/TelemetryWebsocketService.ts:36 | The values of a queue extended at the end are the old values followed by the new ones. |
| Telemetry.ValuesLives | src/service/TelemetryWebsocketService.ts:36 | Commands queued by reference have their commands' current values. |
| Telemetry.ValuesLiterals | src/service/TelemetryWebsocketService.ts:51 | Envelopes queued as literals keep their own values. |
| Telemetry.ValuesUnchanged | src/service/TelemetryWebsocketService.ts:73 | The values of a queue depend only on the command objects it shares. |
| AlarmParams.V1Entries | src/service/AlarmService.ts:105-131 | The first version's dictionary, key by key, contains the following. Every page-link property that is present, even an empty text search or a zero time, because the spread copies it first. `sortProperty` and `sortOrder` hold the sort property and direction. The search status if given, else the status if given. The assignee's id. `fetchOriginator` whenever defined, `false` included. No list. |
| AlarmParams.V2Entries | src/service/AlarmService.ts:133-159 | The second version's dictionary, key by key, contains the following. Page size and page. The text search and times only when truthy. The sort property and direction. Each list joined with commas when given. The assignee's id. Never a status, search status or `fetchOriginator`. |
| AlarmParams.NoObjectParams | src/service/AlarmService.ts:106-115 | No value of the first version is an object: the spread's `sortOrder` object is always replaced. |
| AlarmParams.NoObjectParamsV2 | src/service/AlarmService.ts:133-142 | No value of the second version is an object. |
| AlarmParams.PageLinkAgreement | src/service/AlarmService.ts:106-144 | For the same page link and assignee, the two versions agree on page size, page, sort and assignee. A text search or time sent by the second is sent equally by the first. The first alone sends one exactly when it is the empty string or 0. |
| AlarmParams.HighestSeverityAgreesWithQuery | src/service/AlarmService.ts:86-91 | The highest-severity params hold the search status if given, else the status if given, else nothing. These are the status entries of an alarm list query with the same two fields. |
| AlarmParams.JoinSplit | src/service/AlarmService.ts:146-154 | A non-empty list of comma-free strings is recovered by splitting its join at commas. |
| AlarmParams.StatusListRoundTrip | src/service/AlarmService.ts:149-151 | A non-empty status list is recovered from its joined parameter. |
| AlarmParams.SeverityListRoundTrip | src/service/AlarmService.ts:152-154 | A non-empty severity list is recovered from its joined parameter. |
| AlarmParams.SearchStatusNames | src/model/alarm.ts:19-25 | Element k is the string value of the k-th search status. |
| AlarmParams.SeverityNames | src/model/alarm.ts:4-10 | Element k is the string value of the k-th severity. |

## Left out

- JSON encoding and decoding: frames are structured values. A message that does not parse is `None`, which `onMessage` drops; the error logged to the console is not modelled.
- WebSocket, `setTimeout` and Promises: each callback is an event method that can be called at any time, so events from a replaced socket are covered too. The 2000 ms delay is a constant, not time.
- `openSocket` throwing synchronously (its `catch` calls `onClose(null)`): the model has no branch where the socket constructor throws. `OpenSocket` always records a socket and a `Connect` request, and the failure can only be represented as that socket closing at once (`OnClose`). This differs from the source in two ways. After a failed first attempt the source has no socket, so its `close` skips `socket.close()`, but the model's `Close` logs `CloseSocket`. And the model still allows an `OnOpen` for that `Connect`, although the socket was never created.
- `socketCloseTimer` and `WS_IDLE_TIMEOUT`: the timer is never armed, so clearing it in `tryOpenSocket` has no effect.
- Callback code: `onData` and `onReconnected` are logged as calls and assumed not to re-enter the service.
- ThingsboardClient: `getToken` and `isTokenExpired` are read from a client object that any event may change. `refreshJwtToken` and `logout` are requests, with the refresh's outcome as the two events `RefreshSucceeded` and `RefreshFailed`. `getApiEndpoint` is the constructor's argument.
- `close` does not cancel a pending reconnect timer, and the model follows the code; a later `TimerFired` on an inactive service then does nothing.
- Numbers: ids, page sizes and times are unbounded integers. The 2^53 limit of JavaScript numbers, fractions and `NaN` are not modelled.
- A property whose value is `undefined` is modelled as absent, which is how the HTTP client serialises it.
- The alarm REST methods, including the mapping of 404 to `null` and the URL templates built from `affectedEntityId`: they are single HTTP delegations.
- The serialisation of a parameter dictionary into a query string: key order, escaping and number formatting.
- TelemetryWebsocket.TelemetryWebsocketService.Resubscribe: for a non-empty reconnect set, it states the number of commands the batches carry and their shape, not their exact values. Each turn writes the values its commands have at that turn (`RejoinNext` states them exactly). A later turn can renumber a command object that an earlier turn already sent, when two subscribers share it, so the frames cannot be stated in the final heap.
- TelemetryWebsocket.TelemetryWebsocketService.RejoinAll: for the same reason, it states the batches the whole loop writes by shape and count, not by value.
- TelemetryWebsocket.TelemetryWebsocketService.Resume: for the same reason, after a reconnect with a non-empty set it states the new frames only as an extension of the log.
- TelemetryWebsocket.TelemetryWebsocketService.ResubscribeFlushed: for the same reason, for a non-empty set it states the new frames only as an extension of the log.
- TelemetryWebsocket.TelemetryWebsocketService.ResumeFlushed: for the same reason, after a reconnect with a non-empty set it states the new frames only as an extension of the log.
- TelemetryWebsocket.TelemetryWebsocketService.OnOpenFlushed: for the same reason, after a reconnect with a non-empty set it states only that every frame after the authentication frame is a command frame.
- TelemetryWebsocket.TelemetryWebsocketService.OnOpen: in the reconnect branch with a non-empty set, it states that every frame after the authentication frame is a command frame and that the queue ends empty, not the frames' values.

## Findings

| source | as written | input that shows it | evidently intended | confidence | as-written member | corrected member |
|---|---|---|---|---|---|---|
| src/service/TelemetryWebsocketService.ts:166-175 | The reconnect branch of `onOpen` resubscribes the reconnect set and never calls `publishCommands` itself. With an empty set, whatever is queued stays queued on an open socket until the next `subscribe` or `unsubscribe`. | Subscribe one subscriber, open the socket, unsubscribe it, lose the connection, subscribe a new subscriber while reconnecting, and open the socket again: one command is still queued. | Publish the queue in the reconnect branch too, so that an open socket never holds queued commands. | not executed | TelemetryWebsocketFindings.StrandedSubscription | TelemetryWebsocket.TelemetryWebsocketService.OnOpenFlushed |
