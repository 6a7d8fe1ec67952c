# redisearchQueryClient in Dafny

This project models the query client of the lafleet device-tracking
system. The client has two parts:

- **A WebSocket server** (`wsQueries.ts`). It registers connections, keeps
  per-stream subscriber lists, and fans each Redis stream entry out to the
  subscribed connections as a location update.
- **An HTTP service** (`httpQueries.ts`, with a standalone copy in
  `main.ts`). It answers H3-cell aggregate and radius search queries
  through RediSearch (`redisClient.ts`).

The project also models the mock producer that feeds the streams
(`utils/streamDevLocToRedis.js`) and the mock device it moves
(`utils/device.js`).

Modules:

- `Wrappers`: `Option`.
- `JsBuiltins`: the JavaScript built-ins the code relies on.
  - `String.prototype.split` on one character, and `Array.prototype.join`.
  - `parseInt` without a radix: leading JavaScript white space is skipped,
    then an optional sign; a `0x`/`0X` prefix selects base 16, otherwise
    base 10, and the longest run of digits of that base is read. `None`
    is `NaN`.
  - Integer `toString`.
  - `String.prototype.replace` with a string pattern (first occurrence).
- `DeviceTypes`: the `StreamDevLocationUpdate` payload and the stream
  record (field name to string).
- `WsQueriesSpec`: the server's data model. Its functions say what each
  handler computes. The lemmas prove the registry and fan-out properties
  about those functions.
- `WsQueries`: class `WsQueries`. Its fields are:
  - `clients`, the socket-to-metadata map, with `order` holding its
    insertion (iteration) order;
  - `subscriptions` and `subscriptionsToAll`;
  - an `outbox` of frames sent to sockets;
  - a `backend` log of the tailing loops started in the redis client.

  Each event handler is one method, since the server runs each callback to
  completion. Every handler preserves the invariant `Valid()`:
  - each socket appears once in `order`, and connection ids are unique;
  - no subscriber list holds an id twice;
  - `subscriptionsToAll` has no key but `'*'`;
  - every key with a list has had its tail started.
- `RedisClient`: the `getShapeType`, `aggregate` and `search` filter strings.
  It also holds one iteration of the `subscribeToStreamKey` loop, a finite
  run of that loop, `getAllStreamKeys` and `subscribeToAllStreams`.
- `HttpQueries`: the route table, the aggregate row loop and the
  skip-first search loop.
- `MainServer`: the `TOPIC` default, main.ts's own filters and its route
  table. The route table is proved equal to the one in `HttpQueries`. Its
  row loops are the same code as in httpQueries.ts, so the model reuses the
  `HttpQueries` methods.
- `DeviceSim`: class `Device`, covering the wrap and clamp of its
  coordinates, the ring of ten random values, and the timestamps and
  sequence number.
- `DevLocProducer`: the hash and stream key names, the `h3r2` override and
  the stream entry.
  - It proves that the key the producer writes round-trips through the
    server's device-id extraction.
  - It proves that the payload the server builds from such an entry
    carries the producer's values.

Two behaviours of the source are kept as written:

- **The cleanup guards are always false.** The close handler and
  `unsubscribeToStreamKey` test `map.keys.length > 0`. That reads the
  declared arity of `Map.prototype.keys`, which is 0
  (`MapKeysArity`). So closing a connection only clears its liveness flag,
  and removing a stream changes nothing. Each guarded body is modelled as
  its own method (`PurgeSubscriber`, `DropStreamKey`) with its own proved
  effect.
- **Closed sockets are never removed from `clients`.** They still match
  subscriber ids in `processMessage` and still receive updates.

Inputs the model takes as parameters:

- fresh connection ids, each with a uniqueness precondition;
- the server's socket set for `ping`;
- parsed inbound messages;
- Redis replies, as values or `None` for a call that throws;
- `Date.now()`;
- the ten random numbers;
- number formatting and `geoToH3`.

## Model

| member | source | states |
|---|---|---|
| WsQueries.WsQueries.constructor | wsQueries.ts:37-39 | The server starts with no client and no subscription, with the invariant established. |
| WsQueries.WsQueries.OnConnection | wsQueries.ts:86-94 | With a fresh id, the socket is registered as alive with no streams and appended to the iteration order. Exactly one greeting is sent to it, and the subscription maps and tails are unchanged. |
| WsQueries.WsQueries.Heartbeat | wsQueries.ts:61-67 | A pong sets `isAlive` only for a tracked socket; a pong from an unknown socket changes nothing. |
| WsQueries.PingRound | wsQueries.ts:70-83 | The loop over the server's sockets yields the client map `AfterPing` and the frames `PingFrames`. |
| WsQueries.WsQueries.Ping | wsQueries.ts:69-84 | After a ping round every tracked socket in the set is marked not alive. The frames appended are `PingFrames`, and nothing else changes. |
| WsQueriesSpec.PingFramesPerSocket | wsQueries.ts:69-84 | Each tracked socket of the set is pinged exactly once. It is terminated exactly once when it was already not alive, because there is no `continue`. Untracked sockets get nothing. |
| WsQueriesSpec.PingFramesForCounts | wsQueries.ts:71-82 | Visiting one socket sends one ping to it when it is tracked. It sends one terminate when it is tracked and not alive, and nothing to any other socket. |
| WsQueriesSpec.AfterPingKeepsIds | wsQueries.ts:81 | A ping round keeps the socket set, ids and streams and only touches liveness; unique ids stay unique. |
| WsQueries.WsQueries.OnMessage | wsQueries.ts:102-150 | An unparsable message changes nothing. A missing or unlisted `type` appends exactly one `{subscriptionRequest, [], 404}` reply and changes no map and no tail. The two valid types update the registry as `SubscribeKeys` and `AddSubscriber` say, and start tails as `NewTails` says. A request without `streams` changes nothing. |
| WsQueries.WsQueries.SubscriptionRequest | wsQueries.ts:119-131 | A request leaves `subscriptions == SubscribeKeys(old, id, streams)` and starts one tail per key in `NewTails(old keys, streams)`, keeping the invariant. |
| WsQueries.SubscribeRound | wsQueries.ts:120-131 | The loop over the requested keys computes `SubscribeKeys`, and the keys whose tails it starts are `NewTails`. |
| WsQueriesSpec.SubscribeKeysDomain | wsQueries.ts:121-125 | A request adds a list for exactly the keys it names. |
| WsQueriesSpec.SubscribeKeysEntries | wsQueries.ts:119-131 | The keys after a request are the old keys plus those named. A newly named key has list `[id]`. A named list without `id` gains it at the end, and every other list is unchanged. |
| WsQueriesSpec.SubscribeKeysSubscribes | wsQueries.ts:119-131 | After a request, `id` is in the list of every named key, and no list holds a duplicate id. |
| WsQueriesSpec.SubscribeKeysIdempotent | wsQueries.ts:128-130 | Repeating a subscription request changes nothing. |
| WsQueriesSpec.NewTailsOncePerNewKey | wsQueries.ts:121-127 | A tail starts for exactly the named keys that had no list before the request. Each starts once, even when a key repeats in the request. |
| WsQueriesSpec.TailCalls | wsQueries.ts:127 | One `subscribeToStreamKey` call per new key, in order. |
| WsQueries.WsQueries.SubscriptionToAllRequest | wsQueries.ts:134-144 | `id` is added to the `'*'` list at most once. `subscribeToAllStreams` is started only when the `'*'` entry was absent. |
| WsQueries.WsQueries.OnClose | wsQueries.ts:152-179 | The connection is marked not alive. Because the guards read `MapKeysArity` = 0, both subscription maps and the client set are left unchanged. |
| WsQueries.WsQueries.PurgeSubscriber | wsQueries.ts:156-176 | The guarded body, run on its own, leaves both maps as `Purge(old, id)` and keeps the invariant. |
| WsQueries.PurgeLists | wsQueries.ts:157-164 | The loop removes the first occurrence of `id` from every list and equals `Purge`. |
| WsQueriesSpec.IndexOf | wsQueries.ts:159 | `indexOf` returns -1 exactly when the element is absent; otherwise it returns the position of its first occurrence. |
| WsQueriesSpec.RemoveFirstRemoves | wsQueries.ts:159-162 | On a duplicate-free list, the `indexOf`/`splice` pair removes `id` and keeps every other id and duplicate-freedom. |
| WsQueriesSpec.PurgeRemovesSubscriber | wsQueries.ts:156-176 | After the purge no list holds `id`, no key is removed, and every other subscriber stays. |
| WsQueries.WsQueries.UnsubscribeToStreamKey | wsQueries.ts:182-190 | Both deletions are behind false guards, so nothing changes. |
| WsQueries.WsQueries.DropStreamKey | wsQueries.ts:183-189 | The guarded body, run on its own, removes the key from both maps and keeps the invariant. |
| WsQueries.WsQueries.NewStreamCreated | wsQueries.ts:53-55 | Exactly one tail is started, for the new key. |
| WsQueries.WsQueries.OldStreamRemoved | wsQueries.ts:57-59 | It delegates to `unsubscribeToStreamKey`, so nothing changes. |
| WsQueries.WsQueries.ProcessMessage | wsQueries.ts:197-249 | The frames appended are one update per socket of `Fanout`. No socket receives two, and a tracked socket is served exactly when its id is an all-subscriber or a subscriber of the stream, liveness not consulted. |
| WsQueries.VisitSubscribersLoop | wsQueries.ts:224-248 | The nested loops over subscribers and clients compute `VisitSubscribers`. |
| WsQueriesSpec.FanoutMatchesReference | wsQueries.ts:222-248 | The fan-out equals the reference routing. All-subscribers are served first, in list order, then the stream's subscribers that are not all-subscribers. Each id reaches the sockets that carry it. |
| WsQueriesSpec.FanoutOncePerSubscriber | wsQueries.ts:222-248 | Given unique ids and duplicate-free lists, the fan-out has no repeated socket. It contains exactly the tracked sockets whose id is in either list; ids without a client receive nothing. |
| WsQueriesSpec.SocketsWithIdAtMostOne | wsQueries.ts:227-228 | With unique ids, at most one client matches a subscriber id. |
| WsQueriesSpec.SocketsWithIdMembership | wsQueries.ts:227-228 | A socket matches an id exactly when it is tracked and carries that id. |
| WsQueriesSpec.VisitClientsPlain | wsQueries.ts:227-232 | The all-subscribers inner loop sends to exactly the sockets with that id and records the id. |
| WsQueriesSpec.VisitClientsDedupe | wsQueries.ts:239-246 | The per-stream inner loop skips an id already notified, and otherwise behaves like the plain loop. |
| WsQueriesSpec.VisitSubscribersPlain | wsQueries.ts:225-234 | The all-subscribers pass sends to `Route(all)`. |
| WsQueriesSpec.VisitSubscribersDedupe | wsQueries.ts:237-248 | The per-stream pass serves `Route(specific without all)`. |
| WsQueriesSpec.RouteMembership | wsQueries.ts:226-232 | A socket is routed exactly when it is tracked and its id is in the list. |
| WsQueriesSpec.RouteNoDup | wsQueries.ts:226-232 | With unique ids, routing a duplicate-free list never repeats a socket. |
| WsQueriesSpec.ServedMembership | wsQueries.ts:229 | An id is recorded as notified exactly when it is in the list and has a socket. |
| WsQueriesSpec.WithoutMembership | wsQueries.ts:241 | The specific-only subscribers are those not in the all-subscriber list. |
| WsQueriesSpec.WithoutNoDup | wsQueries.ts:241 | Removing all-subscribers keeps a list duplicate-free. |
| WsQueriesSpec.UpdateFrames | wsQueries.ts:230 | One update frame with the same payload per socket served, in order. |
| WsQueriesSpec.DeviceIdPresence | wsQueries.ts:203 | The payload has a `deviceId` exactly when the stream key contains `:`. |
| WsQueriesSpec.DeviceIdIsSecondSegment | wsQueries.ts:203 | For any key whose first segment has no `:`, the `deviceId` is the text after that first `:` up to the next `:`, or all of it when none follows. |
| WsQueriesSpec.ToUpdate | wsQueries.ts:197-219 | The payload built from a stream key and entry: `deviceId` from the key, `dts` and `seq` through `parseInt`, `lng`/`lat`/`alt`/`h3r15`/`state` as stored. Its contract-bearing partners are `DeviceIdPresence`, `DeviceIdIsSecondSegment`, `ToUpdateReadsForwardedFieldsOnly` and `ConsumerSeesProducer`. |
| WsQueriesSpec.ToUpdateReadsForwardedFieldsOnly | wsQueries.ts:204-219 | Only `dts`, `seq`, `lng`, `lat`, `alt`, `h3r15` and `state` reach the payload. Entries that agree on those give the same update. |
| WsQueriesSpec.TimestampsAreDropped | wsQueries.ts:205-207 | Deleting `sts`, `wts` and `rts` does not change what is sent. |
| JsBuiltins.Split | wsQueries.ts:203 | `split` always yields at least one piece. |
| JsBuiltins.SplitPiecesAvoidSeparator | wsQueries.ts:203 | No piece of a split contains the separator. |
| JsBuiltins.SplitAfterFirst | wsQueries.ts:203 | Text before the first separator is the first piece; the rest splits on its own. |
| JsBuiltins.SplitWithoutSeparator | wsQueries.ts:203 | Text without the separator splits into itself. |
| JsBuiltins.SplitJoin | redisClient.ts:130 | Joining pieces with a one-character separator they avoid and splitting again gives the pieces back. |
| JsBuiltins.Join | redisClient.ts:130 | `join`: the pieces in order with the separator between consecutive ones; `SplitJoin` proves it inverse to `Split` and `JoinSnoc` that it keeps list order. |
| JsBuiltins.JoinSnoc | redisClient.ts:130 | Joining one more piece appends the separator and the piece, so list order is kept. |
| JsBuiltins.DigitPrefix | wsQueries.ts:208-209 | The digits `parseInt` reads are the longest prefix made only of decimal digits. |
| JsBuiltins.ParseIntNaN | wsQueries.ts:208-209 | `parseInt` is `NaN` exactly when no digit of the selected base follows the white space, the sign and any `0x` prefix. |
| JsBuiltins.HexPrefix | wsQueries.ts:208-209 | The digits read after `0x` are the longest prefix of hexadecimal digits. |
| JsBuiltins.ParseIntSkipsWhiteSpace | wsQueries.ts:208-209 | Any leading run of JavaScript white space leaves the result unchanged. |
| JsBuiltins.ParseIntSkipsLeadingSpace | wsQueries.ts:208-209 | `" 5"` reads as 5. |
| JsBuiltins.ParseIntStopsAtNonDigit | wsQueries.ts:208-209 | `"\t-12abc"` reads as -12: white space skipped, sign kept, reading stops at the first non-digit. |
| JsBuiltins.ParseIntReadsHex | wsQueries.ts:208-209 | `"0x1A"` reads as 26 in base 16. |
| JsBuiltins.ParseIntReadsSignedHex | wsQueries.ts:208-209 | `"-0X1a"` reads as -26: the sign comes before the base prefix. |
| JsBuiltins.ParseIntHexNeedsDigit | wsQueries.ts:208-209 | `"0x"` and `"0xg"` are `NaN`: a base prefix without a hex digit does not fall back to reading `0`. |
| JsBuiltins.ParseIntNaNWithoutDigits | wsQueries.ts:208-209 | The empty string, a lone sign and a word are `NaN`. |
| JsBuiltins.ParseIntOfIntToString | wsQueries.ts:208-209 | `parseInt` of an integer's decimal rendering gives the integer back. |
| JsBuiltins.NatToString | utils/device.js:34 | The decimal rendering of a natural number is a non-empty string of digits, starting with `0` only for 0. |
| JsBuiltins.IntToString | utils/streamDevLocToRedis.js:81-85 | The rendering of an integer starts with `-` exactly when it is negative, followed by the digits of its magnitude. |
| JsBuiltins.IntToStringHasNoSpace | redisClient.ts:129 | A rendered integer contains no space. |
| JsBuiltins.DigitsValueOfNatToString | utils/device.js:34 | The digits of a rendering read back as the number. |
| JsBuiltins.ReplaceFirstWithoutMatch | utils/streamDevLocToRedis.js:79 | Without an occurrence of the pattern, `replace` returns the text unchanged. |
| JsBuiltins.ReplaceFirstAtFirstMatch | utils/streamDevLocToRedis.js:79 | Only the first occurrence is replaced; text before and after it is kept, even when the rest holds more occurrences. |
| RedisClient.ShapeTypeFilter | redisClient.ts:61 | The filter is `@type:(` + type + `)`, from which the type can be read back. |
| RedisClient.ShapeTypeFilterInjective | redisClient.ts:61 | Different shape types give different filters. |
| RedisClient.ShapeReturnTriples | redisClient.ts:62 | `RETURN` holds exactly three `(path, AS, alias)` triples: shapeId, name and status, each path being the alias under `$.`. |
| RedisClient.H3Field | redisClient.ts:129 | The grouped field is `@h3r` followed by the resolution, which parses back and contains no space. |
| RedisClient.AggregateFilterWords | redisClient.ts:129-131 | Split on spaces, the filter gives back `@topic:`+topic, the `@h3rN:{` field, the indices in input order separated by `\|`, and `}`. |
| RedisClient.AggregateFilterEmptyList | redisClient.ts:130 | An empty index list yields a filter ending in `:{  }`. |
| RedisClient.IndexWordsShape | redisClient.ts:130 | The indices sit at the even word positions in input order, with `\|` between them. |
| RedisClient.SearchFilterWords | redisClient.ts:156-157 | Split on spaces, the radius filter gives back the topic term, `@lnglat:[`, longitude, latitude, distance, unit and `]`, in that order. |
| RedisClient.TailStep | redisClient.ts:92-115 | A step delivers exactly when the reply is non-null with a first stream holding a message. It then delivers `response[0].name` and that first message only. A null reply does nothing. A throw, or a reply whose `response[0]` or `messages[0]` is missing, is caught. |
| RedisClient.TailStepDeliversFirstOnly | redisClient.ts:107-108 | Messages after the first, and streams after the first, are dropped. |
| RedisClient.DeliveriesFromReplies | redisClient.ts:83-116 | At most one callback per read, each the first message of some reply. |
| RedisClient.DeliveriesConcat | redisClient.ts:83-116 | The callbacks of consecutive runs of the loop concatenate. |
| RedisClient.FailedReadIsSkipped | redisClient.ts:109-115 | A read that delivers nothing is swallowed: a throw, a null reply, or a reply without a first message. Later reads deliver as if it had not happened. |
| RedisClient.SubscribeToStreamKey | redisClient.ts:82-117 | Over any number of iterations, one `XREAD` is sent per iteration, always with id `$`, `COUNT` 1 and `BLOCK` 100 whatever was delivered before. The callbacks are `Deliveries(replies)`. |
| RedisClient.GetAllStreamKeys | redisClient.ts:70-80 | It returns every key the scan yields, in order. |
| RedisClient.SubscribeToAllStreams | redisClient.ts:120-125 | Exactly one tail is started per scanned key, in scan order. |
| HttpQueries.Aggregate | httpQueries.ts:106-133 | The result always carries the input `h3resolution` and an `h3indices` map. The map is empty when the backend call throws, and otherwise equals `IndicesOf(rows)`. |
| HttpQueries.IndicesOfRows | httpQueries.ts:114-127 | A key exists exactly for the second element of each row that is an array of at least 4 elements. Its value is that of the last such row: 0 for a null or empty count, else `parseInt` of the count. |
| HttpQueries.IndicesOfStep | httpQueries.ts:118-126 | A non-array or short row changes nothing; a kept row overwrites its key. |
| HttpQueries.Search | httpQueries.ts:135-158 | The result is every element of the reply except index 0, in order, with length max(0, n-1). A throw gives the empty list built so far. |
| HttpQueries.OnRequest | httpQueries.ts:25-82 | The handler's decision for a url and method, whose properties `RouteTable` proves. |
| HttpQueries.RouteTable | httpQueries.ts:25-82 | 404 `Not Found` is returned exactly for an unknown path, the only case without a `Content-Type`. A known path answers at once only to GET: the query paths with status 200, JSON and the use-POST text; `/health` with 200, HTML and `OK`; `/` with 200, HTML and the welcome page. A body is read only on POST to a query path, for that path's query. Any other method leaves the response open with the path's content type. |
| MainServer.TopicOf | main.ts:5-6 | `TOPIC` is the environment value when set and non-empty, and otherwise the default topic. |
| MainServer.DefaultTopicMatchesRedisClient | main.ts:5-6 | Without `TOPIC`, main.ts queries the topic redisClient.ts fixes, and builds the same aggregate filter. |
| MainServer.Aggregate | main.ts:117-160 | The filter is redisClient.ts's aggregate filter over `TOPIC`, and exactly the redisClient.ts filter when `TOPIC` is unset. It splits on spaces into the topic term, the field and the indices in input order. The row loop skips non-array and short rows and maps `row[1]` as `IndicesOf` says. |
| MainServer.Search | main.ts:162-199 | The filter is redisClient.ts's radius filter over `TOPIC`, and exactly the redisClient.ts filter when `TOPIC` is unset. It splits into its fields in order; the result drops element 0 and keeps the rest in order. |
| MainServer.SameRouteTable | main.ts:31-88 | main.ts routes every url and method exactly as httpQueries.ts does. |
| DeviceSim.Device.constructor | utils/device.js:20-35 | `deviceId` is `test-00` followed by the index, with `seq` = -1, ring index 0, the initial position and timestamps 200 ms apart. |
| DeviceSim.Device.Move | utils/device.js:37-64 | The position moves by the deltas with one latitude wrap (by 180), one longitude wrap (by 360) and the altitude clamped at 0. `seq` grows by exactly 1, `srv_ts` = `dev_ts` + 200 and `wrk_ts` = `srv_ts` + 200. |
| DeviceSim.WrappedLatitude | utils/device.js:38-43 | Latitude is shifted by 180 only when out of [-90, 90]. A latitude in range moved by at most 180 stays in range. |
| DeviceSim.WrappedLongitude | utils/device.js:45-50 | Longitude is shifted by 360 only when out of [-180, 180], with the analogous bound. |
| DeviceSim.ClampedAltitude | utils/device.js:52-55 | The altitude is never negative, and a non-negative one is kept. |
| DeviceSim.StepStaysInRange | utils/device.js:38-50 | From an in-range position, steps of at most 180 in latitude and 360 in longitude stay in range. |
| DeviceSim.NextIndex | utils/device.js:67-70 | The ring index stays in [0, 10), wrapping 9 to 0. |
| DeviceSim.Device.GetNextRandom | utils/device.js:66-72 | It returns the value under the old index, and the index advances modulo 10. |
| DeviceSim.Device.MoveRandomly | utils/device.js:74-79 | Three consecutive ring values are the latitude, longitude and altitude deltas, in that order. With values in [-0.5, 0.5], the position stays in range. |
| DevLocProducer.StreamKeyOfHashKey | utils/streamDevLocToRedis.js:40-79 | Replacing `DEVLOC` in the hash key gives `STREAMDEV:` + device id + `:` + topic. |
| DevLocProducer.DeviceIdRoundTrip | utils/streamDevLocToRedis.js:40-79 | For an id without `:`, the id the server extracts from this stream key is the producer's id. |
| DevLocProducer.H3r2 | utils/streamDevLocToRedis.js:46-52 | `test-001` and `test-002` get their fixed cells, and every other id gets `822bafffffffffe`. |
| DevLocProducer.StreamPayloadFields | utils/streamDevLocToRedis.js:80-90 | The stream entry has exactly `dts`, `sts`, `wts`, `rts`, `seq`, `lng`, `lat`, `alt` and `h3r15`, with no `state`. |
| DevLocProducer.StreamPayloadNumbers | utils/streamDevLocToRedis.js:81-85 | The device timestamp and sequence number are written as decimal text that `parseInt` reads back. |
| DevLocProducer.StreamPayloadText | utils/streamDevLocToRedis.js:86-89 | The coordinates' renderings and the `h3r15` cell are stored unchanged. |
| DevLocProducer.ConsumerSeesProducer | utils/streamDevLocToRedis.js:79-90 | The server's update from such an entry carries the producer's id, `dts`, `seq`, coordinates and `h3r15`, and an absent `state`. |
| DevLocProducer.PublicationOf | utils/streamDevLocToRedis.js:33-90 | The hash key and the stream key, both naming the device and the topic, and the overridden `h3r2` of a device's state. The stream entry has the nine fields, with `dts` and `seq` reading back and `h3r15` the finest cell of the position. |
| DevLocProducer.PublishToRedisForDevice | utils/streamDevLocToRedis.js:33-90 | The device moves once (`MovedRandomly`): latitude, longitude and altitude moved by the next three ring values with wrap and clamp, ring index + 3, timestamps from `now`, `seq` + 1, and id, battery and firmware kept. The publication is built from the moved state. |
| DevLocProducer.PublishToRedis | utils/streamDevLocToRedis.js:27-31 | It publishes for device 1, 2 and 3, in that order. Each device is moved exactly once from its own old state at its own `Date.now()`, and each publication uses its own read timestamp. |
| DevLocProducer.ProducerDeviceIds | utils/streamDevLocToRedis.js:23-25 | Devices 1, 2 and 3 are `test-001`, `test-002` and `test-003`; the third gets the fallback `h3r2`. |

## Left out

- Redis, WebSocket and HTTP I/O are not modelled:
  - connections and the `ws` server itself;
  - `send`, `ping` and `terminate`, which become outbox frames;
  - `setInterval` timers;
  - the `XREAD`, `SCAN` and `FT.*` calls, whose replies become inputs;
  - `hSet`/`xAdd` and their promise chains, including the
    `Success`/`Failure` strings;
  - request-body streaming and its 1e6-chunk limit.
- The stream discovery hooks are left out. `assignAddedHandler`,
  `assignRemovedHandler` and `shutdown` are called from wsQueries.ts but are
  not defined in redisClient.ts. As written, the `wsQueries` constructor
  throws a `TypeError` at its `assignAddedHandler` call
  (wsQueries.ts:49), after the heartbeat timer is set. The model's
  constructor stands for the construction that was evidently intended,
  without those two calls. Only `newStreamCreated` and `oldStreamRemoved`
  are modelled, as the delegations they are.
- `tearDown` is left out. It only clears a timer and calls the undefined
  `shutdown`.
- JSON encoding and decoding are left out. Inbound messages are a datatype
  (`Unparsable` stands for a `JSON.parse` throw). Outbound bodies are not
  serialised.
- `uuidv4` is not modelled: each connection id is a parameter with a
  uniqueness precondition.
- JsBuiltins.ParseInt: the value is an exact integer; the rounding of a
  long digit run to the nearest double is not modelled.
- Floating point is not modelled:
  - `parseFloat` of `lng`/`lat`/`alt` in the payload passes the text
    through;
  - number-to-string and `toFixed(11)` come in as a function;
  - device.js uses exact `real` arithmetic instead of IEEE doubles.
- WsQueries.WsQueries.OnMessage: JavaScript truthiness of a non-array
  `streams`, and of element types other than strings, is not modelled;
  `streams` is an optional list of strings.
- HttpQueries.Aggregate: `h3resolution` is an integer. JavaScript property
  semantics of unusual keys (`__proto__`) are not modelled. Reply cells are
  null or strings.
- RedisClient.SubscribeToStreamKey: the loop never ends. The model covers
  its first n iterations for any n, one reply each. Its reply records stay
  field maps rather than the JSON text handed to the callback.
- The hash record `publishToRedisForDevice` writes under the `DEVLOC:` key
  is only modelled by its key and its `h3r2` cell. Its other fields feed
  nothing in this client.
- `geoToH3` (h3-js) comes in as a function.
- `Math.random` is replaced by the ten given values, and `Date.now()` by a
  parameter.
- Some files are not part of this model:
  - shapeCache.ts;
  - shapeTypes.ts and deviceTypes.ts, which are type declarations
    (`StreamDevLocationUpdate` is mirrored);
  - the one-shot scripts createIndex.js, jsonSetShapeToRedis.js,
    publishShapeChangedToRedis.js and streamRandToRedis.js.
- `getShapeType`'s reply shaping (`response.documents`) and the
  `subscribe` channel callback only pass values through and are left out.
