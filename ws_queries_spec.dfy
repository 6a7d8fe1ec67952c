/** The value-level specification of the WebSocket subscription server
    (wsQueries.ts): its data model, and pure functions that say what each
    event handler of the `WsQueries` class computes, with the properties the
    server promises proved about them. */
module WsQueriesSpec {
  import opened Wrappers
  import opened JsBuiltins
  import opened DeviceTypes

  /** A WebSocket connection object, compared by identity. */
  datatype Socket = Socket(handle: nat)

  /** `ConnectionMetadata`: what `clients` maps each socket to. */
  datatype ConnectionMetadata = ConnectionMetadata(id: string, isAlive: bool, streams: seq<string>)

  /** An inbound text message after `JSON.parse`. `Unparsable` is text the
      parser (or the property access after it) throws on. */
  datatype Inbound =
    | Unparsable
    | Request(msgType: Option<string>, streams: Option<seq<string>>)

  /** A text frame the server sends: the greeting, a `SubscriptionResponse`,
      or an update payload. */
  datatype Frame =
    | Greeting
    | SubscriptionResponse(respType: string, streams: seq<string>, status: int)
    | Update(payload: StreamDevLocationUpdate)

  /** Everything the server does to a socket, in order. */
  datatype Outgoing = Send(to: Socket, frame: Frame) | PingFrame(to: Socket) | Terminate(to: Socket)

  /** Calls into the redis client that start tailing loops. */
  datatype BackendCall = TailStream(key: string) | TailAllStreams

  const ValidMessageTypes: seq<string> := ["subscriptionRequest", "subscriptionToAllRequest"]

  /** The single key of `subscriptionsToAll`. */
  const AllStreamKeys: string := "*"

  /** `Map.prototype.keys.length`: the declared arity of the `keys` method,
      which is what `this.subscriptions.keys.length` reads. */
  const MapKeysArity: nat := 0

  /** The reply to a message whose `type` is missing or not recognised. */
  const NotFoundReply: Frame := SubscriptionResponse("subscriptionRequest", [], 404)

  /** `!message.type || !validMessageTypes.includes(message.type)`. */
  predicate IsUnknownType(msgType: Option<string>) {
    msgType.None? || msgType.value == "" || msgType.value !in ValidMessageTypes
  }

  // ---------------------------------------------------------------------
  // processMessage: the payload

  /** `stream.split(':')[1]`, `undefined` when there is no second segment. */
  function DeviceIdOf(stream: string): Option<string> {
    var parts := Split(stream, ':');
    if |parts| >= 2 then Some(parts[1]) else None
  }

  /** A stream key has a device id exactly when it contains a `:`. */
  lemma DeviceIdPresence(stream: string)
    ensures DeviceIdOf(stream).Some? <==> ':' in stream
  {
    if ':' in stream {
      SplitAtSeparator(stream);
    } else {
      SplitWithoutSeparator(stream, ':');
    }
  }

  /** Text with the separator splits into at least two pieces. */
  lemma {:induction false} SplitAtSeparator(s: string)
    requires ':' in s
    ensures |Split(s, ':')| >= 2
    decreases |s|
  {
    if s[0] != ':' {
      SplitAtSeparator(s[1..]);
    }
  }

  function Field(rec: StreamRecord, name: string): Option<string> {
    if name in rec then Some(rec[name]) else None
  }

  /** `parseInt(msgJson[name])`; a missing field parses to `NaN`. */
  function IntField(rec: StreamRecord, name: string): Option<int> {
    if name in rec then ParseInt(rec[name]) else None
  }

  /** The payload `processMessage` builds from a stream key and the entry's
      fields (wsQueries.ts:203-219). */
  function ToUpdate(stream: string, rec: StreamRecord): StreamDevLocationUpdate {
    StreamDevLocationUpdate(
      DeviceIdOf(stream),
      IntField(rec, "dts"), IntField(rec, "seq"),
      Field(rec, "lng"), Field(rec, "lat"), Field(rec, "alt"),
      Field(rec, "h3r15"), Field(rec, "state"))
  }

  /** The fields that reach a client. */
  const ForwardedFields: set<string> := {"dts", "seq", "lng", "lat", "alt", "h3r15", "state"}

  /** Only the forwarded fields matter: two entries that agree on them give
      the same payload, whatever their `sts`, `wts`, `rts` or other fields. */
  lemma ToUpdateReadsForwardedFieldsOnly(stream: string, r1: StreamRecord, r2: StreamRecord)
    requires forall f :: f in ForwardedFields ==> (f in r1 <==> f in r2) && (f in r1 ==> r1[f] == r2[f])
    ensures ToUpdate(stream, r1) == ToUpdate(stream, r2)
  {
    assert "dts" in ForwardedFields && "seq" in ForwardedFields && "lng" in ForwardedFields;
    assert "lat" in ForwardedFields && "alt" in ForwardedFields && "h3r15" in ForwardedFields;
    assert "state" in ForwardedFields;
  }

  /** Deleting `sts`, `wts` and `rts` (wsQueries.ts:205-207) does not change
      what is sent. */
  lemma TimestampsAreDropped(stream: string, rec: StreamRecord)
    ensures ToUpdate(stream, rec - {"sts", "wts", "rts"}) == ToUpdate(stream, rec)
  {
    ToUpdateReadsForwardedFieldsOnly(stream, rec - {"sts", "wts", "rts"}, rec);
  }

  /** The device id is the second `:`-separated segment of the stream key:
      after a first segment free of `:`, the text up to the next `:`, or
      all the rest when no `:` follows. */
  lemma DeviceIdIsSecondSegment(prefix: string, s: string)
    requires ':' !in prefix
    ensures DeviceIdOf(prefix + ":" + s) == Some(Split(s, ':')[0])
    ensures ':' !in s ==> DeviceIdOf(prefix + ":" + s) == Some(s)
  {
    assert prefix + ":" + s == prefix + [':'] + s;
    SplitAfterFirst(prefix, ':', s);
    if ':' !in s {
      SplitWithoutSeparator(s, ':');
    }
  }

  // ---------------------------------------------------------------------
  // processMessage: the fan-out (wsQueries.ts:222-248)

  /** The loop state: `subscribersNotified` and the sockets sent to so far. */
  datatype FanState = FanState(notified: seq<string>, sends: seq<Socket>)

  /** Every socket of the iteration order has an entry in `clients`. */
  predicate Tracked(order: seq<Socket>, clients: map<Socket, ConnectionMetadata>) {
    forall i :: 0 <= i < |order| ==> order[i] in clients
  }

  /** Distinct sockets carry distinct connection ids (fresh uuids). */
  predicate UniqueIds(clients: map<Socket, ConnectionMetadata>) {
    forall a, b :: a in clients && b in clients && a != b ==> clients[a].id != clients[b].id
  }

  /** The inner loop over `this.clients` (in insertion order `order`) for one
      subscriber id; with `dedupe` it also skips ids already notified
      (wsQueries.ts:241). */
  function VisitClients(order: seq<Socket>, clients: map<Socket, ConnectionMetadata>,
                        sub: string, dedupe: bool, st: FanState): FanState
    requires Tracked(order, clients)
    decreases |order|
  {
    if order == [] then st
    else
      var s := VisitClients(order[..|order| - 1], clients, sub, dedupe, st);
      var ws := order[|order| - 1];
      if clients[ws].id == sub && (!dedupe || sub !in s.notified)
      then FanState(s.notified + [sub], s.sends + [ws])
      else s
  }

  /** The outer loop over a subscriber list. */
  function VisitSubscribers(order: seq<Socket>, clients: map<Socket, ConnectionMetadata>,
                            subs: seq<string>, dedupe: bool, st: FanState): FanState
    requires Tracked(order, clients)
    decreases |subs|
  {
    if subs == [] then st
    else
      VisitClients(order, clients, subs[|subs| - 1], dedupe,
                   VisitSubscribers(order, clients, subs[..|subs| - 1], dedupe, st))
  }

  /** The sockets `processMessage` sends to, in order: first the
      all-subscribers pass, then the deduplicated per-stream pass. */
  function Fanout(order: seq<Socket>, clients: map<Socket, ConnectionMetadata>,
                  all: seq<string>, specific: seq<string>): seq<Socket>
    requires Tracked(order, clients)
  {
    VisitSubscribers(order, clients, specific, true,
      VisitSubscribers(order, clients, all, false, FanState([], []))).sends
  }

  // The reference definition the fan-out is proved against.

  /** The sockets whose connection id is `id`, in iteration order. */
  function SocketsWithId(order: seq<Socket>, clients: map<Socket, ConnectionMetadata>, id: string): seq<Socket>
    requires Tracked(order, clients)
    decreases |order|
  {
    if order == [] then []
    else
      var ws := order[|order| - 1];
      SocketsWithId(order[..|order| - 1], clients, id) + (if clients[ws].id == id then [ws] else [])
  }

  /** The sockets of each id in turn. */
  function Route(order: seq<Socket>, clients: map<Socket, ConnectionMetadata>, ids: seq<string>): seq<Socket>
    requires Tracked(order, clients)
    decreases |ids|
  {
    if ids == [] then []
    else Route(order, clients, ids[..|ids| - 1]) + SocketsWithId(order, clients, ids[|ids| - 1])
  }

  /** The ids that have a socket, in list order. */
  function Served(order: seq<Socket>, clients: map<Socket, ConnectionMetadata>, ids: seq<string>): seq<string>
    requires Tracked(order, clients)
    decreases |ids|
  {
    if ids == [] then []
    else
      var id := ids[|ids| - 1];
      Served(order, clients, ids[..|ids| - 1]) + (if SocketsWithId(order, clients, id) != [] then [id] else [])
  }

  /** `ids` without the elements of `excluded`, in order. */
  function Without(ids: seq<string>, excluded: seq<string>): seq<string>
    decreases |ids|
  {
    if ids == [] then []
    else
      var id := ids[|ids| - 1];
      Without(ids[..|ids| - 1], excluded) + (if id in excluded then [] else [id])
  }

  lemma {:induction false} SocketsWithIdMembership(order: seq<Socket>, clients: map<Socket, ConnectionMetadata>,
                                                   id: string, ws: Socket)
    requires Tracked(order, clients)
    ensures ws in SocketsWithId(order, clients, id) <==> ws in order && clients[ws].id == id
    decreases |order|
  {
    if order != [] {
      SocketsWithIdMembership(order[..|order| - 1], clients, id, ws);
      assert order == order[..|order| - 1] + [order[|order| - 1]];
    }
  }

  /** With unique ids, at most one socket carries a given id. */
  lemma {:induction false} SocketsWithIdAtMostOne(order: seq<Socket>, clients: map<Socket, ConnectionMetadata>, id: string)
    requires Tracked(order, clients) && NoDup(order) && UniqueIds(clients)
    ensures |SocketsWithId(order, clients, id)| <= 1
    decreases |order|
  {
    if order != [] {
      var prefix := order[..|order| - 1];
      var ws := order[|order| - 1];
      LastNotInPrefix(order);
      SocketsWithIdAtMostOne(prefix, clients, id);
      var s := SocketsWithId(prefix, clients, id);
      if clients[ws].id == id {
        assert s == [] || s[0] in s;
        forall w ensures w !in s {
          SocketsWithIdMembership(prefix, clients, id, w);
          if w in prefix {
            assert w != ws;
          }
        }
      }
    }
  }

  /** The all-subscribers inner loop sends to exactly the sockets with that id. */
  lemma {:induction false} VisitClientsPlain(order: seq<Socket>, clients: map<Socket, ConnectionMetadata>,
                                             sub: string, st: FanState)
    requires Tracked(order, clients) && NoDup(order) && UniqueIds(clients)
    ensures var s := SocketsWithId(order, clients, sub);
      VisitClients(order, clients, sub, false, st)
        == FanState(st.notified + (if s == [] then [] else [sub]), st.sends + s)
    decreases |order|
  {
    if order != [] {
      var prefix := order[..|order| - 1];
      VisitClientsPlain(prefix, clients, sub, st);
      SocketsWithIdAtMostOne(order, clients, sub);
    }
  }

  /** The per-stream inner loop sends to the socket with that id, unless the
      id was already notified. */
  lemma {:induction false} VisitClientsDedupe(order: seq<Socket>, clients: map<Socket, ConnectionMetadata>,
                                              sub: string, st: FanState)
    requires Tracked(order, clients) && NoDup(order) && UniqueIds(clients)
    ensures var s := SocketsWithId(order, clients, sub);
      VisitClients(order, clients, sub, true, st)
        == if sub in st.notified then st
           else FanState(st.notified + (if s == [] then [] else [sub]), st.sends + s)
    decreases |order|
  {
    if order != [] {
      var prefix := order[..|order| - 1];
      VisitClientsDedupe(prefix, clients, sub, st);
      SocketsWithIdAtMostOne(order, clients, sub);
    }
  }

  lemma {:induction false} VisitSubscribersPlain(order: seq<Socket>, clients: map<Socket, ConnectionMetadata>,
                                                 subs: seq<string>, st: FanState)
    requires Tracked(order, clients) && NoDup(order) && UniqueIds(clients)
    ensures VisitSubscribers(order, clients, subs, false, st)
      == FanState(st.notified + Served(order, clients, subs), st.sends + Route(order, clients, subs))
    decreases |subs|
  {
    if subs != [] {
      var prefix := subs[..|subs| - 1];
      var sub := subs[|subs| - 1];
      VisitSubscribersPlain(order, clients, prefix, st);
      var mid := VisitSubscribers(order, clients, prefix, false, st);
      VisitClientsPlain(order, clients, sub, mid);
      var s := SocketsWithId(order, clients, sub);
      assert st.notified + Served(order, clients, subs)
        == st.notified + Served(order, clients, prefix) + (if s == [] then [] else [sub]);
      assert st.sends + Route(order, clients, subs) == st.sends + Route(order, clients, prefix) + s;
    }
  }

  lemma {:induction false} ServedMembership(order: seq<Socket>, clients: map<Socket, ConnectionMetadata>,
                                            ids: seq<string>, x: string)
    requires Tracked(order, clients)
    ensures x in Served(order, clients, ids) <==> x in ids && SocketsWithId(order, clients, x) != []
    decreases |ids|
  {
    if ids != [] {
      ServedMembership(order, clients, ids[..|ids| - 1], x);
      assert ids == ids[..|ids| - 1] + [ids[|ids| - 1]];
    }
  }

  lemma {:induction false} WithoutMembership(ids: seq<string>, excluded: seq<string>, x: string)
    ensures x in Without(ids, excluded) <==> x in ids && x !in excluded
    decreases |ids|
  {
    if ids != [] {
      WithoutMembership(ids[..|ids| - 1], excluded, x);
      assert ids == ids[..|ids| - 1] + [ids[|ids| - 1]];
    }
  }

  lemma {:induction false} WithoutNoDup(ids: seq<string>, excluded: seq<string>)
    requires NoDup(ids)
    ensures NoDup(Without(ids, excluded))
    decreases |ids|
  {
    if ids != [] {
      var prefix := ids[..|ids| - 1];
      var x := ids[|ids| - 1];
      LastNotInPrefix(ids);
      WithoutNoDup(prefix, excluded);
      WithoutMembership(prefix, excluded, x);
      if x !in excluded {
        NoDupConcat(Without(prefix, excluded), [x]);
      }
    }
  }

  /** One step of the per-stream pass: subscriber `x` is served unless it
      was already served as an all-subscriber. */
  lemma DedupeStep(order: seq<Socket>, clients: map<Socket, ConnectionMetadata>,
                   w: seq<string>, x: string, all: seq<string>, st: FanState)
    requires Tracked(order, clients) && NoDup(order) && UniqueIds(clients)
    requires x in st.notified + Served(order, clients, w) <==> x in all && SocketsWithId(order, clients, x) != []
    ensures var w' := w + (if x in all then [] else [x]);
      VisitClients(order, clients, x, true,
        FanState(st.notified + Served(order, clients, w), st.sends + Route(order, clients, w)))
      == FanState(st.notified + Served(order, clients, w'), st.sends + Route(order, clients, w'))
  {
    var mid := FanState(st.notified + Served(order, clients, w), st.sends + Route(order, clients, w));
    if x in all {
      assert w + [] == w;
      DedupeSkipsShared(order, clients, x, mid);
    } else {
      DedupeServesNew(order, clients, w, x, st);
    }
  }

  /** An all-subscriber is visited again with nothing to add: it was
      notified already, or it has no socket. */
  lemma DedupeSkipsShared(order: seq<Socket>, clients: map<Socket, ConnectionMetadata>, x: string, mid: FanState)
    requires Tracked(order, clients) && NoDup(order) && UniqueIds(clients)
    requires x in mid.notified <==> SocketsWithId(order, clients, x) != []
    ensures VisitClients(order, clients, x, true, mid) == mid
  {
    VisitClientsDedupe(order, clients, x, mid);
    assert mid.notified + [] == mid.notified && mid.sends + [] == mid.sends;
  }

  /** A subscriber not yet notified is served as one more entry of the
      reference routing. */
  lemma DedupeServesNew(order: seq<Socket>, clients: map<Socket, ConnectionMetadata>,
                        w: seq<string>, x: string, st: FanState)
    requires Tracked(order, clients) && NoDup(order) && UniqueIds(clients)
    requires x !in st.notified + Served(order, clients, w)
    ensures VisitClients(order, clients, x, true,
        FanState(st.notified + Served(order, clients, w), st.sends + Route(order, clients, w)))
      == FanState(st.notified + Served(order, clients, w + [x]), st.sends + Route(order, clients, w + [x]))
  {
    var mid := FanState(st.notified + Served(order, clients, w), st.sends + Route(order, clients, w));
    var s := SocketsWithId(order, clients, x);
    var extra := if s == [] then [] else [x];
    VisitClientsDedupe(order, clients, x, mid);
    assert VisitClients(order, clients, x, true, mid) == FanState(mid.notified + extra, mid.sends + s);
    ServedRouteSnoc(order, clients, w, x);
    AppendAssoc(st.notified, Served(order, clients, w), extra);
    AppendAssoc(st.sends, Route(order, clients, w), s);
  }

  lemma AppendAssoc<T>(a: seq<T>, b: seq<T>, c: seq<T>)
    ensures a + b + c == a + (b + c)
  {
  }

  /** One more id served after the others. */
  lemma ServedRouteSnoc(order: seq<Socket>, clients: map<Socket, ConnectionMetadata>, w: seq<string>, x: string)
    requires Tracked(order, clients)
    ensures Served(order, clients, w + [x])
      == Served(order, clients, w) + (if SocketsWithId(order, clients, x) == [] then [] else [x])
    ensures Route(order, clients, w + [x]) == Route(order, clients, w) + SocketsWithId(order, clients, x)
  {
    assert (w + [x])[..|w|] == w;
  }

  /** The per-stream pass, started from the state the all-subscribers pass
      leaves, serves each specific-only subscriber's socket. */
  lemma {:induction false} VisitSubscribersDedupe(order: seq<Socket>, clients: map<Socket, ConnectionMetadata>,
                                                  subs: seq<string>, all: seq<string>, st: FanState)
    requires Tracked(order, clients) && NoDup(order) && UniqueIds(clients) && NoDup(subs)
    requires forall x :: x in st.notified <==> x in all && SocketsWithId(order, clients, x) != []
    ensures VisitSubscribers(order, clients, subs, true, st)
      == FanState(st.notified + Served(order, clients, Without(subs, all)),
                  st.sends + Route(order, clients, Without(subs, all)))
    decreases |subs|
  {
    if subs != [] {
      var prefix := subs[..|subs| - 1];
      var x := subs[|subs| - 1];
      LastNotInPrefix(subs);
      VisitSubscribersDedupe(order, clients, prefix, all, st);
      var w := Without(prefix, all);
      ServedMembership(order, clients, w, x);
      WithoutMembership(prefix, all, x);
      assert x in st.notified <==> x in all && SocketsWithId(order, clients, x) != [];
      DedupeStep(order, clients, w, x, all, st);
    }
  }

  /** `processMessage` serves the all-subscribers first, in list order, then
      the per-stream subscribers that are not all-subscribers, in list order;
      each id reaches the sockets that carry it. */
  lemma FanoutMatchesReference(order: seq<Socket>, clients: map<Socket, ConnectionMetadata>,
                               all: seq<string>, specific: seq<string>)
    requires Tracked(order, clients) && NoDup(order) && UniqueIds(clients) && NoDup(specific)
    ensures Fanout(order, clients, all, specific)
      == Route(order, clients, all) + Route(order, clients, Without(specific, all))
  {
    var st0 := FanState([], []);
    VisitSubscribersPlain(order, clients, all, st0);
    var st1 := VisitSubscribers(order, clients, all, false, st0);
    assert st1 == FanState(Served(order, clients, all), Route(order, clients, all));
    forall x ensures x in st1.notified <==> x in all && SocketsWithId(order, clients, x) != [] {
      ServedMembership(order, clients, all, x);
    }
    VisitSubscribersDedupe(order, clients, specific, all, st1);
  }

  lemma {:induction false} RouteMembership(order: seq<Socket>, clients: map<Socket, ConnectionMetadata>,
                                           ids: seq<string>, ws: Socket)
    requires Tracked(order, clients)
    ensures ws in Route(order, clients, ids) <==> ws in order && clients[ws].id in ids
    decreases |ids|
  {
    if ids != [] {
      RouteMembership(order, clients, ids[..|ids| - 1], ws);
      SocketsWithIdMembership(order, clients, ids[|ids| - 1], ws);
      assert ids == ids[..|ids| - 1] + [ids[|ids| - 1]];
    }
  }

  lemma NoDupConcat<T>(a: seq<T>, b: seq<T>)
    requires NoDup(a) && NoDup(b)
    requires forall x :: x in a ==> x !in b
    ensures NoDup(a + b)
  {
    forall i, j | 0 <= i < j < |a + b| ensures (a + b)[i] != (a + b)[j] {
      if i < |a| && j >= |a| {
        assert (a + b)[i] in a && (a + b)[j] in b;
      }
    }
  }

  lemma {:induction false} RouteNoDup(order: seq<Socket>, clients: map<Socket, ConnectionMetadata>, ids: seq<string>)
    requires Tracked(order, clients) && NoDup(order) && UniqueIds(clients) && NoDup(ids)
    ensures NoDup(Route(order, clients, ids))
    decreases |ids|
  {
    if ids != [] {
      var prefix := ids[..|ids| - 1];
      var x := ids[|ids| - 1];
      LastNotInPrefix(ids);
      RouteNoDup(order, clients, prefix);
      var s := SocketsWithId(order, clients, x);
      SocketsWithIdAtMostOne(order, clients, x);
      forall ws | ws in Route(order, clients, prefix) ensures ws !in s {
        RouteMembership(order, clients, prefix, ws);
        SocketsWithIdMembership(order, clients, x, ws);
      }
      NoDupConcat(Route(order, clients, prefix), s);
    }
  }

  /** At most one send per connection per event, and exactly the tracked
      connections whose id is an all-subscriber or a subscriber of the
      stream are served: an id with no client entry receives nothing, and
      a closed connection still in `clients` is still served. */
  lemma FanoutOncePerSubscriber(order: seq<Socket>, clients: map<Socket, ConnectionMetadata>,
                                all: seq<string>, specific: seq<string>)
    requires Tracked(order, clients) && NoDup(order) && UniqueIds(clients)
    requires NoDup(all) && NoDup(specific)
    ensures NoDup(Fanout(order, clients, all, specific))
    ensures forall ws :: (ws in Fanout(order, clients, all, specific)
      <==> ws in order && (clients[ws].id in all || clients[ws].id in specific))
  {
    FanoutMatchesReference(order, clients, all, specific);
    var w := Without(specific, all);
    WithoutNoDup(specific, all);
    RouteNoDup(order, clients, all);
    RouteNoDup(order, clients, w);
    forall ws ensures ws in Route(order, clients, all) + Route(order, clients, w)
      <==> ws in order && (clients[ws].id in all || clients[ws].id in specific)
    {
      RouteMembership(order, clients, all, ws);
      RouteMembership(order, clients, w, ws);
      if ws in clients { WithoutMembership(specific, all, clients[ws].id); }
    }
    forall ws | ws in Route(order, clients, all) ensures ws !in Route(order, clients, w) {
      RouteMembership(order, clients, all, ws);
      RouteMembership(order, clients, w, ws);
      WithoutMembership(specific, all, clients[ws].id);
    }
    NoDupConcat(Route(order, clients, all), Route(order, clients, w));
  }

  /** The frames one `processMessage` call appends, one per socket served. */
  function UpdateFrames(sends: seq<Socket>, payload: StreamDevLocationUpdate): (r: seq<Outgoing>)
    ensures |r| == |sends|
    ensures forall i :: 0 <= i < |sends| ==> r[i] == Send(sends[i], Update(payload))
    decreases |sends|
  {
    if sends == [] then []
    else UpdateFrames(sends[..|sends| - 1], payload) + [Send(sends[|sends| - 1], Update(payload))]
  }

  /** `subscriptions.get(key)` with `undefined` read as no subscriber. */
  function SubscribersOf(m: map<string, seq<string>>, key: string): seq<string> {
    if key in m then m[key] else []
  }

  // ---------------------------------------------------------------------
  // The subscription maps (wsQueries.ts:119-144)

  /** One iteration of the `subscriptionRequest` loop, and the whole of the
      `subscriptionToAllRequest` case: create the list with `id`, or append
      `id` when it is not already there. */
  function AddSubscriber(m: map<string, seq<string>>, key: string, id: string): map<string, seq<string>> {
    if key !in m then m[key := [id]]
    else if id in m[key] then m
    else m[key := m[key] + [id]]
  }

  /** The `subscriptionRequest` loop over `streams`, in order. */
  function SubscribeKeys(m: map<string, seq<string>>, id: string, keys: seq<string>): map<string, seq<string>>
    decreases |keys|
  {
    if keys == [] then m
    else AddSubscriber(SubscribeKeys(m, id, keys[..|keys| - 1]), keys[|keys| - 1], id)
  }

  /** The keys for which the `subscriptionRequest` loop starts a tail: those
      with no list yet, in order of first occurrence. */
  function NewTails(known: set<string>, keys: seq<string>): seq<string>
    decreases |keys|
  {
    if keys == [] then []
    else
      var prefix := keys[..|keys| - 1];
      var k := keys[|keys| - 1];
      NewTails(known, prefix) + (if k in known || k in prefix then [] else [k])
  }

  /** `subscribeToStreamKey` calls, one per key. */
  function TailCalls(keys: seq<string>): (r: seq<BackendCall>)
    ensures |r| == |keys|
    ensures forall i :: 0 <= i < |keys| ==> r[i] == TailStream(keys[i])
    decreases |keys|
  {
    if keys == [] then [] else TailCalls(keys[..|keys| - 1]) + [TailStream(keys[|keys| - 1])]
  }

  /** One more iteration of the `subscriptionRequest` loop. */
  lemma SubscribeKeysStep(m: map<string, seq<string>>, id: string, keys: seq<string>, i: int)
    requires 0 <= i < |keys|
    ensures SubscribeKeys(m, id, keys[..i + 1]) == AddSubscriber(SubscribeKeys(m, id, keys[..i]), keys[i], id)
    ensures NewTails(m.Keys, keys[..i + 1])
      == NewTails(m.Keys, keys[..i]) + (if keys[i] in m || keys[i] in keys[..i] then [] else [keys[i]])
    ensures keys[i] in SubscribeKeys(m, id, keys[..i]) <==> keys[i] in m || keys[i] in keys[..i]
  {
    assert keys[i] in SubscribeKeys(m, id, keys[..i]) <==> keys[i] in m || keys[i] in keys[..i] by {
      SubscribeKeysDomain(m, id, keys[..i]);
    }
    assert keys[..i + 1][..i] == keys[..i];
  }

  /** A subscription request adds exactly the keys it names. */
  lemma {:induction false} SubscribeKeysDomain(m: map<string, seq<string>>, id: string, keys: seq<string>)
    ensures forall k :: k in SubscribeKeys(m, id, keys) <==> k in m || k in keys
    decreases |keys|
  {
    if keys != [] {
      var prefix := keys[..|keys| - 1];
      SubscribeKeysDomain(m, id, prefix);
      assert keys == prefix + [keys[|keys| - 1]];
    }
  }

  /** Every list a subscription request touches ends up holding the sender;
      a key it names for the first time gets the list `[id]`; a list that
      already held the sender, or whose key is not named, is unchanged. */
  lemma {:induction false} SubscribeKeysEntries(m: map<string, seq<string>>, id: string, keys: seq<string>)
    ensures forall k :: k in SubscribeKeys(m, id, keys) <==> k in m || k in keys
    ensures forall k :: k in SubscribeKeys(m, id, keys) ==>
      SubscribeKeys(m, id, keys)[k] ==
        if k !in m then [id]
        else if k in keys && id !in m[k] then m[k] + [id]
        else m[k]
    decreases |keys|
  {
    if keys != [] {
      var prefix := keys[..|keys| - 1];
      var x := keys[|keys| - 1];
      SubscribeKeysEntries(m, id, prefix);
      assert keys == prefix + [x];
      var r' := SubscribeKeys(m, id, prefix);
      var r := SubscribeKeys(m, id, keys);
      assert r == AddSubscriber(r', x, id);
      forall k ensures k in r <==> k in m || k in keys {
      }
      forall k | k in r
        ensures r[k] == if k !in m then [id] else if k in keys && id !in m[k] then m[k] + [id] else m[k]
      {
        if k != x {
          assert r[k] == r'[k];
          assert k in keys <==> k in prefix;
        }
      }
    }
  }

  /** After a subscription request the sender's id is in the list of every
      key it named, and no list holds a duplicate id. */
  lemma SubscribeKeysSubscribes(m: map<string, seq<string>>, id: string, keys: seq<string>)
    requires forall k :: k in m ==> NoDup(m[k])
    ensures forall k :: k in keys ==> k in SubscribeKeys(m, id, keys) && id in SubscribeKeys(m, id, keys)[k]
    ensures forall k :: k in SubscribeKeys(m, id, keys) ==> NoDup(SubscribeKeys(m, id, keys)[k])
  {
    SubscribeKeysEntries(m, id, keys);
    var r := SubscribeKeys(m, id, keys);
    forall k | k in r ensures NoDup(r[k]) {
      if k in m && k in keys && id !in m[k] {
        NoDupConcat(m[k], [id]);
      }
    }
    forall k | k in keys ensures k in r && id in r[k] {
      if k in m && id !in m[k] {
        assert r[k] == m[k] + [id];
        assert r[k][|m[k]|] == id;
      }
    }
  }

  /** Sending the same subscription request twice changes nothing the
      second time. */
  lemma SubscribeKeysIdempotent(m: map<string, seq<string>>, id: string, keys: seq<string>)
    ensures SubscribeKeys(SubscribeKeys(m, id, keys), id, keys) == SubscribeKeys(m, id, keys)
  {
    var r := SubscribeKeys(m, id, keys);
    SubscribeKeysEntries(m, id, keys);
    SubscribeKeysEntries(r, id, keys);
    forall k | k in keys ensures k in r && id in r[k] {
      if k in m && id !in m[k] {
        assert r[k][|m[k]|] == id;
      }
    }
  }

  /** A tail is started only for a key that had no list before the request,
      for every such key, and at most once per key even when the request
      names the key several times. */
  lemma {:induction false} NewTailsOncePerNewKey(known: set<string>, keys: seq<string>)
    ensures NoDup(NewTails(known, keys))
    ensures forall k :: k in NewTails(known, keys) <==> k in keys && k !in known
    decreases |keys|
  {
    if keys != [] {
      var prefix := keys[..|keys| - 1];
      var x := keys[|keys| - 1];
      NewTailsOncePerNewKey(known, prefix);
      assert keys == prefix + [x];
      if !(x in known || x in prefix) {
        NoDupConcat(NewTails(known, prefix), [x]);
      }
    }
  }

  // ---------------------------------------------------------------------
  // The close handler's guarded body (wsQueries.ts:156-176)

  /** `s.indexOf(x)`: the first position of `x`, or -1. */
  function IndexOf(s: seq<string>, x: string): (r: int)
    ensures -1 <= r < |s|
    ensures r == -1 <==> x !in s
    ensures r >= 0 ==> s[r] == x && x !in s[..r]
    decreases |s|
  {
    if s == [] then -1
    else if s[0] == x then 0
    else
      var j := IndexOf(s[1..], x);
      if j == -1 then -1
      else
        assert s[..j + 1] == [s[0]] + s[1..][..j];
        j + 1
  }

  /** `const index = subs.indexOf(id); if (index > -1) subs.splice(index, 1);` */
  function RemoveFirst(s: seq<string>, x: string): seq<string> {
    var index := IndexOf(s, x);
    if index > -1 then s[..index] + s[index + 1..] else s
  }

  /** In a duplicate-free list, removing the first occurrence removes the id
      altogether and keeps every other id and the absence of duplicates. */
  lemma RemoveFirstRemoves(s: seq<string>, x: string)
    requires NoDup(s)
    ensures var r := RemoveFirst(s, x);
      x !in r && NoDup(r) && forall y :: y != x ==> (y in r <==> y in s)
  {
    var i := IndexOf(s, x);
    if i > -1 {
      RemoveAtElements(s, i);
      RemoveAtNoDup(s, i);
      RemoveAtMembership(s, i);
    }
  }

  /** `splice(i, 1)` shifts every later element down by one. */
  lemma RemoveAtElements<T>(s: seq<T>, i: int)
    requires 0 <= i < |s|
    ensures var r := s[..i] + s[i + 1..];
      |r| == |s| - 1 && forall k :: 0 <= k < |r| ==> r[k] == if k < i then s[k] else s[k + 1]
  {
  }

  /** Removing one position of a duplicate-free list removes its element
      altogether and keeps the list duplicate-free. */
  lemma RemoveAtNoDup<T>(s: seq<T>, i: int)
    requires 0 <= i < |s| && NoDup(s)
    ensures s[i] !in s[..i] + s[i + 1..] && NoDup(s[..i] + s[i + 1..])
  {
    var r := s[..i] + s[i + 1..];
    RemoveAtElements(s, i);
    forall k | 0 <= k < |r| ensures r[k] != s[i] {
      if k < i { assert s[k] != s[i]; } else { assert s[k + 1] != s[i]; }
    }
    forall k, l | 0 <= k < l < |r| ensures r[k] != r[l] {
      var k' := if k < i then k else k + 1;
      var l' := if l < i then l else l + 1;
      assert k' < l' && r[k] == s[k'] && r[l] == s[l'];
    }
  }

  /** Removing one position keeps every value other than the one there. */
  lemma RemoveAtMembership<T>(s: seq<T>, i: int)
    requires 0 <= i < |s|
    ensures forall y :: y != s[i] ==> (y in s[..i] + s[i + 1..] <==> y in s)
  {
    var r := s[..i] + s[i + 1..];
    RemoveAtElements(s, i);
    forall y | y != s[i] && y in s ensures y in r {
      var k :| 0 <= k < |s| && s[k] == y;
      if k < i { assert r[k] == y; } else { assert r[k - 1] == y; }
    }
  }

  /** The guarded loops of the close handler: every list loses its first
      occurrence of `id`. */
  function Purge(m: map<string, seq<string>>, id: string): map<string, seq<string>> {
    map k | k in m :: RemoveFirst(m[k], id)
  }

  /** Run on duplicate-free lists, the guarded body removes the id from
      every list, keeps every key and every other id, and keeps the lists
      duplicate-free. */
  lemma PurgeRemovesSubscriber(m: map<string, seq<string>>, id: string)
    requires forall k :: k in m ==> NoDup(m[k])
    ensures Purge(m, id).Keys == m.Keys
    ensures forall k :: k in m ==> id !in Purge(m, id)[k] && NoDup(Purge(m, id)[k])
    ensures forall k, y :: k in m && y != id ==> (y in Purge(m, id)[k] <==> y in m[k])
  {
    forall k | k in m
      ensures id !in Purge(m, id)[k] && NoDup(Purge(m, id)[k])
      ensures forall y :: y != id ==> (y in Purge(m, id)[k] <==> y in m[k])
    {
      RemoveFirstRemoves(m[k], id);
    }
  }

  // ---------------------------------------------------------------------
  // ping (wsQueries.ts:69-84)

  /** What `ping` does to one socket of the server's socket set. */
  function PingFramesFor(ws: Socket, clients: map<Socket, ConnectionMetadata>): seq<Outgoing> {
    if ws !in clients then []
    else if !clients[ws].isAlive then [Terminate(ws), PingFrame(ws)]
    else [PingFrame(ws)]
  }

  /** The frames one `ping` round sends, over the server's sockets in order. */
  function PingFrames(live: seq<Socket>, clients: map<Socket, ConnectionMetadata>): seq<Outgoing>
    decreases |live|
  {
    if live == [] then []
    else PingFrames(live[..|live| - 1], clients) + PingFramesFor(live[|live| - 1], clients)
  }

  /** The client map after a `ping` round. */
  function AfterPing(clients: map<Socket, ConnectionMetadata>, live: seq<Socket>): map<Socket, ConnectionMetadata> {
    map ws | ws in clients :: if ws in live then clients[ws].(isAlive := false) else clients[ws]
  }

  /** One more iteration of the `ping` loop: the frames it sends. */
  lemma PingFramesStep(clients: map<Socket, ConnectionMetadata>, live: seq<Socket>, i: int)
    requires 0 <= i < |live|
    ensures PingFrames(live[..i + 1], clients) == PingFrames(live[..i], clients) + PingFramesFor(live[i], clients)
  {
    assert live[..i + 1][..i] == live[..i];
  }

  /** One more iteration of the `ping` loop: the flag it clears, on a
      socket the loop has not visited yet. */
  lemma AfterPingStep(clients: map<Socket, ConnectionMetadata>, live: seq<Socket>, i: int)
    requires NoDup(live) && 0 <= i < |live|
    ensures live[i] in clients ==> AfterPing(clients, live[..i])[live[i]] == clients[live[i]]
    ensures AfterPing(clients, live[..i + 1]) == if live[i] in clients
      then AfterPing(clients, live[..i])[live[i] := clients[live[i]].(isAlive := false)]
      else AfterPing(clients, live[..i])
  {
    var w := live[i];
    assert live[..i + 1] == live[..i] + [w];
    assert w !in live[..i] by {
      assert forall k :: 0 <= k < i ==> live[..i][k] == live[k] && live[k] != w;
    }
    var before := AfterPing(clients, live[..i]);
    var after := AfterPing(clients, live[..i + 1]);
    assert after.Keys == before.Keys;
    forall ws | ws in after
      ensures after[ws] == if ws == w then clients[w].(isAlive := false) else before[ws]
    {
      assert ws in live[..i + 1] <==> ws in live[..i] || ws == w;
    }
  }

  lemma AfterPingNone(clients: map<Socket, ConnectionMetadata>)
    ensures AfterPing(clients, []) == clients
  {
  }

  /** A `ping` round changes liveness flags only. */
  lemma AfterPingKeepsIds(clients: map<Socket, ConnectionMetadata>, live: seq<Socket>)
    ensures AfterPing(clients, live).Keys == clients.Keys
    ensures forall ws :: ws in clients ==>
      AfterPing(clients, live)[ws].id == clients[ws].id
      && AfterPing(clients, live)[ws].streams == clients[ws].streams
    ensures UniqueIds(clients) ==> UniqueIds(AfterPing(clients, live))
  {
  }

  lemma PingFramesForCounts(w: Socket, clients: map<Socket, ConnectionMetadata>, ws: Socket)
    ensures multiset(PingFramesFor(w, clients))[PingFrame(ws)] == if w == ws && w in clients then 1 else 0
    ensures multiset(PingFramesFor(w, clients))[Terminate(ws)]
      == if w == ws && w in clients && !clients[w].isAlive then 1 else 0
  {
  }

  lemma MultisetConcatCount<T>(a: seq<T>, b: seq<T>, x: T)
    ensures multiset(a + b)[x] == multiset(a)[x] + multiset(b)[x]
  {
  }

  /** In one `ping` round every tracked socket of the server's set is pinged
      exactly once, and terminated (once) exactly when it had not answered
      the previous ping; untracked sockets get nothing. */
  lemma {:induction false} PingFramesPerSocket(live: seq<Socket>, clients: map<Socket, ConnectionMetadata>, ws: Socket)
    requires NoDup(live)
    ensures multiset(PingFrames(live, clients))[PingFrame(ws)]
      == if ws in live && ws in clients then 1 else 0
    ensures multiset(PingFrames(live, clients))[Terminate(ws)]
      == if ws in live && ws in clients && !clients[ws].isAlive then 1 else 0
    decreases |live|
  {
    if live != [] {
      var prefix := live[..|live| - 1];
      var w := live[|live| - 1];
      assert NoDup(prefix) && (ws == w ==> ws !in prefix) by {
        LastNotInPrefix(live);
      }
      assert ws in live <==> ws in prefix || ws == w by {
        assert live == prefix + [w];
      }
      PingFramesPerSocket(prefix, clients, ws);
      PingFramesForCounts(w, clients, ws);
      var a, b := PingFrames(prefix, clients), PingFramesFor(w, clients);
      assert PingFrames(live, clients) == a + b;
      MultisetConcatCount(a, b, PingFrame(ws));
      MultisetConcatCount(a, b, Terminate(ws));
    }
  }
}
