/** The WebSocket subscription server (class `wsQueries` in wsQueries.ts).
    Each event handler runs to completion on the event loop, so each is one
    method. What the server sends goes to `outbox`; calls that start
    tailing loops in the redis client go to `backend`. */
module WsQueries {
  import opened Wrappers
  import opened JsBuiltins
  import opened DeviceTypes
  import opened WsQueriesSpec

  /** The fan-out loops over a subscriber list (wsQueries.ts:226-233 and
      238-247): for each subscriber, in order, visit every client in
      insertion order. */
  method VisitSubscribersLoop(order: seq<Socket>, clients: map<Socket, ConnectionMetadata>,
                              subs: seq<string>, dedupe: bool, st0: FanState) returns (st: FanState)
    requires Tracked(order, clients)
    ensures st == VisitSubscribers(order, clients, subs, dedupe, st0)
  {
    st := st0;
    var i := 0;
    while i < |subs|
      invariant 0 <= i <= |subs|
      invariant st == VisitSubscribers(order, clients, subs[..i], dedupe, st0)
    {
      var subscriber := subs[i];
      ghost var before := st;
      var j := 0;
      while j < |order|
        invariant 0 <= j <= |order|
        invariant Tracked(order[..j], clients)
        invariant st == VisitClients(order[..j], clients, subscriber, dedupe, before)
      {
        var ws := order[j];
        if clients[ws].id == subscriber && (!dedupe || subscriber !in st.notified) {
          st := FanState(st.notified + [subscriber], st.sends + [ws]);
        }
        assert order[..j + 1][..j] == order[..j];
        j := j + 1;
      }
      assert order[..j] == order;
      assert subs[..i + 1][..i] == subs[..i];
      i := i + 1;
    }
    assert subs[..i] == subs;
  }

  /** The `subscriptionRequest` loop (wsQueries.ts:120-131) over the
      requested keys: a key seen for the first time gets the list `[id]` and
      a tail, otherwise `id` is appended unless present. Returns the new
      subscription map and the keys whose tails it starts, in order. */
  method SubscribeRound(m: map<string, seq<string>>, id: string, streams: seq<string>)
      returns (r: map<string, seq<string>>, started: seq<string>)
    ensures r == SubscribeKeys(m, id, streams)
    ensures started == NewTails(m.Keys, streams)
  {
    r, started := m, [];
    var i := 0;
    while i < |streams|
      invariant 0 <= i <= |streams|
      invariant r == SubscribeKeys(m, id, streams[..i])
      invariant started == NewTails(m.Keys, streams[..i])
    {
      var streamKey := streams[i];
      SubscribeKeysStep(m, id, streams, i);
      if streamKey !in r {
        r := r[streamKey := [id]];
        started := started + [streamKey];
      } else if id !in r[streamKey] {
        r := r[streamKey := r[streamKey] + [id]];
      }
      i := i + 1;
    }
    assert streams[..i] == streams;
  }

  /** The `ping` loop (wsQueries.ts:70-82) over the server's socket set
      `live`, on the client map it starts from. */
  method PingRound(clients: map<Socket, ConnectionMetadata>, live: seq<Socket>)
      returns (c: map<Socket, ConnectionMetadata>, frames: seq<Outgoing>)
    requires NoDup(live)
    ensures c == AfterPing(clients, live)
    ensures frames == PingFrames(live, clients)
  {
    c, frames := clients, [];
    AfterPingNone(c);
    var i := 0;
    while i < |live|
      invariant 0 <= i <= |live|
      invariant c == AfterPing(clients, live[..i])
      invariant frames == PingFrames(live[..i], clients)
    {
      var ws := live[i];
      PingFramesStep(clients, live, i);
      AfterPingStep(clients, live, i);
      AfterPingKeepsIds(clients, live[..i]);
      if ws in c {
        var metadata := c[ws];
        if metadata.isAlive == false {
          frames := frames + [Terminate(ws)];
        }
        c := c[ws := metadata.(isAlive := false)];
        frames := frames + [PingFrame(ws)];
      }
      i := i + 1;
    }
    assert live[..i] == live;
  }

  /** The guarded close-handler loop over one map (wsQueries.ts:157-164):
      every list loses its first occurrence of `id`. */
  method PurgeLists(m: map<string, seq<string>>, id: string) returns (r: map<string, seq<string>>)
    ensures r == Purge(m, id)
  {
    r := m;
    var remaining := m.Keys;
    while remaining != {}
      invariant remaining <= m.Keys
      invariant r.Keys == m.Keys
      invariant forall k :: k in r ==> r[k] == if k in remaining then m[k] else RemoveFirst(m[k], id)
      decreases remaining
    {
      var k :| k in remaining;
      var subs := r[k];
      assert subs == m[k];
      var index := IndexOf(subs, id);
      if index > -1 {
        subs := subs[..index] + subs[index + 1..];
      }
      assert subs == RemoveFirst(m[k], id);
      r := r[k := subs];
      remaining := remaining - {k};
    }
  }

  class WsQueries {
    /** The insertion order of `clients`, which is its iteration order. */
    var order: seq<Socket>
    var clients: map<Socket, ConnectionMetadata>
    /** Stream key to subscriber ids. */
    var subscriptions: map<string, seq<string>>
    /** `'*'` to the ids subscribed to every stream. */
    var subscriptionsToAll: map<string, seq<string>>
    var outbox: seq<Outgoing>
    var backend: seq<BackendCall>

    /** The server's invariant: `order` lists the sockets of `clients` once
        each, connection ids are unique, no subscriber list holds an id
        twice, `subscriptionsToAll` has no key but `'*'`, and every key that
        has a subscriber list has had a tail started. */
    ghost predicate Valid()
      reads this
    {
      && NoDup(order)
      && (forall ws :: ws in clients <==> ws in order)
      && UniqueIds(clients)
      && (forall k :: k in subscriptions ==> NoDup(subscriptions[k]))
      && (forall k :: k in subscriptionsToAll ==> NoDup(subscriptionsToAll[k]))
      && subscriptionsToAll.Keys <= {AllStreamKeys}
      && (forall k :: k in subscriptions ==> TailStream(k) in backend)
      && (AllStreamKeys in subscriptionsToAll ==> TailAllStreams in backend)
    }

    constructor ()
      ensures Valid()
      ensures order == [] && clients == map[]
      ensures subscriptions == map[] && subscriptionsToAll == map[]
      ensures outbox == [] && backend == []
    {
      order, clients := [], map[];
      subscriptions, subscriptionsToAll := map[], map[];
      outbox, backend := [], [];
    }

    /** `onConnection` (wsQueries.ts:86-94): register the socket under a
        fresh id, alive and with no streams, and greet it. */
    method OnConnection(ws: Socket, id: string)
      requires Valid()
      requires ws !in clients
      requires forall s :: s in clients ==> clients[s].id != id
      modifies this
      ensures Valid()
      ensures clients == old(clients)[ws := ConnectionMetadata(id, true, [])]
      ensures order == old(order) + [ws]
      ensures outbox == old(outbox) + [Send(ws, Greeting)]
      ensures subscriptions == old(subscriptions) && subscriptionsToAll == old(subscriptionsToAll)
      ensures backend == old(backend)
    {
      var metadata := ConnectionMetadata(id, true, []);
      clients := clients[ws := metadata];
      order := order + [ws];
      outbox := outbox + [Send(ws, Greeting)];
    }

    /** `heartbeat` (wsQueries.ts:61-67): a pong marks a tracked socket
        alive; a pong from an unknown socket changes nothing. */
    method Heartbeat(ws: Socket)
      requires Valid()
      modifies this
      ensures Valid()
      ensures clients == if ws in old(clients)
        then old(clients)[ws := old(clients)[ws].(isAlive := true)]
        else old(clients)
      ensures order == old(order) && outbox == old(outbox) && backend == old(backend)
      ensures subscriptions == old(subscriptions) && subscriptionsToAll == old(subscriptionsToAll)
    {
      if ws in clients {
        clients := clients[ws := clients[ws].(isAlive := true)];
      }
    }

    /** `ping` (wsQueries.ts:69-84) over the server's socket set `live`:
        a tracked socket that did not answer the last ping is terminated,
        and then, like every tracked socket, marked not alive and pinged. */
    method Ping(live: seq<Socket>)
      requires Valid()
      requires NoDup(live)
      modifies this
      ensures Valid()
      ensures clients == AfterPing(old(clients), live)
      ensures outbox == old(outbox) + PingFrames(live, old(clients))
      ensures order == old(order) && backend == old(backend)
      ensures subscriptions == old(subscriptions) && subscriptionsToAll == old(subscriptionsToAll)
    {
      var c, frames := PingRound(clients, live);
      AfterPingKeepsIds(old(clients), live);
      clients, outbox := c, outbox + frames;
    }

    /** The `message` handler of connection `ws` (wsQueries.ts:102-150). */
    method OnMessage(ws: Socket, msg: Inbound)
      requires Valid()
      requires ws in clients
      modifies this
      ensures Valid()
      ensures clients == old(clients) && order == old(order)
      ensures msg.Unparsable? ==>
        outbox == old(outbox) && backend == old(backend)
        && subscriptions == old(subscriptions) && subscriptionsToAll == old(subscriptionsToAll)
      ensures msg.Request? && IsUnknownType(msg.msgType) ==>
        outbox == old(outbox) + [Send(ws, NotFoundReply)] && backend == old(backend)
        && subscriptions == old(subscriptions) && subscriptionsToAll == old(subscriptionsToAll)
      ensures msg.Request? && msg.msgType == Some("subscriptionRequest") ==>
        outbox == old(outbox) && subscriptionsToAll == old(subscriptionsToAll)
        && if msg.streams.None? then
             subscriptions == old(subscriptions) && backend == old(backend)
           else
             subscriptions == SubscribeKeys(old(subscriptions), old(clients)[ws].id, msg.streams.value)
             && backend == old(backend) + TailCalls(NewTails(old(subscriptions).Keys, msg.streams.value))
      ensures msg.Request? && msg.msgType == Some("subscriptionToAllRequest") ==>
        outbox == old(outbox) && subscriptions == old(subscriptions)
        && subscriptionsToAll == AddSubscriber(old(subscriptionsToAll), AllStreamKeys, old(clients)[ws].id)
        && backend == old(backend) + (if AllStreamKeys in old(subscriptionsToAll) then [] else [TailAllStreams])
    {
      var id := clients[ws].id;
      match msg {
        case Unparsable =>
        case Request(msgType, streams) =>
          if IsUnknownType(msgType) {
            outbox := outbox + [Send(ws, NotFoundReply)];
          } else if msgType.value == "subscriptionRequest" {
            if streams.Some? {
              SubscriptionRequest(id, streams.value);
            }
          } else {
            SubscriptionToAllRequest(id);
          }
      }
    }

    /** The `subscriptionRequest` case (wsQueries.ts:119-131). */
    method SubscriptionRequest(id: string, streams: seq<string>)
      requires Valid()
      modifies this
      ensures Valid()
      ensures subscriptions == SubscribeKeys(old(subscriptions), id, streams)
      ensures backend == old(backend) + TailCalls(NewTails(old(subscriptions).Keys, streams))
      ensures clients == old(clients) && order == old(order) && outbox == old(outbox)
      ensures subscriptionsToAll == old(subscriptionsToAll)
    {
      var subs, started := SubscribeRound(subscriptions, id, streams);
      SubscribeKeysSubscribes(subscriptions, id, streams);
      SubscribeKeysDomain(subscriptions, id, streams);
      NewTailsOncePerNewKey(subscriptions.Keys, streams);
      var calls := TailCalls(started);
      forall k | k in started ensures TailStream(k) in calls {
        var j :| 0 <= j < |started| && started[j] == k;
        assert calls[j] == TailStream(k);
      }
      subscriptions := subs;
      backend := backend + calls;
    }

    /** The `subscriptionToAllRequest` case (wsQueries.ts:134-144). */
    method SubscriptionToAllRequest(id: string)
      requires Valid()
      modifies this
      ensures Valid()
      ensures subscriptionsToAll == AddSubscriber(old(subscriptionsToAll), AllStreamKeys, id)
      ensures backend == old(backend) + (if AllStreamKeys in old(subscriptionsToAll) then [] else [TailAllStreams])
      ensures clients == old(clients) && order == old(order) && outbox == old(outbox)
      ensures subscriptions == old(subscriptions)
    {
      if AllStreamKeys !in subscriptionsToAll {
        subscriptionsToAll := subscriptionsToAll[AllStreamKeys := [id]];
        backend := backend + [TailAllStreams];
      } else if id !in subscriptionsToAll[AllStreamKeys] {
        NoDupConcat(subscriptionsToAll[AllStreamKeys], [id]);
        subscriptionsToAll := subscriptionsToAll[AllStreamKeys := subscriptionsToAll[AllStreamKeys] + [id]];
      }
    }

    /** The `close` handler (wsQueries.ts:152-179). Its cleanup is guarded
        by `keys.length > 0`, which reads `MapKeysArity` and is false, so
        only the liveness flag changes: the id stays in both maps and the
        socket stays in `clients`. */
    method OnClose(ws: Socket)
      requires Valid()
      requires ws in clients
      modifies this
      ensures Valid()
      ensures clients == old(clients)[ws := old(clients)[ws].(isAlive := false)]
      ensures subscriptions == old(subscriptions) && subscriptionsToAll == old(subscriptionsToAll)
      ensures order == old(order) && outbox == old(outbox) && backend == old(backend)
    {
      var metadata := clients[ws];
      clients := clients[ws := metadata.(isAlive := false)];
      var subs := subscriptions;
      if MapKeysArity > 0 {
        subs := PurgeLists(subs, metadata.id);
      }
      var subsToAll := subscriptionsToAll;
      if MapKeysArity > 0 {
        subsToAll := PurgeLists(subsToAll, metadata.id);
      }
      subscriptions, subscriptionsToAll := subs, subsToAll;
    }

    /** The close handler's guarded body, run on its own: the id leaves
        every subscriber list of both maps; no key is removed. */
    method PurgeSubscriber(id: string)
      requires Valid()
      modifies this
      ensures Valid()
      ensures subscriptions == Purge(old(subscriptions), id)
      ensures subscriptionsToAll == Purge(old(subscriptionsToAll), id)
      ensures clients == old(clients) && order == old(order)
      ensures outbox == old(outbox) && backend == old(backend)
    {
      PurgeRemovesSubscriber(subscriptions, id);
      PurgeRemovesSubscriber(subscriptionsToAll, id);
      subscriptions := PurgeLists(subscriptions, id);
      subscriptionsToAll := PurgeLists(subscriptionsToAll, id);
    }

    /** `unsubscribeToStreamKey` (wsQueries.ts:182-190): both deletions are
        guarded by `keys.length > 0`, so nothing changes. */
    method UnsubscribeToStreamKey(streamKey: string)
      requires Valid()
      modifies this
      ensures Valid()
      ensures subscriptions == old(subscriptions) && subscriptionsToAll == old(subscriptionsToAll)
      ensures clients == old(clients) && order == old(order)
      ensures outbox == old(outbox) && backend == old(backend)
    {
      var subs := subscriptions;
      if MapKeysArity > 0 {
        subs := subs - {streamKey};
      }
      var subsToAll := subscriptionsToAll;
      if MapKeysArity > 0 {
        subsToAll := subsToAll - {streamKey};
      }
      subscriptions, subscriptionsToAll := subs, subsToAll;
    }

    /** The guarded body of `unsubscribeToStreamKey`, run on its own. */
    method DropStreamKey(streamKey: string)
      requires Valid()
      modifies this
      ensures Valid()
      ensures subscriptions == old(subscriptions) - {streamKey}
      ensures subscriptionsToAll == old(subscriptionsToAll) - {streamKey}
      ensures clients == old(clients) && order == old(order)
      ensures outbox == old(outbox) && backend == old(backend)
    {
      subscriptions := subscriptions - {streamKey};
      subscriptionsToAll := subscriptionsToAll - {streamKey};
    }

    /** `newStreamCreated` (wsQueries.ts:53-55): start a tail for the key. */
    method NewStreamCreated(streamId: string)
      requires Valid()
      modifies this
      ensures Valid()
      ensures backend == old(backend) + [TailStream(streamId)]
      ensures clients == old(clients) && order == old(order) && outbox == old(outbox)
      ensures subscriptions == old(subscriptions) && subscriptionsToAll == old(subscriptionsToAll)
    {
      backend := backend + [TailStream(streamId)];
    }

    /** `oldStreamRemoved` (wsQueries.ts:57-59) delegates to
        `unsubscribeToStreamKey`, so it changes nothing either. */
    method OldStreamRemoved(streamId: string)
      requires Valid()
      modifies this
      ensures Valid()
      ensures subscriptions == old(subscriptions) && subscriptionsToAll == old(subscriptionsToAll)
      ensures clients == old(clients) && order == old(order)
      ensures outbox == old(outbox) && backend == old(backend)
    {
      UnsubscribeToStreamKey(streamId);
    }

    /** `processMessage` (wsQueries.ts:197-249): build the payload and send
        it to the all-subscribers, then to the stream's subscribers not
        already notified. Liveness is not consulted. */
    method ProcessMessage(stream: string, rec: StreamRecord)
      requires Valid()
      modifies this
      ensures Valid()
      ensures outbox == old(outbox) + UpdateFrames(
        Fanout(order, clients, SubscribersOf(subscriptionsToAll, AllStreamKeys), SubscribersOf(subscriptions, stream)),
        ToUpdate(stream, rec))
      ensures NoDup(Fanout(order, clients, SubscribersOf(subscriptionsToAll, AllStreamKeys), SubscribersOf(subscriptions, stream)))
      ensures forall ws :: (ws in Fanout(order, clients, SubscribersOf(subscriptionsToAll, AllStreamKeys), SubscribersOf(subscriptions, stream))
        <==> ws in order && (clients[ws].id in SubscribersOf(subscriptionsToAll, AllStreamKeys)
                             || clients[ws].id in SubscribersOf(subscriptions, stream)))
      ensures clients == old(clients) && order == old(order) && backend == old(backend)
      ensures subscriptions == old(subscriptions) && subscriptionsToAll == old(subscriptionsToAll)
    {
      FanoutOncePerSubscriber(order, clients, SubscribersOf(subscriptionsToAll, AllStreamKeys), SubscribersOf(subscriptions, stream));
      var payload := ToUpdate(stream, rec);
      assert Tracked(order, clients);
      var st := FanState([], []);
      var allSubscribers := SubscribersOf(subscriptionsToAll, AllStreamKeys);
      if |allSubscribers| > 0 {
        st := VisitSubscribersLoop(order, clients, allSubscribers, false, st);
      }
      var subscribers := SubscribersOf(subscriptions, stream);
      if |subscribers| > 0 {
        st := VisitSubscribersLoop(order, clients, subscribers, true, st);
      }
      outbox := outbox + UpdateFrames(st.sends, payload);
    }
  }
}
