/** The RediSearch and stream side of class `redisClient`
    (redisClient.ts): the filter strings it sends, one step of the stream
    tailing loop, and the fan-out over all stream keys. Every reply of the
    server is an input. */
module RedisClient {
  import opened Wrappers
  import opened JsBuiltins
  import opened DeviceTypes

  const Topic := "lafleet/devices/location/+/streaming"
  const LimitOffset: nat := 0
  const LimitCount: nat := 250
  const ShapeTypeIndex := "shape-type-idx"
  const TopicH3Index := "topic-h3-idx"
  const TopicLngLatIndex := "topic-lnglat-idx"

  // ---------------------------------------------------------------------
  // getShapeType (redisClient.ts:58-68)

  /** The `FT.SEARCH` query of `getShapeType`: the type inside `@type:( )`,
      readable back from the filter. */
  function ShapeTypeFilter(shapeType: string): (r: string)
    ensures |r| == |shapeType| + 8
    ensures r[..7] == "@type:(" && r[|r| - 1] == ')'
    ensures r[7..|r| - 1] == shapeType
  {
    "@type:(" + shapeType + ")"
  }

  lemma ShapeTypeFilterInjective(a: string, b: string)
    requires ShapeTypeFilter(a) == ShapeTypeFilter(b)
    ensures a == b
  {
    assert a == ShapeTypeFilter(a)[7..|ShapeTypeFilter(a)| - 1];
  }

  /** The `RETURN` list of `getShapeType`. */
  const ShapeReturn: seq<string> :=
    ["$.shapeId", "AS", "shapeId", "$.name", "AS", "name", "$.status", "AS", "status"]

  /** `RETURN` is three `(path, "AS", alias)` triples, each path the alias
      under `$.`, for shapeId, name and status in that order. */
  lemma ShapeReturnTriples()
    ensures |ShapeReturn| == 9
    ensures forall t :: 0 <= t < 3 ==>
      ShapeReturn[3 * t + 1] == "AS" && ShapeReturn[3 * t] == "$." + ShapeReturn[3 * t + 2]
    ensures [ShapeReturn[2], ShapeReturn[5], ShapeReturn[8]] == ["shapeId", "name", "status"]
  {
    forall t | 0 <= t < 3
      ensures ShapeReturn[3 * t + 1] == "AS" && ShapeReturn[3 * t] == "$." + ShapeReturn[3 * t + 2]
    {
      if t == 0 {
        assert ShapeReturn[0] == "$." + "shapeId";
      } else if t == 1 {
        assert ShapeReturn[3] == "$." + "name";
      } else {
        assert ShapeReturn[6] == "$." + "status";
      }
    }
  }

  // ---------------------------------------------------------------------
  // aggregate (redisClient.ts:127-149, main.ts:123-125)

  /** The grouped field `"@h3r" + h3resolution`. */
  function H3Field(h3resolution: int): (r: string)
    ensures |r| > 4 && r[..4] == "@h3r" && ParseInt(r[4..]) == Some(h3resolution)
    ensures ' ' !in r
  {
    var num := IntToString(h3resolution);
    var r := "@h3r" + num;
    assert r[4..] == num;
    ParseIntOfIntToString(h3resolution);
    IntToStringHasNoSpace(h3resolution);
    assert ' ' !in "@h3r";
    r
  }

  /** The aggregate filter over a given topic. */
  function AggregateFilterOn(topic: string, h3resolution: int, h3indices: seq<string>): string {
    var h3filter := H3Field(h3resolution) + ":{ " + Join(h3indices, " | ") + " }";
    "@topic:" + topic + " " + h3filter
  }

  /** The filter `aggregate` sends with the fixed topic of redisClient.ts. */
  function AggregateFilter(h3resolution: int, h3indices: seq<string>): string {
    AggregateFilterOn(Topic, h3resolution, h3indices)
  }

  /** The space-separated words the index list contributes: the indices
      with `|` between them, or one empty word for no index. */
  function IndexWords(xs: seq<string>): seq<string>
    decreases |xs|
  {
    if xs == [] then [""]
    else if |xs| == 1 then [xs[0]]
    else [xs[0], "|"] + IndexWords(xs[1..])
  }

  /** The indices sit at the even positions, in order, with `|` at the odd
      ones. */
  lemma {:induction false} IndexWordsShape(xs: seq<string>)
    ensures |IndexWords(xs)| == if xs == [] then 1 else 2 * |xs| - 1
    ensures forall i :: 0 <= i < |xs| ==> IndexWords(xs)[2 * i] == xs[i]
    ensures forall i :: 0 <= i < |xs| - 1 ==> IndexWords(xs)[2 * i + 1] == "|"
    decreases |xs|
  {
    if |xs| >= 2 {
      var rest := IndexWords(xs[1..]);
      IndexWordsShape(xs[1..]);
      var r := IndexWords(xs);
      assert r == [xs[0], "|"] + rest;
      forall i | 1 <= i < |xs| ensures r[2 * i] == xs[i] {
        var j := i - 1;
        assert r[2 * i] == rest[2 * j];
        assert xs[1..][j] == xs[i];
      }
      forall i | 1 <= i < |xs| - 1 ensures r[2 * i + 1] == "|" {
        var j := i - 1;
        assert r[2 * i + 1] == rest[2 * j + 1];
      }
    }
  }

  lemma {:induction false} SplitIndexList(xs: seq<string>, tail: string)
    requires forall i :: 0 <= i < |xs| ==> ' ' !in xs[i]
    ensures Split(Join(xs, " | ") + " " + tail, ' ') == IndexWords(xs) + Split(tail, ' ')
    decreases |xs|
  {
    if xs == [] {
      assert Join(xs, " | ") + " " + tail == "" + [' '] + tail;
      SplitAfterFirst("", ' ', tail);
    } else if |xs| == 1 {
      assert Join(xs, " | ") + " " + tail == xs[0] + [' '] + tail;
      SplitAfterFirst(xs[0], ' ', tail);
    } else {
      var joined := Join(xs[1..], " | ");
      var rest := joined + " " + tail;
      assert Join(xs, " | ") == xs[0] + " | " + joined;
      JoinRegroup(xs[0], joined, tail);
      SplitAfterFirst("|", ' ', rest);
      SplitAfterFirst(xs[0], ' ', "|" + [' '] + rest);
      var w := Split(rest, ' ');
      assert Split(Join(xs, " | ") + " " + tail, ' ') == [xs[0]] + (["|"] + w);
      SplitIndexList(xs[1..], tail);
      assert IndexWords(xs) == [xs[0], "|"] + IndexWords(xs[1..]);
      ConsConcat(xs[0], "|", IndexWords(xs[1..]), Split(tail, ' '));
    }
  }

  lemma JoinRegroup(x: string, joined: string, tail: string)
    ensures x + " | " + joined + " " + tail == x + [' '] + ("|" + [' '] + (joined + " " + tail))
  {
    assert " | " == [' '] + "|" + [' '];
    SpaceRegroup(x, "|", joined + " " + tail, ' ');
  }

  /** `a c b c rest` read as `a`, then `b`, then `rest`. */
  lemma SpaceRegroup<T>(a: seq<T>, b: seq<T>, rest: seq<T>, c: T)
    ensures a + ([c] + b + [c]) + rest == a + [c] + (b + [c] + rest)
  {
  }

  /** Split on spaces, the aggregate filter gives back the topic term, the
      grouped field, and the indices in input order separated by `|`; an
      empty index list leaves one empty word (the filter ends `":{  }"`). */
  lemma AggregateFilterWords(topic: string, h3resolution: int, h3indices: seq<string>)
    requires ' ' !in topic
    requires forall i :: 0 <= i < |h3indices| ==> ' ' !in h3indices[i]
    ensures Split(AggregateFilterOn(topic, h3resolution, h3indices), ' ')
      == ["@topic:" + topic, H3Field(h3resolution) + ":{"] + IndexWords(h3indices) + ["}"]
  {
    var a := "@topic:" + topic;
    var f := H3Field(h3resolution) + ":{";
    var list := Join(h3indices, " | ");
    var body := list + " " + "}";
    NoSpaceInTerms(topic, h3resolution);
    Regroup(a, H3Field(h3resolution), list);
    var whole := AggregateFilterOn(topic, h3resolution, h3indices);
    assert whole == a + [' '] + (f + [' '] + body);
    SplitIndexList(h3indices, "}");
    SplitWithoutSeparator("}", ' ');
    var words := IndexWords(h3indices);
    assert Split(body, ' ') == words + ["}"];
    SplitAfterFirst(f, ' ', body);
    var tail := Split(f + [' '] + body, ' ');
    assert tail == [f] + (words + ["}"]);
    SplitAfterFirst(a, ' ', f + [' '] + body);
    assert Split(whole, ' ') == [a] + tail;
    ConsConcat(a, f, words, ["}"]);
  }

  lemma ConsConcat<T>(a: T, f: T, w: seq<T>, e: seq<T>)
    ensures [a] + ([f] + (w + e)) == [a, f] + w + e
  {
  }

  lemma NoSpaceInTerms(topic: string, h3resolution: int)
    requires ' ' !in topic
    ensures ' ' !in "@topic:" + topic && ' ' !in H3Field(h3resolution) + ":{"
  {
  }

  lemma Regroup(a: string, field: string, list: string)
    ensures a + " " + (field + ":{ " + list + " }") == a + [' '] + ((field + ":{") + [' '] + (list + " " + "}"))
  {
  }

  lemma AggregateFilterEmptyList(h3resolution: int)
    ensures AggregateFilter(h3resolution, []) == "@topic:" + Topic + " " + H3Field(h3resolution) + ":{  }"
  {
  }

  // ---------------------------------------------------------------------
  // search (redisClient.ts:151-169, main.ts:168-169)

  /** The radius filter over a given topic; the numbers are their decimal
      renderings. */
  function SearchFilterOn(topic: string, longitude: string, latitude: string, distance: string, distanceUnit: string): string {
    var lnglatFilter := "@lnglat:[ " + longitude + " " + latitude + " " + distance + " " + distanceUnit + " ]";
    "@topic:" + topic + " " + lnglatFilter
  }

  function SearchFilter(longitude: string, latitude: string, distance: string, distanceUnit: string): string {
    SearchFilterOn(Topic, longitude, latitude, distance, distanceUnit)
  }

  lemma SearchFilterRegroup(topicTerm: string, longitude: string, latitude: string, distance: string, distanceUnit: string)
    ensures topicTerm + " " + ("@lnglat:[ " + longitude + " " + latitude + " " + distance + " " + distanceUnit + " ]")
      == topicTerm + " " + "@lnglat:[" + " " + longitude + " " + latitude + " " + distance + " " + distanceUnit + " " + "]"
  {
    assert "@lnglat:[ " == "@lnglat:[" + " ";
    assert " ]" == " " + "]";
  }

  /** Joining seven words nests to the left, one separator at a time. */
  lemma JoinPrefixes(w: seq<string>)
    requires |w| == 7
    ensures Join(w, " ") == w[0] + " " + w[1] + " " + w[2] + " " + w[3] + " " + w[4] + " " + w[5] + " " + w[6]
  {
    assert Join(w[..1], " ") == w[0];
    JoinSnoc(w[..1], w[1], " ");
    assert w[..1] + [w[1]] == w[..2];
    JoinSnoc(w[..2], w[2], " ");
    assert w[..2] + [w[2]] == w[..3];
    JoinSnoc(w[..3], w[3], " ");
    assert w[..3] + [w[3]] == w[..4];
    JoinSnoc(w[..4], w[4], " ");
    assert w[..4] + [w[4]] == w[..5];
    JoinSnoc(w[..5], w[5], " ");
    assert w[..5] + [w[5]] == w[..6];
    JoinSnoc(w[..6], w[6], " ");
    assert w[..6] + [w[6]] == w;
  }

  /** Split on spaces, the radius filter gives back longitude, latitude,
      distance and unit in that order. */
  lemma SearchFilterWords(topic: string, longitude: string, latitude: string, distance: string, distanceUnit: string)
    requires ' ' !in topic && ' ' !in longitude && ' ' !in latitude && ' ' !in distance && ' ' !in distanceUnit
    ensures Split(SearchFilterOn(topic, longitude, latitude, distance, distanceUnit), ' ')
      == ["@topic:" + topic, "@lnglat:[", longitude, latitude, distance, distanceUnit, "]"]
  {
    var words := ["@topic:" + topic, "@lnglat:[", longitude, latitude, distance, distanceUnit, "]"];
    assert ' ' !in "@lnglat:[" && ' ' !in "]" && ' ' !in "@topic:" + topic;
    SearchFilterRegroup(words[0], longitude, latitude, distance, distanceUnit);
    JoinPrefixes(words);
    SplitJoin(words, ' ');
  }

  // ---------------------------------------------------------------------
  // subscribeToStreamKey (redisClient.ts:82-117)

  /** An `XREAD` call: stream key, start id, `COUNT` and `BLOCK`. */
  datatype XReadRequest = XReadRequest(key: string, id: string, count: nat, block: nat)

  datatype StreamMessage = StreamMessage(id: string, message: StreamRecord)
  datatype StreamReply = StreamReply(name: string, messages: seq<StreamMessage>)

  /** What an `XREAD` call comes back with: it throws, resolves to `null`
      (nothing new within the block time), or resolves to a list of
      streams. */
  datatype ReadResult = ReadFailed | ReadNull | Entries(streams: seq<StreamReply>)

  /** What one loop iteration does: call back with a stream name and a
      record, do nothing, or catch an exception. */
  datatype StepOutcome = Delivered(stream: string, record: StreamRecord) | Idle | Caught

  /** The request every iteration sends: always from `$`, one entry, a
      100 ms block, whatever was delivered before. */
  function ReadRequest(key: string): XReadRequest {
    XReadRequest(key, "$", 1, 100)
  }

  /** One loop iteration after its `XREAD` has settled. A non-null reply
      with no stream (`response[0]` undefined) or whose first stream has no
      message throws a TypeError, which is caught like a failed read. */
  function TailStep(r: ReadResult): (o: StepOutcome)
    ensures o.Delivered? <==> r.Entries? && |r.streams| > 0 && |r.streams[0].messages| > 0
    ensures o.Delivered? ==> o.stream == r.streams[0].name && o.record == r.streams[0].messages[0].message
    ensures o.Idle? <==> r.ReadNull?
  {
    match r
    case ReadFailed => Caught
    case ReadNull => Idle
    case Entries(streams) =>
      if |streams| == 0 || |streams[0].messages| == 0 then Caught
      else Delivered(streams[0].name, streams[0].messages[0].message)
  }

  /** Only the first message of the first stream is delivered: whatever
      follows it in the reply is dropped. */
  lemma TailStepDeliversFirstOnly(name: string, m: StreamMessage, more: seq<StreamMessage>, others: seq<StreamReply>)
    ensures TailStep(Entries([StreamReply(name, [m] + more)] + others)) == Delivered(name, m.message)
  {
  }

  /** The callbacks made over a run of iterations. */
  function Deliveries(replies: seq<ReadResult>): seq<StepOutcome>
    decreases |replies|
  {
    if replies == [] then []
    else
      var last := TailStep(replies[|replies| - 1]);
      Deliveries(replies[..|replies| - 1]) + (if last.Delivered? then [last] else [])
  }

  lemma {:induction false} DeliveriesConcat(a: seq<ReadResult>, b: seq<ReadResult>)
    ensures Deliveries(a + b) == Deliveries(a) + Deliveries(b)
    decreases |b|
  {
    if b == [] {
      assert a + b == a;
    } else {
      var b' := b[..|b| - 1];
      var last := TailStep(b[|b| - 1]);
      var extra := if last.Delivered? then [last] else [];
      assert (a + b)[..|a + b| - 1] == a + b';
      assert (a + b)[|a + b| - 1] == b[|b| - 1];
      assert Deliveries(a + b) == Deliveries(a + b') + extra;
      assert Deliveries(b) == Deliveries(b') + extra;
      DeliveriesConcat(a, b');
    }
  }

  /** At most one callback per read, each carrying the first message of a
      reply that had one. */
  lemma {:induction false} DeliveriesFromReplies(replies: seq<ReadResult>)
    ensures |Deliveries(replies)| <= |replies|
    ensures forall d :: d in Deliveries(replies) ==> d.Delivered? && exists i :: 0 <= i < |replies| && TailStep(replies[i]) == d
    decreases |replies|
  {
    if replies != [] {
      var prefix := replies[..|replies| - 1];
      DeliveriesFromReplies(prefix);
      forall d | d in Deliveries(replies)
        ensures d.Delivered? && exists i :: 0 <= i < |replies| && TailStep(replies[i]) == d
      {
        if d in Deliveries(prefix) {
          var i :| 0 <= i < |prefix| && TailStep(prefix[i]) == d;
          assert replies[i] == prefix[i];
        } else {
          assert TailStep(replies[|replies| - 1]) == d;
        }
      }
    }
  }

  /** A read that delivers nothing (it throws, resolves to `null`, or
      resolves to a reply without a first message) is swallowed: the loop
      goes on and the later reads deliver as if it had not happened. */
  lemma FailedReadIsSkipped(before: seq<ReadResult>, r: ReadResult, after: seq<ReadResult>)
    requires !TailStep(r).Delivered?
    ensures Deliveries(before + [r] + after) == Deliveries(before) + Deliveries(after)
  {
    DeliveriesConcat(before + [r], after);
    DeliveriesConcat(before, [r]);
    assert Deliveries([r]) == [] by {
      assert [r][..0] == [];
    }
  }

  /** The first `|replies|` iterations of the endless tailing loop of
      `key`, the i-th read settling as `replies[i]`: the requests sent and
      the callbacks made. */
  method SubscribeToStreamKey(key: string, replies: seq<ReadResult>)
      returns (requests: seq<XReadRequest>, delivered: seq<StepOutcome>)
    ensures |requests| == |replies|
    ensures forall i :: 0 <= i < |requests| ==> requests[i] == XReadRequest(key, "$", 1, 100)
    ensures delivered == Deliveries(replies)
  {
    requests, delivered := [], [];
    var i := 0;
    while i < |replies|
      invariant 0 <= i <= |replies|
      invariant |requests| == i
      invariant forall j :: 0 <= j < i ==> requests[j] == ReadRequest(key)
      invariant delivered == Deliveries(replies[..i])
    {
      requests := requests + [ReadRequest(key)];
      var outcome := TailStep(replies[i]);
      if outcome.Delivered? {
        delivered := delivered + [outcome];
      }
      assert replies[..i + 1][..i] == replies[..i];
      i := i + 1;
    }
    assert replies[..i] == replies;
  }

  // ---------------------------------------------------------------------
  // getAllStreamKeys and subscribeToAllStreams (redisClient.ts:70-80, 120-125)

  /** The `SCAN` options: stream-typed keys matching `STREAMDEV:*`, 20 per
      batch. */
  datatype ScanOptions = ScanOptions(keyType: string, pattern: string, count: nat)
  const StreamScan := ScanOptions("stream", "STREAMDEV:*", 20)

  /** `getAllStreamKeys` over the keys the scan iterator yields. */
  method GetAllStreamKeys(scanned: seq<string>) returns (keys: seq<string>)
    ensures keys == scanned
  {
    keys := [];
    var i := 0;
    while i < |scanned|
      invariant 0 <= i <= |scanned|
      invariant keys == scanned[..i]
    {
      keys := keys + [scanned[i]];
      i := i + 1;
    }
  }

  /** `subscribeToAllStreams`: the keys whose tailing loops it starts, one
      per scanned key, in scan order. */
  method SubscribeToAllStreams(scanned: seq<string>) returns (tails: seq<string>)
    ensures |tails| == |scanned|
    ensures forall i :: 0 <= i < |scanned| ==> tails[i] == scanned[i]
  {
    var keys := GetAllStreamKeys(scanned);
    tails := [];
    var i := 0;
    while i < |keys|
      invariant 0 <= i <= |keys|
      invariant tails == keys[..i]
    {
      tails := tails + [keys[i]];
      i := i + 1;
    }
  }
}
