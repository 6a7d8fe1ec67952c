/** The mock producer utils/streamDevLocToRedis.js: every period it moves
    three devices and writes each one's location as a hash (`DEVLOC:` key)
    and as a stream entry (`STREAMDEV:` key), which is what the WebSocket
    server tails. Number formatting and H3 cell computation are foreign
    and come in as functions. */
module DevLocProducer {
  import opened Wrappers
  import opened JsBuiltins
  import opened DeviceTypes
  import opened DeviceSim
  import WsQueriesSpec

  const Topic := "lafleet/devices/location/+/streaming"

  /** The hash key of a device. */
  function HashKey(deviceId: string): string {
    "DEVLOC:" + deviceId + ":" + Topic
  }

  /** The stream key: the hash key with its first `DEVLOC` replaced. */
  function StreamKeyFor(hashKey: string): string {
    ReplaceFirst(hashKey, "DEVLOC", "STREAMDEV")
  }

  /** The replacement hits the leading `DEVLOC`, so the stream key is
      `STREAMDEV:` + device id + `:` + topic. */
  lemma StreamKeyOfHashKey(deviceId: string)
    ensures StreamKeyFor(HashKey(deviceId)) == "STREAMDEV:" + deviceId + ":" + Topic
  {
    var k := HashKey(deviceId);
    assert k[..6] == "DEVLOC";
    assert k[6..] == ":" + deviceId + ":" + Topic;
  }

  /** What the server extracts from the stream key is the producer's
      device id, for any id without a `:`. */
  lemma DeviceIdRoundTrip(deviceId: string)
    requires ':' !in deviceId
    ensures WsQueriesSpec.DeviceIdOf(StreamKeyFor(HashKey(deviceId))) == Some(deviceId)
  {
    StreamKeyOfHashKey(deviceId);
    var pre, rest := "STREAMDEV", deviceId + [':'] + Topic;
    SplitAfterFirst(deviceId, ':', Topic);
    StreamPrefix();
    KeyRegroup(pre, "STREAMDEV:", deviceId, Topic);
    WsQueriesSpec.DeviceIdIsSecondSegment(pre, rest);
  }

  lemma StreamPrefix()
    ensures ':' !in "STREAMDEV" && "STREAMDEV" + ":" == "STREAMDEV:"
  {
  }

  lemma KeyRegroup(a: string, a1: string, b: string, c: string)
    requires a + ":" == a1
    ensures a1 + b + ":" + c == a + ":" + (b + [':'] + c)
  {
  }

  /** The `h3r2` written for a device: a fixed cell per id. The cell that
      `h3.geoToH3(lat, lng, 2)` computes just before is always overwritten,
      so it takes no part here. */
  function H3r2(deviceId: string): (r: string)
    ensures deviceId == "test-001" ==> r == "822b87fffffffff"
    ensures deviceId == "test-002" ==> r == "822baffffffffff"
    ensures deviceId != "test-001" && deviceId != "test-002" ==> r == "822bafffffffffe"
  {
    if deviceId == "test-001" then "822b87fffffffff"
    else if deviceId == "test-002" then "822baffffffffff"
    else "822bafffffffffe"
  }

  /** The stream entry; every value is a string. */
  function StreamPayload(dts: int, sts: int, wts: int, rts: int, seqNo: int,
                         lng: string, lat: string, alt: string, h3r15: string): StreamRecord
  {
    map["dts" := IntToString(dts), "sts" := IntToString(sts), "wts" := IntToString(wts),
        "rts" := IntToString(rts), "seq" := IntToString(seqNo),
        "lng" := lng, "lat" := lat, "alt" := alt, "h3r15" := h3r15]
  }

  /** The stream entry has exactly nine fields, and no `state`. */
  lemma StreamPayloadFields(dts: int, sts: int, wts: int, rts: int, seqNo: int,
                            lng: string, lat: string, alt: string, h3r15: string)
    ensures StreamPayload(dts, sts, wts, rts, seqNo, lng, lat, alt, h3r15).Keys
      == {"dts", "sts", "wts", "rts", "seq", "lng", "lat", "alt", "h3r15"}
    ensures "state" !in StreamPayload(dts, sts, wts, rts, seqNo, lng, lat, alt, h3r15)
  {
  }

  /** The device timestamp and the sequence number are written as decimal
      text that parses back to them. */
  lemma StreamPayloadNumbers(dts: int, sts: int, wts: int, rts: int, seqNo: int,
                             lng: string, lat: string, alt: string, h3r15: string)
    ensures var r := StreamPayload(dts, sts, wts, rts, seqNo, lng, lat, alt, h3r15);
      "dts" in r && "seq" in r && ParseInt(r["dts"]) == Some(dts) && ParseInt(r["seq"]) == Some(seqNo)
  {
    ParseIntOfIntToString(dts);
    ParseIntOfIntToString(seqNo);
  }

  /** The coordinates and the finest H3 cell are written as given. */
  lemma StreamPayloadText(dts: int, sts: int, wts: int, rts: int, seqNo: int,
                          lng: string, lat: string, alt: string, h3r15: string)
    ensures var r := StreamPayload(dts, sts, wts, rts, seqNo, lng, lat, alt, h3r15);
      && "lng" in r && r["lng"] == lng && "lat" in r && r["lat"] == lat
      && "alt" in r && r["alt"] == alt && "h3r15" in r && r["h3r15"] == h3r15
  {
  }

  /** What the server forwards for an entry written here: the producer's
      device id, timestamp, sequence number and coordinates, and no state. */
  lemma ConsumerSeesProducer(deviceId: string, dts: int, sts: int, wts: int, rts: int, seqNo: int,
                             lng: string, lat: string, alt: string, h3r15: string)
    requires ':' !in deviceId
    ensures WsQueriesSpec.ToUpdate(StreamKeyFor(HashKey(deviceId)), StreamPayload(dts, sts, wts, rts, seqNo, lng, lat, alt, h3r15))
      == StreamDevLocationUpdate(Some(deviceId), Some(dts), Some(seqNo), Some(lng), Some(lat), Some(alt), Some(h3r15), None)
  {
    DeviceIdRoundTrip(deviceId);
    StreamPayloadFields(dts, sts, wts, rts, seqNo, lng, lat, alt, h3r15);
    StreamPayloadNumbers(dts, sts, wts, rts, seqNo, lng, lat, alt, h3r15);
    StreamPayloadText(dts, sts, wts, rts, seqNo, lng, lat, alt, h3r15);
  }

  /** A number as `toString()` renders it. */
  type NumberText = real -> string
  /** `h3.geoToH3(lat, lng, resolution)`. */
  type GeoToH3 = (real, real, nat) -> string

  /** What one `publishToRedisForDevice` writes: the hash key with the
      `h3r2` cell stored in the hash, and the stream entry under its key. */
  datatype Publication = Publication(hashKey: string, h3r2: string, streamKey: string, entry: StreamRecord)

  /** The device fields a publication reads. */
  datatype DeviceState = DeviceState(deviceId: string, latitude: real, longitude: real, altitude: real,
                                     devTs: int, srvTs: int, wrkTs: int, seqNo: int,
                                     battery: int, firmwareVersion: string)

  /** The publication for a device in state `d` (after its move), at
      time `rts`. */
  function PublicationOf(d: DeviceState, rts: int, text: NumberText, geo: GeoToH3): (p: Publication)
    ensures p.streamKey == "STREAMDEV:" + d.deviceId + ":" + Topic
    ensures p.hashKey == "DEVLOC:" + d.deviceId + ":" + Topic
    ensures p.entry.Keys == {"dts", "sts", "wts", "rts", "seq", "lng", "lat", "alt", "h3r15"}
    ensures p.h3r2 == H3r2(d.deviceId)
    ensures "dts" in p.entry && ParseInt(p.entry["dts"]) == Some(d.devTs)
    ensures "seq" in p.entry && ParseInt(p.entry["seq"]) == Some(d.seqNo)
    ensures "h3r15" in p.entry && p.entry["h3r15"] == geo(d.latitude, d.longitude, 15)
  {
    var key := HashKey(d.deviceId);
    StreamKeyOfHashKey(d.deviceId);
    var lng, lat, alt, h3r15 := text(d.longitude), text(d.latitude), text(d.altitude), geo(d.latitude, d.longitude, 15);
    StreamPayloadFields(d.devTs, d.srvTs, d.wrkTs, rts, d.seqNo, lng, lat, alt, h3r15);
    StreamPayloadNumbers(d.devTs, d.srvTs, d.wrkTs, rts, d.seqNo, lng, lat, alt, h3r15);
    StreamPayloadText(d.devTs, d.srvTs, d.wrkTs, rts, d.seqNo, lng, lat, alt, h3r15);
    Publication(
      key,
      H3r2(d.deviceId),
      StreamKeyFor(key),
      StreamPayload(d.devTs, d.srvTs, d.wrkTs, rts, d.seqNo, lng, lat, alt, h3r15))
  }

  /** One `MoveRandomly` at time `now`: from state `d` with ring index `i`
      over `randoms` to state `e` with ring index `j`. The next three ring
      values are the latitude, longitude and altitude deltas; the
      timestamps restart from `now`, the sequence number goes up by one,
      and the id, battery and firmware are kept. */
  ghost predicate MovedRandomly(d: DeviceState, i: nat, randoms: seq<real>, now: int, e: DeviceState, j: nat) {
    && |randoms| == RandomCount && i < RandomCount
    && e.latitude == WrappedLatitude(d.latitude + randoms[i])
    && e.longitude == WrappedLongitude(d.longitude + randoms[(i + 1) % RandomCount])
    && e.altitude == ClampedAltitude(d.altitude + randoms[(i + 2) % RandomCount])
    && j == (i + 3) % RandomCount
    && e.devTs == now - 500 && e.srvTs == e.devTs + 200 && e.wrkTs == e.srvTs + 200
    && e.seqNo == d.seqNo + 1
    && e.deviceId == d.deviceId && e.battery == d.battery && e.firmwareVersion == d.firmwareVersion
  }

  /** `publishToRedisForDevice`: the device moves once at time `now`, and
      the publication describes the moved device, with `rts` as the stream
      entry's read timestamp. */
  method PublishToRedisForDevice(device: Device, now: int, rts: int, text: NumberText, geo: GeoToH3)
      returns (p: Publication)
    requires device.Valid()
    modifies device
    ensures device.Valid()
    ensures MovedRandomly(old(StateOf(device)), old(device.randomIndex), device.randomNumbers, now,
                          StateOf(device), device.randomIndex)
    ensures p == PublicationOf(StateOf(device), rts, text, geo)
  {
    ghost var before, index := StateOf(device), device.randomIndex;
    device.MoveRandomly(now);
    assert MovedRandomly(before, index, device.randomNumbers, now, StateOf(device), device.randomIndex);
    p := PublicationOf(StateOf(device), rts, text, geo);
  }

  function StateOf(device: Device): DeviceState
    reads device
  {
    DeviceState(device.deviceId, device.latitude, device.longitude, device.altitude,
                device.devTs, device.srvTs, device.wrkTs, device.seqNo, device.battery, device.firmwareVersion)
  }

  /** `publishToRedis`: device 1, 2 and 3, in that order, each moved once.
      Each device's `Date.now()` readings (`nowK` for the move, `rtsK` for
      the entry) are its own. */
  method PublishToRedis(device1: Device, device2: Device, device3: Device,
                        now1: int, rts1: int, now2: int, rts2: int, now3: int, rts3: int,
                        text: NumberText, geo: GeoToH3)
      returns (ps: seq<Publication>)
    requires device1 != device2 && device2 != device3 && device1 != device3
    requires device1.Valid() && device2.Valid() && device3.Valid()
    modifies device1, device2, device3
    ensures device1.Valid() && device2.Valid() && device3.Valid()
    ensures MovedRandomly(old(StateOf(device1)), old(device1.randomIndex), device1.randomNumbers, now1,
                          StateOf(device1), device1.randomIndex)
    ensures MovedRandomly(old(StateOf(device2)), old(device2.randomIndex), device2.randomNumbers, now2,
                          StateOf(device2), device2.randomIndex)
    ensures MovedRandomly(old(StateOf(device3)), old(device3.randomIndex), device3.randomNumbers, now3,
                          StateOf(device3), device3.randomIndex)
    ensures ps == [PublicationOf(StateOf(device1), rts1, text, geo),
                   PublicationOf(StateOf(device2), rts2, text, geo),
                   PublicationOf(StateOf(device3), rts3, text, geo)]
  {
    ghost var d1, i1 := StateOf(device1), device1.randomIndex;
    ghost var d2, i2 := StateOf(device2), device2.randomIndex;
    ghost var d3, i3 := StateOf(device3), device3.randomIndex;
    var p1 := PublishToRedisForDevice(device1, now1, rts1, text, geo);
    ghost var e1, j1 := StateOf(device1), device1.randomIndex;
    var p2 := PublishToRedisForDevice(device2, now2, rts2, text, geo);
    ghost var e2, j2 := StateOf(device2), device2.randomIndex;
    assert StateOf(device1) == e1 && device1.randomIndex == j1;
    var p3 := PublishToRedisForDevice(device3, now3, rts3, text, geo);
    assert StateOf(device1) == e1 && device1.randomIndex == j1;
    assert StateOf(device2) == e2 && device2.randomIndex == j2;
    ps := [p1, p2, p3];
  }

  /** Devices built with indices 1, 2 and 3 are `test-001`, `test-002` and
      `test-003`, with the first, second and third fixed `h3r2` cells. */
  lemma ProducerDeviceIds()
    ensures "test-00" + NatToString(1) == "test-001"
    ensures "test-00" + NatToString(2) == "test-002"
    ensures "test-00" + NatToString(3) == "test-003"
    ensures H3r2("test-003") == "822bafffffffffe"
  {
  }
}
