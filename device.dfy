/** The mock GPS device of utils/device.js: a position that drifts by
    pseudo-random deltas, with timestamps and a sequence number. The ten
    `Math.random() - 0.5` values are a given sequence, `Date.now()` a
    parameter, and numbers are `real`. */
module DeviceSim {
  import opened JsBuiltins

  const MaxLatitude: real := 90.0
  const MinLatitude: real := -90.0
  const MaxLongitude: real := 180.0
  const MinLongitude: real := -180.0
  const WrapLatitude: real := 180.0
  const WrapLongitude: real := 360.0
  const RandomCount: nat := 10

  /** One latitude wrap: a value above the maximum loses 180, one below
      the minimum gains 180. */
  function WrappedLatitude(x: real): (r: real)
    ensures r == x || r == x - WrapLatitude || r == x + WrapLatitude
    ensures MinLatitude <= x <= MaxLatitude ==> r == x
    ensures -270.0 <= x <= 270.0 ==> MinLatitude <= r <= MaxLatitude
  {
    if x > MaxLatitude then x - WrapLatitude
    else if x < MinLatitude then x + WrapLatitude
    else x
  }

  /** One longitude wrap, by 360. */
  function WrappedLongitude(x: real): (r: real)
    ensures r == x || r == x - WrapLongitude || r == x + WrapLongitude
    ensures MinLongitude <= x <= MaxLongitude ==> r == x
    ensures -540.0 <= x <= 540.0 ==> MinLongitude <= r <= MaxLongitude
  {
    if x > MaxLongitude then x - WrapLongitude
    else if x < MinLongitude then x + WrapLongitude
    else x
  }

  /** A negative altitude becomes 0. */
  function ClampedAltitude(x: real): (r: real)
    ensures r >= 0.0
    ensures x >= 0.0 ==> r == x
    ensures x < 0.0 ==> r == 0.0
  {
    if x < 0.0 then 0.0 else x
  }

  /** Starting in range, a latitude step of at most 180 and a longitude
      step of at most 360 stay in range. */
  lemma StepStaysInRange(latitude: real, latitudeDelta: real, longitude: real, longitudeDelta: real)
    requires MinLatitude <= latitude <= MaxLatitude && -180.0 <= latitudeDelta <= 180.0
    requires MinLongitude <= longitude <= MaxLongitude && -360.0 <= longitudeDelta <= 360.0
    ensures MinLatitude <= WrappedLatitude(latitude + latitudeDelta) <= MaxLatitude
    ensures MinLongitude <= WrappedLongitude(longitude + longitudeDelta) <= MaxLongitude
  {
  }

  /** The position after index `i` of the ring, wrapping after the last. */
  function NextIndex(i: nat): (r: nat)
    requires i < RandomCount
    ensures r < RandomCount
    ensures r == (i + 1) % RandomCount
  {
    if i + 1 == RandomCount then 0 else i + 1
  }

  class Device {
    var latitude: real
    var longitude: real
    var altitude: real
    var battery: int
    var deviceId: string
    var firmwareVersion: string
    var devTs: int
    var srvTs: int
    var wrkTs: int
    var seqNo: int
    var randomIndex: nat
    /** `RandomNumbers`, shared by every device. */
    const randomNumbers: seq<real>

    /** The ring index stays within the ten values, and the altitude is
        never negative. */
    ghost predicate Valid()
      reads this
    {
      |randomNumbers| == RandomCount && randomIndex < RandomCount && altitude >= 0.0
    }

    /** Latitude and longitude within their bounds. */
    ghost predicate InRange()
      reads this
    {
      MinLatitude <= latitude <= MaxLatitude && MinLongitude <= longitude <= MaxLongitude
    }

    /** `new Device(index)` at time `now`. */
    constructor (index: nat, now: int, randoms: seq<real>)
      requires |randoms| == RandomCount
      ensures Valid() && InRange()
      ensures deviceId == "test-00" + NatToString(index)
      ensures latitude == 45.508888 && longitude == -73.561668 && altitude == 12.34
      ensures battery == 100 && firmwareVersion == "0.0.1"
      ensures devTs == now - 500 && srvTs == devTs + 200 && wrkTs == srvTs + 200
      ensures seqNo == -1 && randomIndex == 0
      ensures randomNumbers == randoms
    {
      latitude, longitude, altitude := 45.508888, -73.561668, 12.34;
      battery := 100;
      firmwareVersion := "0.0.1";
      var dev := now - 500;
      devTs := dev;
      srvTs := dev + 200;
      wrkTs := dev + 400;
      seqNo := -1;
      randomIndex := 0;
      randomNumbers := randoms;
      deviceId := "test-00" + NatToString(index);
    }

    /** `Move` at time `now`. */
    method Move(latitudeDelta: real, longitudeDelta: real, altitudeDelta: real, now: int)
      requires Valid()
      modifies this
      ensures Valid()
      ensures latitude == WrappedLatitude(old(latitude) + latitudeDelta)
      ensures longitude == WrappedLongitude(old(longitude) + longitudeDelta)
      ensures altitude == ClampedAltitude(old(altitude) + altitudeDelta)
      ensures devTs == now - 500 && srvTs == devTs + 200 && wrkTs == srvTs + 200
      ensures seqNo == old(seqNo) + 1
      ensures randomIndex == old(randomIndex) && deviceId == old(deviceId)
      ensures battery == old(battery) && firmwareVersion == old(firmwareVersion)
    {
      var newLatitude := latitude + latitudeDelta;
      if newLatitude > MaxLatitude {
        newLatitude := newLatitude - WrapLatitude;
      } else if newLatitude < MinLatitude {
        newLatitude := newLatitude + WrapLatitude;
      }
      var newLongitude := longitude + longitudeDelta;
      if newLongitude > MaxLongitude {
        newLongitude := newLongitude - WrapLongitude;
      } else if newLongitude < MinLongitude {
        newLongitude := newLongitude + WrapLongitude;
      }
      var newAltitude := altitude + altitudeDelta;
      if newAltitude < 0.0 {
        newAltitude := 0.0;
      }
      latitude, longitude, altitude := newLatitude, newLongitude, newAltitude;
      devTs := now - 500;
      srvTs := devTs + 200;
      wrkTs := srvTs + 200;
      seqNo := seqNo + 1;
    }

    /** `GetNextRandom`: the value under the ring index, which then moves
        on, from the last value back to the first. */
    method GetNextRandom() returns (random: real)
      requires Valid()
      modifies this
      ensures Valid()
      ensures random == randomNumbers[old(randomIndex)]
      ensures randomIndex == (old(randomIndex) + 1) % RandomCount
      ensures latitude == old(latitude) && longitude == old(longitude) && altitude == old(altitude)
      ensures devTs == old(devTs) && srvTs == old(srvTs) && wrkTs == old(wrkTs) && seqNo == old(seqNo)
      ensures deviceId == old(deviceId) && battery == old(battery) && firmwareVersion == old(firmwareVersion)
    {
      random := randomNumbers[randomIndex];
      randomIndex := randomIndex + 1;
      if randomIndex == |randomNumbers| {
        randomIndex := 0;
      }
    }

    /** `MoveRandomly` at time `now`: the next three ring values are the
        latitude, longitude and altitude deltas, in that order. */
    method MoveRandomly(now: int)
      requires Valid()
      modifies this
      ensures Valid()
      ensures latitude == WrappedLatitude(old(latitude) + randomNumbers[old(randomIndex)])
      ensures longitude == WrappedLongitude(old(longitude) + randomNumbers[(old(randomIndex) + 1) % RandomCount])
      ensures altitude == ClampedAltitude(old(altitude) + randomNumbers[(old(randomIndex) + 2) % RandomCount])
      ensures randomIndex == (old(randomIndex) + 3) % RandomCount
      ensures devTs == now - 500 && srvTs == devTs + 200 && wrkTs == srvTs + 200
      ensures seqNo == old(seqNo) + 1
      ensures deviceId == old(deviceId) && battery == old(battery) && firmwareVersion == old(firmwareVersion)
      ensures old(InRange()) && (forall i :: 0 <= i < RandomCount ==> -0.5 <= randomNumbers[i] <= 0.5) ==> InRange()
    {
      var latDelta := GetNextRandom();
      var lonDelta := GetNextRandom();
      var altDelta := GetNextRandom();
      Move(latDelta, lonDelta, altDelta, now);
    }
  }
}
