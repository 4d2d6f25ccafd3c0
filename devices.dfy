/**
 * The device map shared by system/src/memory.rs and src/bus.rs: devices
 * registered on half-open address ranges, which the Rust code keeps in a
 * `Vec` and indexes with an `IntervalTree` rebuilt from that `Vec` after
 * every registration.  A device is an abstract handle; what it answers to
 * a read is a function of the writes forwarded to it so far.
 */
module Devices {
  import opened Bytes
  import opened Wrappers

  /** `Range<u16>`: the addresses `start <= a < end`. */
  datatype Range = Range(start: u16, end: u16)
  {
    predicate Covers(a: int)
    {
      start <= a < end
    }
  }

  /**
   * The overlap test of `IntervalTree::query`: two half-open ranges share
   * an address.  An empty range overlaps nothing.
   */
  predicate Overlaps(r: Range, q: Range)
  {
    r.start < q.end && q.start < r.end
  }

  type DeviceId = nat

  /** An entry of the `devices` vector. */
  datatype Mapped = Mapped(range: Range, id: DeviceId)

  /** A write the bus forwarded to a device. */
  datatype Forwarded = Forwarded(id: DeviceId, address: u16, data: u8)

  /** What device `id` answers at an address, given the writes forwarded so far. */
  type Reader = (DeviceId, seq<Forwarded>, u16) -> u8

  /** No two registered ranges overlap: what `register_device` maintains. */
  ghost predicate Disjoint(devices: seq<Mapped>)
  {
    forall i, j | 0 <= i < j < |devices| :: !Overlaps(devices[i].range, devices[j].range)
  }

  /** Whether `query(range)` finds any registered device. */
  predicate AnyOverlap(devices: seq<Mapped>, range: Range)
  {
    exists i | 0 <= i < |devices| :: Overlaps(devices[i].range, range)
  }

  /**
   * `query(address..address + 1)`, collected: the devices covering
   * `address`, in registration order.
   */
  function DevicesAt(devices: seq<Mapped>, address: u16): (r: seq<DeviceId>)
    ensures |r| <= |devices|
    ensures forall id | id in r :: exists i | 0 <= i < |devices| :: devices[i].id == id && devices[i].range.Covers(address)
    ensures |r| == 0 <==> forall i | 0 <= i < |devices| :: !devices[i].range.Covers(address)
  {
    if |devices| == 0 then []
    else
      var rest := DevicesAt(devices[1..], address);
      assert forall i | 1 <= i < |devices| :: devices[i] == devices[1..][i - 1];
      if devices[0].range.Covers(address) then [devices[0].id] + rest else rest
  }

  /** A device found at an address is the first registered device covering it. */
  lemma {:induction false} DevicesAtFirst(devices: seq<Mapped>, address: u16, i: nat)
    requires i < |devices| && devices[i].range.Covers(address)
    requires forall j | 0 <= j < i :: !devices[j].range.Covers(address)
    ensures |DevicesAt(devices, address)| > 0 && DevicesAt(devices, address)[0] == devices[i].id
  {
    if i > 0 {
      assert forall j | 0 <= j < i - 1 :: devices[1..][j] == devices[j + 1];
      DevicesAtFirst(devices[1..], address, i - 1);
    }
  }

  /**
   * `assert!(devices.len() <= 1)` of `get_device_or_none` holds: with
   * disjoint ranges, at most one device covers any address.
   */
  lemma {:induction false} AtMostOneDevice(devices: seq<Mapped>, address: u16)
    requires Disjoint(devices)
    ensures |DevicesAt(devices, address)| <= 1
  {
    if |devices| > 0 {
      var tail := devices[1..];
      assert forall i | 0 <= i < |tail| :: tail[i] == devices[i + 1];
      assert Disjoint(tail);
      AtMostOneDevice(tail, address);
      if devices[0].range.Covers(address) {
        forall i | 0 <= i < |tail|
          ensures !tail[i].range.Covers(address)
        {
          assert !Overlaps(devices[0].range, devices[i + 1].range);
        }
      }
    }
  }

  /** `get_device_or_none(address)`: the one device covering `address`, if any. */
  function DeviceAt(devices: seq<Mapped>, address: u16): (r: Option<DeviceId>)
    requires Disjoint(devices)
    ensures r.None? <==> forall i | 0 <= i < |devices| :: !devices[i].range.Covers(address)
    ensures r.Some? ==> exists i | 0 <= i < |devices| :: devices[i].id == r.value && devices[i].range.Covers(address)
  {
    AtMostOneDevice(devices, address);
    var found := DevicesAt(devices, address);
    if |found| == 0 then None else assert found[0] in found; Some(found[0])
  }

  /** A device registered without overlap keeps the ranges disjoint. */
  lemma RegisterKeepsDisjoint(devices: seq<Mapped>, m: Mapped)
    requires Disjoint(devices) && !AnyOverlap(devices, m.range)
    ensures Disjoint(devices + [m])
  {
    var d := devices + [m];
    forall i, j | 0 <= i < j < |d|
      ensures !Overlaps(d[i].range, d[j].range)
    {
      if j == |devices| {
        assert !Overlaps(devices[i].range, m.range);
      }
    }
  }

  /** The devices at an address after one more registration. */
  lemma {:induction false} DevicesAtAppend(devices: seq<Mapped>, m: Mapped, address: u16)
    ensures DevicesAt(devices + [m], address) ==
      DevicesAt(devices, address) + (if m.range.Covers(address) then [m.id] else [])
  {
    if |devices| > 0 {
      assert (devices + [m])[1..] == devices[1..] + [m];
      DevicesAtAppend(devices[1..], m, address);
    }
  }

  /** Registering without overlap does not change the device an address is already mapped to. */
  lemma RegisterKeepsDevice(devices: seq<Mapped>, m: Mapped, address: u16)
    requires Disjoint(devices) && !AnyOverlap(devices, m.range)
    requires DeviceAt(devices, address).Some?
    ensures Disjoint(devices + [m])
    ensures DeviceAt(devices + [m], address) == DeviceAt(devices, address)
  {
    RegisterKeepsDisjoint(devices, m);
    DevicesAtAppend(devices, m, address);
    var i :| 0 <= i < |devices| && devices[i].range.Covers(address);
    assert !Overlaps(devices[i].range, m.range);
  }
}
