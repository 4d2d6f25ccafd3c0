/**
 * src/bus.rs: the bus of the first emulator, which puts devices over the
 * `Memory` of src/memory.rs.  The `Arc<Mutex<..>>` around the memory is an
 * ordinary reference here: the lock always succeeds.
 */
module Bus {
  import opened Bytes
  import opened Wrappers
  import opened Devices
  import Memory

  class Bus {
    const memory: Memory.Memory
    var devices: seq<Mapped>
    /** The writes forwarded to devices so far, oldest first. */
    var forwarded: seq<Forwarded>
    /** How the devices answer reads. */
    const reader: Reader

    ghost predicate Valid()
      reads this, memory
    {
      memory.Valid() && Disjoint(devices)
    }

    /** `Bus::new(memory)`: no devices. */
    constructor (memory: Memory.Memory, reader: Reader)
      requires memory.Valid()
      ensures Valid() && this.memory == memory && devices == [] && forwarded == []
      ensures this.reader == reader
    {
      this.memory := memory;
      devices := [];
      forwarded := [];
      this.reader := reader;
    }

    /**
     * `register_device(device, range)`: refused (a `panic!` in the source,
     * `false` here, with nothing changed) when `range` overlaps a registered
     * range; otherwise the device is appended.
     */
    method RegisterDevice(id: DeviceId, range: Range) returns (ok: bool)
      requires Valid()
      modifies this
      ensures Valid()
      ensures ok <==> !AnyOverlap(old(devices), range)
      ensures devices == if ok then old(devices) + [Mapped(range, id)] else old(devices)
      ensures forwarded == old(forwarded)
    {
      if AnyOverlap(devices, range) {
        return false;
      }
      RegisterKeepsDisjoint(devices, Mapped(range, id));
      devices := devices + [Mapped(range, id)];
      return true;
    }

    /**
     * `get_device_or_none(address)`; the query range `address..address + 1`
     * overflows at 0xFFFF, hence the bound.
     */
    function GetDeviceOrNone(address: u16): (r: Option<DeviceId>)
      requires Valid() && address < 0xFFFF
      reads this, memory
      ensures r.None? <==> forall i | 0 <= i < |devices| :: !devices[i].range.Covers(address)
      ensures r.Some? ==> exists i | 0 <= i < |devices| :: devices[i].id == r.value && devices[i].range.Covers(address)
    {
      DeviceAt(devices, address)
    }

    /** `read(address)`: the covering device answers; otherwise `memory.read8` does. */
    function Read(address: u16): (v: u8)
      requires Valid() && address <= Memory.SIZE - 1
      reads this, memory
      ensures GetDeviceOrNone(address).None? ==> v == memory.data[address]
      ensures GetDeviceOrNone(address).Some? ==> v == reader(GetDeviceOrNone(address).value, forwarded, address)
    {
      match GetDeviceOrNone(address)
      case Some(id) => reader(id, forwarded, address)
      case None => memory.Read8(address)
    }

    /**
     * `write(address, data)`: the write goes to the covering device, if
     * there is one, and always to `memory.write8`.
     */
    method Write(address: u16, value: u8)
      requires Valid() && address <= Memory.SIZE - 1
      modifies this, memory
      ensures Valid() && memory.data == old(memory.data)[address := value] && devices == old(devices)
      ensures forwarded == old(forwarded) +
        (if old(GetDeviceOrNone(address)).Some? then [Forwarded(old(GetDeviceOrNone(address)).value, address, value)] else [])
      ensures GetDeviceOrNone(address).None? ==> Read(address) == value
    {
      var device := GetDeviceOrNone(address);
      if device.Some? {
        forwarded := forwarded + [Forwarded(device.value, address, value)];
      }
      memory.Write8(address, value);
    }
  }
}
