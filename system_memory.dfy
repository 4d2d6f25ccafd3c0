/**
 * system/src/memory.rs: the `Memory` of the `system` crate, 65535 bytes of
 * RAM with devices mapped over address ranges; in the source it is the
 * `Bus` the CPU of cpu/src/cpu.rs reads and writes, while the CPU model
 * runs over the plain 64 KiB `Cpu.Bus`.  A device supplies its own range
 * (`get_range`), passed here with the device's handle.
 */
module SystemMemory {
  import opened Bytes
  import opened Wrappers
  import opened Devices

  /** `usize::from(u16::MAX)` */
  const SIZE: nat := 0xFFFF

  class Memory {
    const size: nat
    var data: seq<u8>
    var devices: seq<Mapped>
    /** The writes forwarded to devices so far, oldest first. */
    var forwarded: seq<Forwarded>
    /** How the devices answer reads. */
    const reader: Reader

    ghost predicate Valid()
      reads this
    {
      size == SIZE && |data| == size && Disjoint(devices)
    }

    /** `Memory::new()`: 65535 zero bytes and no devices. */
    constructor (reader: Reader)
      ensures Valid()
      ensures (forall a | 0 <= a < SIZE :: data[a] == 0) && devices == [] && forwarded == []
      ensures this.reader == reader
    {
      size := SIZE;
      data := seq(SIZE, _ => 0);
      devices := [];
      forwarded := [];
      this.reader := reader;
    }

    /**
     * `register_device(device)`: refused (a `panic!` in the source, `false`
     * here, with nothing changed) when the device's range overlaps a
     * registered one; otherwise the device is appended.
     */
    method RegisterDevice(id: DeviceId, range: Range) returns (ok: bool)
      requires Valid()
      modifies this
      ensures Valid()
      ensures ok <==> !AnyOverlap(old(devices), range)
      ensures devices == if ok then old(devices) + [Mapped(range, id)] else old(devices)
      ensures data == old(data) && forwarded == old(forwarded)
    {
      if AnyOverlap(devices, range) {
        return false;
      }
      RegisterKeepsDisjoint(devices, Mapped(range, id));
      devices := devices + [Mapped(range, id)];
      return true;
    }

    /**
     * `get_device_or_none(address)`; the query range `address..address + 1`
     * overflows at 0xFFFF, hence the bound.
     */
    function GetDeviceOrNone(address: u16): (r: Option<DeviceId>)
      requires Valid() && address < 0xFFFF
      reads this
      ensures r.None? <==> forall i | 0 <= i < |devices| :: !devices[i].range.Covers(address)
      ensures r.Some? ==> exists i | 0 <= i < |devices| :: devices[i].id == r.value && devices[i].range.Covers(address)
    {
      DeviceAt(devices, address)
    }

    /** `read_mem(address)`, which asserts `address <= size - 1`. */
    function ReadMem(address: u16): u8
      requires Valid() && address <= size - 1
      reads this
    {
      data[address]
    }

    /** `write_mem(address, data)` */
    method WriteMem(address: u16, value: u8)
      requires Valid() && address <= size - 1
      modifies this
      ensures Valid() && data == old(data)[address := value]
      ensures devices == old(devices) && forwarded == old(forwarded)
    {
      data := data[address := value];
    }

    /** `Bus::read`: the covering device answers; otherwise RAM does. */
    function Read(address: u16): (v: u8)
      requires Valid() && address <= size - 1
      reads this
      ensures GetDeviceOrNone(address).None? ==> v == data[address]
      ensures GetDeviceOrNone(address).Some? ==> v == reader(GetDeviceOrNone(address).value, forwarded, address)
    {
      match GetDeviceOrNone(address)
      case Some(id) => reader(id, forwarded, address)
      case None => ReadMem(address)
    }

    /**
     * `Bus::write`: the write goes to the covering device, if there is one,
     * and always to RAM.
     */
    method Write(address: u16, value: u8)
      requires Valid() && address <= size - 1
      modifies this
      ensures Valid() && data == old(data)[address := value] && devices == old(devices)
      ensures forwarded == old(forwarded) +
        (if old(GetDeviceOrNone(address)).Some? then [Forwarded(old(GetDeviceOrNone(address)).value, address, value)] else [])
      ensures GetDeviceOrNone(address).None? ==> Read(address) == value
    {
      var device := GetDeviceOrNone(address);
      if device.Some? {
        forwarded := forwarded + [Forwarded(device.value, address, value)];
      }
      WriteMem(address, value);
    }
  }
}
