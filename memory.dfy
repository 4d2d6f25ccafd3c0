/**
 * src/memory.rs: the flat RAM of the first emulator, `u16::MAX` = 65535
 * bytes, so the top address 0xFFFF is outside it.  Every access checks
 * its index with an `assert!`, which is a precondition here.
 */
module Memory {
  import opened Bytes
  import opened Wrappers

  /** `usize::from(u16::MAX)` */
  const SIZE: nat := 0xFFFF

  /** Why `load_rom` refused an image. */
  datatype LoadError = BadAddress | TooLarge

  class Memory {
    const size: nat
    var data: seq<u8>

    ghost predicate Valid()
      reads this
    {
      size == SIZE && |data| == size
    }

    /** `Memory::new()`: 65535 zero bytes. */
    constructor ()
      ensures Valid()
      ensures forall a | 0 <= a < SIZE :: data[a] == 0
    {
      size := SIZE;
      data := seq(SIZE, _ => 0);
    }

    /** `read8(address)`, which asserts `address <= size - 1`. */
    function Read8(address: u16): (v: u8)
      requires Valid() && address <= size - 1
      reads this
    {
      data[address]
    }

    /** `write8(address, value)`: exactly one byte changes. */
    method Write8(address: u16, value: u8)
      requires Valid() && address <= size - 1
      modifies this
      ensures Valid() && data == old(data)[address := value]
      ensures Read8(address) == value
      ensures forall a: u16 | a <= size - 1 && a != address :: Read8(a) == old(Read8(a))
    {
      data := data[address := value];
    }

    /** `read16(address)`: the little-endian word at `address`, `address + 1`. */
    function Read16(address: u16): (w: u16)
      requires Valid() && address < size - 1
      reads this
      ensures Lo(w) == Read8(address) && Hi(w) == Read8(address + 1)
    {
      Word(data[address], data[address + 1])
    }

    /**
     * `write16(address, value)`: the low byte at `address`, the high byte
     * after it; `read16` then returns `value`.
     */
    method Write16(address: u16, value: u16)
      requires Valid() && address < size - 1
      modifies this
      ensures Valid() && data == old(data)[address := Lo(value)][address + 1 := Hi(value)]
      ensures Read16(address) == value
    {
      data := data[address := Lo(value)];
      data := data[address + 1 := Hi(value)];
      WordSplit(value);
    }

    /**
     * The checks and the copy of `load_rom(at_address, rom)`, given the
     * image's bytes: the image must start inside memory and fit in what
     * lies above its start; it is then copied byte by byte (as
     * `copy_from_slice` does) and nothing else changes.
     */
    method LoadRom(at: u16, rom: seq<u8>) returns (r: Result<(), LoadError>)
      requires Valid()
      modifies this
      ensures Valid()
      ensures r.Err? <==> at as nat > size || |rom| > size - at as nat
      ensures r.Err? ==> data == old(data) && (r.error == BadAddress <==> at as nat > size)
      ensures r.Ok? ==> data == old(data)[..at] + rom + old(data)[at as nat + |rom|..]
    {
      var addr: nat := at as nat;
      if addr > size {
        return Err(BadAddress);
      }
      if |rom| > size - addr {
        return Err(TooLarge);
      }
      for i := 0 to |rom|
        invariant Valid()
        invariant |data| == |old(data)|
        invariant forall a | 0 <= a < |data| ::
          data[a] == if addr <= a < addr + i then rom[a - addr] else old(data)[a]
      {
        data := data[addr + i := rom[i]];
      }
      ghost var want := old(data)[..at] + rom + old(data)[addr + |rom|..];
      assert |want| == |data|;
      assert forall a | 0 <= a < |data| :: data[a] == want[a];
      return Ok(());
    }
  }
}
