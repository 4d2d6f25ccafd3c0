/**
 * cpu/src/registers.rs: the `Register<T>` wrapper (instantiated at `u8`
 * and `u16`), the register file `Registers`, and the bit layout of the
 * `StatusFlags` bit set.
 */
module Registers {
  import opened Bytes
  import opened Utility

  /**
   * A register of 8 or 16 bits.  `modulus` is 2^width and stands for the
   * Rust type parameter `T` (`u8` or `u16`).
   */
  class Register {
    const modulus: nat
    var value: nat

    ghost predicate Valid()
      reads this
    {
      (modulus == 256 || modulus == 0x1_0000) && value < modulus
    }

    /** `Register::new(value)` */
    constructor (modulus: nat, value: nat)
      requires modulus == 256 || modulus == 0x1_0000
      requires value < modulus
      ensures Valid()
      ensures this.modulus == modulus && this.value == value
    {
      this.modulus := modulus;
      this.value := value;
    }

    /** `get` */
    function Get(): nat
      reads this
    {
      value
    }

    /** `set`: `get` afterwards returns `v`. */
    method Set(v: nat)
      requires Valid() && v < modulus
      modifies this
      ensures Valid() && Get() == v
    {
      value := v;
    }

    /** `update(updater)`: stores `updater(old)` and returns it. */
    method Update(updater: nat -> nat) returns (r: nat)
      requires Valid()
      requires forall v: nat :: v < modulus ==> updater(v) < modulus
      modifies this
      ensures Valid()
      ensures Get() == updater(old(Get())) && r == Get()
    {
      value := updater(value);
      return value;
    }

    /**
     * `safe_add(b)`: `checked_add`, falling back on `wrapping_add` with the
     * carry set when the sum does not fit.
     */
    function SafeAdd(b: nat): (r: (nat, bool))
      requires Valid() && b < modulus
      reads this
      ensures r.0 == (value + b) % modulus
      ensures r.1 <==> value + b >= modulus
    {
      if value + b < modulus then (value + b, false) else (value + b - modulus, true)
    }

    /** `get_lo_byte` of a `u16` register. */
    function GetLoByte(): u8
      requires Valid() && modulus == 0x1_0000
      reads this
    {
      value % 256
    }

    /** `get_hi_byte` of a `u16` register. */
    function GetHiByte(): u8
      requires Valid() && modulus == 0x1_0000
      reads this
    {
      value / 256
    }

    /** `get_bytes` of a `u16` register: `to_le_bytes`, low byte first. */
    function GetBytes(): (r: seq<u8>)
      requires Valid() && modulus == 0x1_0000
      reads this
      ensures |r| == 2 && r[0] as int + 256 * r[1] as int == value
      ensures r[0] == GetLoByte() && r[1] == GetHiByte()
    {
      [Lo(value), Hi(value)]
    }
  }

  /** The value of the register file, used by the specifications. */
  datatype RegsVal = RegsVal(acc: u8, y: u8, x: u8, sp: u8, pc: u16)

  /** `Registers`: A, Y, X, SP (8-bit) and PC (16-bit). */
  class Registers {
    const acc: Register
    const y: Register
    const x: Register
    const sp: Register
    const pc: Register

    ghost const Repr: set<object>

    ghost predicate Valid()
      reads this, Repr
    {
      Repr == {acc, y, x, sp, pc} &&
      acc != y && acc != x && acc != sp && acc != pc &&
      y != x && y != sp && y != pc && x != sp && x != pc && sp != pc &&
      acc.modulus == 256 && y.modulus == 256 && x.modulus == 256 && sp.modulus == 256 &&
      pc.modulus == 0x1_0000 &&
      acc.Valid() && y.Valid() && x.Valid() && sp.Valid() && pc.Valid()
    }

    function Val(): (r: RegsVal)
      requires Valid()
      reads this, Repr
    {
      RegsVal(acc.value, y.value, x.value, sp.value, pc.value)
    }

    /** `Registers::new`: every register is zero. */
    constructor ()
      ensures Valid() && fresh(Repr)
      ensures Val() == RegsVal(0, 0, 0, 0, 0)
    {
      acc := new Register(256, 0);
      y := new Register(256, 0);
      x := new Register(256, 0);
      sp := new Register(256, 0);
      pc := new Register(0x1_0000, 0);
      Repr := {acc, y, x, sp, pc};
    }
  }

  /** The named flags of `StatusFlags`. */
  datatype Flag = Carry | Zero | IrqDisable | DecimalMode | BrkCommand | Overflow | Negative

  /** The bit each flag occupies: |N|V| |B|D|I|Z|C|, bit 5 unused. */
  function FlagBit(f: Flag): (b: nat)
    ensures b < 8 && b != 5
  {
    match f
    case Carry => 0
    case Zero => 1
    case IrqDisable => 2
    case DecimalMode => 3
    case BrkCommand => 4
    case Overflow => 6
    case Negative => 7
  }

  /** Distinct flags occupy distinct bits. */
  lemma FlagBitsDistinct(f: Flag, g: Flag)
    requires f != g
    ensures FlagBit(f) != FlagBit(g)
  {
  }

  /** `get_<flag>` of StatusFlags. */
  function GetF(s: Bitset, f: Flag): bool
  {
    s.GetFlag(FlagBit(f))
  }

  /** `with_<flag>` of StatusFlags. */
  function WithF(s: Bitset, f: Flag, v: bool): Bitset
  {
    s.WithFlag(FlagBit(f), v)
  }

  /** Writing a flag sets it to the value written and keeps the others. */
  lemma WithFSpec(s: Bitset, f: Flag, v: bool)
    ensures GetF(WithF(s, f, v), f) == v
    ensures forall g: Flag | g != f :: GetF(WithF(s, f, v), g) == GetF(s, g)
  {
    forall g: Flag | g != f
      ensures GetF(WithF(s, f, v), g) == GetF(s, g)
    {
      FlagBitsDistinct(f, g);
    }
  }
}
