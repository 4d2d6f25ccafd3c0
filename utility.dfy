/**
 * The `bitset!` macro of src/utility.rs: a newtype over a `u8` whose named
 * flags are single bits.  The generated `get_<flag>` / `with_<flag>` pair
 * of a flag at bit `b` is `GetFlag(b)` / `WithFlag(b, v)` here; StatusFlags
 * and Pins instantiate it with their own bit positions.
 *
 * The Rust struct is `Copy`, so `set`, `set_raw` and `replace`, which update
 * `self.0` in place, are functions returning the updated value; the owner
 * stores that value back into its field.
 */
module Utility {
  import opened Bytes

  datatype Bitset = Bitset(raw: u8)
  {
    /** `get_raw` */
    function GetRaw(): (r: u8)
      ensures r == raw
    {
      raw
    }

    /** `set_raw`: the new value holds exactly `r`. */
    function SetRaw(r: u8): (b: Bitset)
      ensures b.GetRaw() == r
    {
      Bitset(r)
    }

    /** `get(mask)`: the bits of the value selected by `mask`. */
    function Get(mask: u8): (r: u8)
      ensures forall n: nat | n < 8 :: BitOf(r, n) <==> BitOf(raw, n) && BitOf(mask, n)
    {
      AndBits(raw, mask);
      And8(raw, mask)
    }

    /** `set(mask)`: ORs `mask` in. */
    function Set(mask: u8): (b: Bitset)
      ensures forall n: nat | n < 8 :: BitOf(b.raw, n) <==> BitOf(raw, n) || BitOf(mask, n)
    {
      OrBits(raw, mask);
      Bitset(Or8(raw, mask))
    }

    /** `replace(other)`: takes over `other`'s raw value. */
    function Replace(other: Bitset): (b: Bitset)
      ensures b.raw == other.raw
    {
      Bitset(other.raw)
    }

    /** `get_<flag>` for the flag at bit `bit`: `(self.0 & (1 << bit)) != 0`. */
    function GetFlag(bit: nat): (r: bool)
      requires bit < 8
      ensures r <==> BitOf(raw, bit)
    {
      MaskBit(raw, bit);
      And8(raw, Mask(bit)) != 0
    }

    /** `with_<flag>(value)`: ORs the flag's bit in, or ANDs its complement. */
    function WithFlag(bit: nat, value: bool): (b: Bitset)
      requires bit < 8
      ensures BitOf(b.raw, bit) == value
      ensures forall n: nat | n < 8 && n != bit :: BitOf(b.raw, n) == BitOf(raw, n)
    {
      if value then
        OrBits(raw, Mask(bit));
        MaskBits(bit);
        Bitset(Or8(raw, Mask(bit)))
      else
        AndBits(raw, Not8(Mask(bit)));
        ComplementAll(Mask(bit));
        MaskBits(bit);
        Bitset(And8(raw, Not8(Mask(bit))))
    }
  }

  /** `new()` */
  function New(): (b: Bitset)
    ensures b.GetRaw() == 0
    ensures forall n: nat | n < 8 :: !b.GetFlag(n)
  {
    forall n: nat | n < 8
      ensures !BitOf(0, n)
    {
      ZeroBits(n);
    }
    Bitset(0)
  }

  /** `from(state)` */
  function From(state: u8): (b: Bitset)
    ensures b.GetRaw() == state
  {
    Bitset(state)
  }

  lemma AndBits(a: u8, b: u8)
    ensures forall n: nat | n < 8 :: BitOf(And8(a, b), n) <==> BitOf(a, n) && BitOf(b, n)
  {
    forall n: nat | n < 8
      ensures BitOf(And8(a, b), n) <==> BitOf(a, n) && BitOf(b, n)
    {
      AndNBits(a, b, 8, n);
    }
  }

  lemma OrBits(a: u8, b: u8)
    ensures forall n: nat | n < 8 :: BitOf(Or8(a, b), n) <==> BitOf(a, n) || BitOf(b, n)
  {
    forall n: nat | n < 8
      ensures BitOf(Or8(a, b), n) <==> BitOf(a, n) || BitOf(b, n)
    {
      OrNBits(a, b, 8, n);
    }
  }

  lemma ComplementAll(a: u8)
    ensures forall n: nat | n < 8 :: BitOf(Not8(a), n) <==> !BitOf(a, n)
  {
    forall n: nat | n < 8
      ensures BitOf(Not8(a), n) <==> !BitOf(a, n)
    {
      NotBits(a, n);
    }
  }

  lemma MaskBits(bit: nat)
    requires bit < 8
    ensures forall n: nat | n < 8 :: BitOf(Mask(bit), n) <==> n == bit
  {
    forall n: nat | n < 8
      ensures BitOf(Mask(bit), n) <==> n == bit
    {
      PowBits(bit, n);
    }
  }

  lemma MaskBit(a: u8, bit: nat)
    requires bit < 8
    ensures And8(a, Mask(bit)) != 0 <==> BitOf(a, bit)
  {
    AndBits(a, Mask(bit));
    MaskBits(bit);
    ZeroBits(bit);
    if !BitOf(a, bit) {
      forall n: nat | n < 8
        ensures BitOf(And8(a, Mask(bit)), n) == BitOf(0, n)
      {
        ZeroBits(n);
      }
      BitsDetermine8(And8(a, Mask(bit)), 0);
    }
  }

  // ---------------------------------------------------------------------
  // Properties of the generated methods.

  /** Reading a flag back after writing it returns the written value. */
  lemma GetAfterWith(s: Bitset, f: nat, v: bool)
    requires f < 8
    ensures s.WithFlag(f, v).GetFlag(f) == v
  {
  }

  /** Writing one flag leaves every other flag as it was. */
  lemma WithLeavesOthers(s: Bitset, f: nat, g: nat, v: bool)
    requires f < 8 && g < 8 && f != g
    ensures s.WithFlag(f, v).GetFlag(g) == s.GetFlag(g)
  {
  }

  /** `set(mask)` never clears a bit. */
  lemma SetNeverClears(s: Bitset, mask: u8, n: nat)
    requires n < 8 && s.GetFlag(n)
    ensures s.Set(mask).GetFlag(n)
  {
  }

  /** `set(mask)` is idempotent. */
  lemma {:induction false} SetIdempotent(s: Bitset, mask: u8)
    ensures s.Set(mask).Set(mask) == s.Set(mask)
  {
    var once, twice := s.Set(mask), s.Set(mask).Set(mask);
    forall n: nat | n < 8
      ensures BitOf(twice.raw, n) == BitOf(once.raw, n)
    {
    }
    BitsDetermine8(twice.raw, once.raw);
  }

  /** `set(0)` changes nothing. */
  lemma SetZero(s: Bitset)
    ensures s.Set(0) == s
  {
    forall n: nat | n < 8
      ensures BitOf(s.Set(0).raw, n) == BitOf(s.raw, n)
    {
      ZeroBits(n);
    }
    BitsDetermine8(s.Set(0).raw, s.raw);
  }
}
