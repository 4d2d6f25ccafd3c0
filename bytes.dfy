/**
 * Fixed-width machine integers shared by the emulator and the assembler:
 * bytes, 16-bit words, little-endian splitting and the bitwise operators
 * the Rust code applies to `u8` values.
 */
module Bytes {

  type u8 = x: int | 0 <= x < 256
  type u16 = x: int | 0 <= x < 0x1_0000
  type u64 = x: int | 0 <= x < 0x1_0000_0000_0000_0000

  /** 2^n, the weight of bit n. */
  function Pow2(n: nat): (r: nat)
    ensures r >= 1
  {
    if n == 0 then 1 else 2 * Pow2(n - 1)
  }

  /** `u16::from_le_bytes([lo, hi])`. */
  function Word(lo: u8, hi: u8): (w: u16)
    ensures w % 256 == lo && w / 256 == hi
  {
    lo + 256 * hi
  }

  /** Low byte of a word (`(w & 0xff) as u8`). */
  function Lo(w: u16): u8 { w % 256 }

  /** High byte of a word (`(w >> 8) as u8`). */
  function Hi(w: u16): u8 { w / 256 }

  lemma WordSplit(w: u16)
    ensures Word(Lo(w), Hi(w)) == w
  {
  }

  /** Bit n of x. */
  predicate BitOf(x: nat, n: nat)
  {
    if n == 0 then x % 2 == 1 else BitOf(x / 2, n - 1)
  }

  /** Bitwise AND of the low k bits of a and b. */
  function AndN(a: nat, b: nat, k: nat): (r: nat)
    ensures r < Pow2(k)
  {
    if k == 0 then 0 else (if a % 2 == 1 && b % 2 == 1 then 1 else 0) + 2 * AndN(a / 2, b / 2, k - 1)
  }

  /** Bitwise OR of the low k bits of a and b. */
  function OrN(a: nat, b: nat, k: nat): (r: nat)
    ensures r < Pow2(k)
  {
    if k == 0 then 0 else (if a % 2 == 1 || b % 2 == 1 then 1 else 0) + 2 * OrN(a / 2, b / 2, k - 1)
  }

  /** Bitwise XOR of the low k bits of a and b. */
  function XorN(a: nat, b: nat, k: nat): (r: nat)
    ensures r < Pow2(k)
  {
    if k == 0 then 0 else (if (a % 2 == 1) != (b % 2 == 1) then 1 else 0) + 2 * XorN(a / 2, b / 2, k - 1)
  }

  lemma Pow2Eight()
    ensures Pow2(8) == 256
  {
    assert Pow2(1) == 2 && Pow2(2) == 4 && Pow2(4) == 16;
  }

  function And8(a: u8, b: u8): (r: u8)
  {
    Pow2Eight();
    AndN(a, b, 8)
  }

  function Or8(a: u8, b: u8): (r: u8)
  {
    Pow2Eight();
    OrN(a, b, 8)
  }

  function Xor8(a: u8, b: u8): (r: u8)
  {
    Pow2Eight();
    XorN(a, b, 8)
  }

  /** `!a` on a `u8`. */
  function Not8(a: u8): (r: u8)
  {
    255 - a
  }

  /** `1 << n` on a `u8`, for a bit position below 8. */
  function Mask(n: nat): (r: u8)
    requires n < 8
  {
    Pow2Eight();
    Pow2Mono(n, 8);
    Pow2(n)
  }

  lemma {:induction false} Pow2Mono(m: nat, n: nat)
    requires m < n
    ensures Pow2(m) < Pow2(n)
  {
    if m + 1 < n {
      Pow2Mono(m, n - 1);
    }
  }

  // Bit-by-bit readings of the operators.

  lemma {:induction false} AndNBits(a: nat, b: nat, k: nat, n: nat)
    ensures BitOf(AndN(a, b, k), n) <==> n < k && BitOf(a, n) && BitOf(b, n)
  {
    if k == 0 {
      ZeroBits(n);
    } else if n > 0 {
      AndNBits(a / 2, b / 2, k - 1, n - 1);
    }
  }

  lemma {:induction false} OrNBits(a: nat, b: nat, k: nat, n: nat)
    ensures BitOf(OrN(a, b, k), n) <==> n < k && (BitOf(a, n) || BitOf(b, n))
  {
    if k == 0 {
      ZeroBits(n);
    } else if n > 0 {
      OrNBits(a / 2, b / 2, k - 1, n - 1);
    }
  }

  lemma {:induction false} XorNBits(a: nat, b: nat, k: nat, n: nat)
    ensures BitOf(XorN(a, b, k), n) <==> n < k && (BitOf(a, n) != BitOf(b, n))
  {
    if k == 0 {
      ZeroBits(n);
    } else if n > 0 {
      XorNBits(a / 2, b / 2, k - 1, n - 1);
    }
  }

  lemma {:induction false} ZeroBits(n: nat)
    ensures !BitOf(0, n)
  {
    if n > 0 {
      ZeroBits(n - 1);
    }
  }

  /** No bit at or above k is set in a number below 2^k. */
  lemma {:induction false} HighBitsClear(x: nat, k: nat, n: nat)
    requires x < Pow2(k) && k <= n
    ensures !BitOf(x, n)
  {
    if k == 0 {
      ZeroBits(n);
    } else {
      HighBitsClear(x / 2, k - 1, n - 1);
    }
  }

  lemma {:induction false} PowBits(k: nat, n: nat)
    ensures BitOf(Pow2(k), n) <==> n == k
  {
    if k == 0 {
      if n > 0 {
        ZeroBits(n - 1);
      }
    } else if n == 0 {
    } else {
      PowBits(k - 1, n - 1);
    }
  }

  lemma {:induction false} NotBits(a: u8, n: nat)
    requires n < 8
    ensures BitOf(Not8(a), n) <==> !BitOf(a, n)
  {
    ComplementBits(a, 8, n);
    Pow2Eight();
  }

  lemma {:induction false} ComplementBits(a: nat, k: nat, n: nat)
    requires a < Pow2(k) && n < k
    ensures BitOf(Pow2(k) - 1 - a, n) <==> !BitOf(a, n)
  {
    if n > 0 {
      ComplementBits(a / 2, k - 1, n - 1);
      assert (Pow2(k) - 1 - a) / 2 == Pow2(k - 1) - 1 - a / 2;
    }
  }

  /** Two numbers below 2^k with the same k low bits are equal. */
  lemma {:induction false} BitsDetermine(a: nat, b: nat, k: nat)
    requires a < Pow2(k) && b < Pow2(k)
    requires forall n: nat | n < k :: BitOf(a, n) == BitOf(b, n)
    ensures a == b
  {
    if k > 0 {
      forall n: nat | n < k - 1
        ensures BitOf(a / 2, n) == BitOf(b / 2, n)
      {
        assert BitOf(a, n + 1) == BitOf(b, n + 1);
      }
      BitsDetermine(a / 2, b / 2, k - 1);
      assert BitOf(a, 0) == BitOf(b, 0);
    }
  }

  lemma BitsDetermine8(a: u8, b: u8)
    requires forall n: nat | n < 8 :: BitOf(a, n) == BitOf(b, n)
    ensures a == b
  {
    Pow2Eight();
    BitsDetermine(a, b, 8);
  }

  /** The top bit of a number below 2^(n+1) is set iff it is at least 2^n. */
  lemma {:induction false} TopBit(x: nat, n: nat)
    requires x < Pow2(n + 1)
    ensures BitOf(x, n) <==> x >= Pow2(n)
  {
    if n > 0 {
      TopBit(x / 2, n - 1);
    }
  }

  /** Bit 7 of a byte is its sign. */
  lemma Bit7(a: u8)
    ensures BitOf(a, 7) <==> a >= 128
  {
    Pow2Eight();
    assert Pow2(7) == 128;
    TopBit(a, 7);
  }

  /** Bit 0 of a byte is its parity. */
  lemma Bit0(a: u8)
    ensures BitOf(a, 0) <==> a % 2 == 1
  {
  }

  /** `a << 1` on a `u8`: the top bit falls off. */
  function Shl1(a: u8): (r: u8)
  {
    (2 * a) % 256
  }

  /** `a >> 1` on a `u8`. */
  function Shr1(a: u8): (r: u8)
  {
    a / 2
  }

  /** `a.rotate_left(1)`. */
  function Rotl1(a: u8): (r: u8)
  {
    (2 * a) % 256 + a / 128
  }

  /** `a.rotate_right(1)`. */
  function Rotr1(a: u8): (r: u8)
  {
    a / 2 + 128 * (a % 2)
  }

  /** The value of `a as i8`: two's-complement reading of a byte. */
  function Signed(a: u8): (r: int)
    ensures -128 <= r < 128
    ensures r % 256 == a
  {
    if a < 128 then a else a - 256
  }

  /** Whether bit 7 is set, i.e. `(a as i8) < 0`. */
  predicate Negative(a: u8)
  {
    a >= 128
  }
}
