/**
 * src/instructions.rs: the `Value` arithmetic helpers and the `*_impl`
 * instruction functions that the micro-op sequences call through
 * `MicroOp::Execute`.
 *
 * `ImplSpec` gives the meaning of every `*_impl` as a function of the
 * register file, the status flags and the context.  It is defined when
 * the context assertions hold (no pop from an empty and no push onto a full
 * context), which `StackFits` states from the per-impl counts `StackUse`.
 * Each `*_impl` is also a method that updates the registers and the context
 * in place and is proved to do what `ImplSpec` says.  An impl receives the
 * CPU as its register file and its status value; the status it leaves is
 * returned, and the caller stores it (the Rust code ends with
 * `cpu.status.replace(status)`).
 */
module Instructions {
  import opened Bytes
  import opened Utility
  import opened Registers
  import opened Microcode

  // ---------------------------------------------------------------------
  // struct Value(u8, StatusFlags)

  datatype Value = Value(v: u8, status: Bitset)

  /** The raw bits of `a` and `b` agree outside the positions in `bits`. */
  ghost predicate SameExcept(a: Bitset, b: Bitset, bits: set<nat>)
  {
    forall n: nat | n < 8 && n !in bits :: BitOf(a.raw, n) == BitOf(b.raw, n)
  }

  /** Z and N describe `v`. */
  ghost predicate ZnOf(s: Bitset, v: u8)
  {
    GetF(s, Zero) == (v == 0) && GetF(s, Negative) == (v >= 128)
  }

  /** `safe_add`: `overflowing_add`, the carry goes to C. */
  function SafeAdd(x: Value, rhs: u8): (r: Value)
    ensures r.v == (x.v + rhs) % 256
    ensures GetF(r.status, Carry) == (x.v + rhs >= 256)
    ensures SameExcept(r.status, x.status, {FlagBit(Carry)})
  {
    var sum := x.v + rhs;
    var (result, carry) := if sum < 256 then (sum, false) else (sum - 256, true);
    Value(result, WithF(x.status, Carry, carry))
  }

  /** The signed difference `(lhs as i8) - (rhs as i8)`, before wrapping. */
  function SignedDiff(lhs: u8, rhs: u8): int
  {
    Signed(lhs) - Signed(rhs)
  }

  /** Whether a signed result does not fit an `i8`. */
  predicate OutOfI8(d: int)
  {
    d < -128 || d > 127
  }

  /** The `i8` an `overflowing_sub` of two `i8`s leaves: the difference wrapped. */
  function WrapI8(d: int): (r: int)
    requires -256 <= d < 256
    ensures -128 <= r < 128 && r % 256 == d % 256
  {
    if d < -128 then d + 256 else if d > 127 then d - 256 else d
  }

  /** `v as u8` for an `i8` value `v`. */
  function AsU8(v: int): (r: u8)
    requires -128 <= v < 128
    ensures r == v % 256
  {
    if v < 0 then v + 256 else v
  }

  /**
   * `safe_sub`: `(lhs as i8).overflowing_sub(rhs as i8)`; the overflow
   * goes to V and the wrapped result is read back as a `u8`.
   */
  function SafeSub(x: Value, rhs: u8): (r: Value)
    ensures r.v == (x.v - rhs) % 256
    ensures GetF(r.status, Overflow) == OutOfI8(SignedDiff(x.v, rhs))
    ensures SameExcept(r.status, x.status, {FlagBit(Overflow)})
  {
    var d := SignedDiff(x.v, rhs);
    var result := WrapI8(d);
    Value(AsU8(result), WithF(x.status, Overflow, OutOfI8(d)))
  }

  /** `carrying_add`: two `overflowing_add`s, the carry-out is either overflow. */
  function CarryingAdd(x: Value, rhs: u8): (r: Value)
    ensures var c := if GetF(x.status, Carry) then 1 else 0;
      r.v == (x.v + rhs + c) % 256 && GetF(r.status, Carry) == (x.v + rhs + c >= 256)
    ensures SameExcept(r.status, x.status, {FlagBit(Carry)})
  {
    var carry := if GetF(x.status, Carry) then 1 else 0;
    var (a, b) := if x.v + rhs < 256 then (x.v + rhs, false) else (x.v + rhs - 256, true);
    var (c, d) := if a + carry < 256 then (a + carry, false) else (a + carry - 256, true);
    Value(c, WithF(x.status, Carry, b || d))
  }

  /**
   * `borrowing_sub`: two signed `overflowing_sub`s with borrow = !C; V is
   * either overflow and C is left alone.  Because the first step may wrap,
   * V is also set when the exact difference is 128 and a borrow brings the
   * true result back to 127.
   */
  function BorrowingSub(x: Value, rhs: u8): (r: Value)
    ensures var borrow := if GetF(x.status, Carry) then 0 else 1;
      r.v == (x.v - rhs - borrow) % 256 &&
      GetF(r.status, Overflow) ==
        (OutOfI8(SignedDiff(x.v, rhs) - borrow) || (SignedDiff(x.v, rhs) == 128 && borrow == 1))
    ensures SameExcept(r.status, x.status, {FlagBit(Overflow)})
    ensures GetF(r.status, Carry) == GetF(x.status, Carry)
  {
    var borrow := if GetF(x.status, Carry) then 0 else 1;
    var d1 := SignedDiff(x.v, rhs);
    var (a, b) := (WrapI8(d1), OutOfI8(d1));
    var (c, d) := (WrapI8(a - borrow), OutOfI8(a - borrow));
    Value(AsU8(c), WithF(x.status, Overflow, b || d))
  }

  /** `update_v_flag`: V is bit 7 of the value. */
  function UpdateVFlag(x: Value): (r: Value)
    ensures r.v == x.v
    ensures GetF(r.status, Overflow) == (x.v >= 128)
    ensures SameExcept(r.status, x.status, {FlagBit(Overflow)})
  {
    Bit7Mask(x.v);
    Value(x.v, WithF(x.status, Overflow, And8(x.v, 0x80) != 0))
  }

  /** `update_z_flag`: Z iff the value is zero. */
  function UpdateZFlag(x: Value): (r: Value)
    ensures r.v == x.v
    ensures GetF(r.status, Zero) == (x.v == 0)
    ensures SameExcept(r.status, x.status, {FlagBit(Zero)})
  {
    Value(x.v, WithF(x.status, Zero, x.v == 0))
  }

  /** `update_zn_flags`: Z iff zero, N iff `(value as i8) < 0`. */
  function UpdateZnFlags(x: Value): (r: Value)
    ensures r.v == x.v
    ensures ZnOf(r.status, x.v)
    ensures SameExcept(r.status, x.status, {FlagBit(Zero), FlagBit(Negative)})
  {
    Value(x.v, WithF(WithF(x.status, Zero, x.v == 0), Negative, Signed(x.v) < 0))
  }

  /** `update_zv_flags`: Z iff zero, V is bit 7. */
  function UpdateZvFlags(x: Value): (r: Value)
    ensures r.v == x.v
    ensures GetF(r.status, Zero) == (x.v == 0) && GetF(r.status, Overflow) == (x.v >= 128)
    ensures SameExcept(r.status, x.status, {FlagBit(Zero), FlagBit(Overflow)})
  {
    Bit7Mask(x.v);
    Value(x.v, WithF(WithF(x.status, Zero, x.v == 0), Overflow, And8(x.v, 0x80) != 0))
  }

  /** `x & 0x80 != 0` tests bit 7. */
  lemma Bit7Mask(x: u8)
    ensures And8(x, 0x80) != 0 <==> x >= 128
  {
    assert Mask(7) == 0x80 by { Pow2Eight(); assert Pow2(7) == 128; }
    MaskBit(x, 7);
    Bit7(x);
  }

  /** `x & 0x40 != 0` tests bit 6. */
  lemma Bit6Mask(x: u8)
    ensures And8(x, 0x40) != 0 <==> BitOf(x, 6)
  {
    assert Mask(6) == 0x40 by { assert Pow2(6) == 64; }
    MaskBit(x, 6);
  }

  /** `x & 0x1 != 0` tests bit 0. */
  lemma Bit0Mask(x: u8)
    ensures And8(x, 0x1) != 0 <==> x % 2 == 1
  {
    assert Mask(0) == 1;
    MaskBit(x, 0);
  }

  // ---------------------------------------------------------------------
  // The meaning of the `*_impl` functions, one function per group of
  // impls that share a shape.

  datatype ImplOut = ImplOut(regs: RegsVal, status: Bitset, ctx: CtxVal)

  /** `b as u8` */
  function B(b: bool): u8 { if b then 1 else 0 }

  /** `adc_impl` on A, the status `p` and the operand `m`. */
  function AdcValue(acc: u8, p: Bitset, m: u8): Value { UpdateZvFlags(CarryingAdd(Value(acc, p), m)) }

  /** `and_impl` */
  function AndValue(acc: u8, p: Bitset, m: u8): Value { UpdateZvFlags(Value(And8(acc, m), p)) }

  /** `eor_impl` */
  function EorValue(acc: u8, p: Bitset, m: u8): Value { UpdateZnFlags(Value(Xor8(acc, m), p)) }

  /** `ora_impl` */
  function OraValue(acc: u8, p: Bitset, m: u8): Value { UpdateZnFlags(Value(Or8(acc, m), p)) }

  /** `sbc_impl` */
  function SbcValue(acc: u8, p: Bitset, m: u8): Value { UpdateVFlag(UpdateZnFlags(BorrowingSub(Value(acc, p), m))) }

  /** ADC, AND, EOR, ORA, SBC: pop M, combine it with A, write A and the status. */
  function AccOp(a: AccInstr, r: RegsVal, p: Bitset, c: CtxVal): (o: ImplOut)
    requires c.Valid() && c.ptr < SIZE
    ensures o.ctx.Valid() && o.ctx.Size() == c.Size() - 1
  {
    var (m, c1) := c.Pop();
    var res := match a
      case Adc => AdcValue(r.acc, p, m)
      case And => AndValue(r.acc, p, m)
      case Eor => EorValue(r.acc, p, m)
      case Ora => OraValue(r.acc, p, m)
      case Sbc => SbcValue(r.acc, p, m);
    ImplOut(r.(acc := res.v), res.status, c1)
  }

  /** `asl_impl` on the status `p` and the operand `m`. */
  function AslValue(p: Bitset, m: u8): Value
  {
    UpdateVFlag(UpdateZnFlags(Value(Shl1(m), WithF(p, Carry, And8(m, 0x80) != 0))))
  }

  /** `lsr_impl` */
  function LsrValue(p: Bitset, m: u8): Value
  {
    UpdateZFlag(Value(Shr1(m), WithF(WithF(p, Carry, And8(m, 0x1) != 0), Negative, false)))
  }

  /** `rol_impl` */
  function RolValue(p: Bitset, m: u8): Value { UpdateZnFlags(Value(Rotl1(m), WithF(p, Carry, And8(m, 0x80) != 0))) }

  /** `ror_impl` */
  function RorValue(p: Bitset, m: u8): Value { UpdateZnFlags(Value(Rotr1(m), WithF(p, Carry, And8(m, 0x1) != 0))) }

  /** `bit_impl`, which also reads A. */
  function BitValue(acc: u8, p: Bitset, m: u8): Value
  {
    UpdateZFlag(Value(And8(acc, m), WithF(WithF(p, Negative, And8(m, 0x80) != 0), Overflow, And8(m, 0x40) != 0)))
  }

  /** `dec_impl`, `dex_impl`, `dey_impl`: `safe_sub` 1, then restore V. */
  function Decrement(v: u8, p: Bitset): Value
  {
    var res := UpdateZnFlags(SafeSub(Value(v, p), 1));
    res.(status := WithF(res.status, Overflow, GetF(p, Overflow)))
  }

  /** `inc_impl`, `inx_impl`, `iny_impl`: `safe_add` 1, then restore C. */
  function Increment(v: u8, p: Bitset): Value
  {
    var res := UpdateZnFlags(SafeAdd(Value(v, p), 1));
    res.(status := WithF(res.status, Carry, GetF(p, Carry)))
  }

  /** ASL, LSR, ROL, ROR, BIT, DEC, INC: pop a byte, push the result, write the status. */
  function ModifyOp(op: ModifyInstr, r: RegsVal, p: Bitset, c: CtxVal): (o: ImplOut)
    requires c.Valid() && c.ptr < SIZE
    ensures o.ctx.Valid() && o.ctx.Size() == c.Size()
  {
    var (m, c1) := c.Pop();
    var res := match op
      case Asl => AslValue(p, m)
      case Lsr => LsrValue(p, m)
      case Rol => RolValue(p, m)
      case Ror => RorValue(p, m)
      case Bit => BitValue(r.acc, p, m)
      case Dec => Decrement(m, p)
      case Inc => Increment(m, p);
    ImplOut(r, res.status, c1.Push(res.v))
  }

  /** The flag each branch tests, and whether it branches when the flag is set. */
  function BranchCondition(b: BranchInstr): (Flag, bool)
  {
    match b
    case Bcc => (Carry, false)
    case Bcs => (Carry, true)
    case Beq => (Zero, true)
    case Bne => (Zero, false)
    case Bmi => (Negative, true)
    case Bpl => (Negative, false)
    case Bvc => (Overflow, false)
    case Bvs => (Overflow, true)
  }

  /** BCC ... BVS: push the branch condition as a byte. */
  function BranchOp(b: BranchInstr, r: RegsVal, p: Bitset, c: CtxVal): (o: ImplOut)
    requires c.Valid() && c.ptr > 0
    ensures o.ctx.Valid() && o.ctx.Size() == c.Size() + 1
  {
    var (f, when) := BranchCondition(b);
    ImplOut(r, p, c.Push(B(GetF(p, f) == when)))
  }

  /** CLC, CLD, CLI, CLV, SEC, SED, SEI: the flag written and its value. */
  function FlagWritten(f: FlagInstr): (Flag, bool)
  {
    match f
    case Clc => (Carry, false)
    case Cld => (DecimalMode, false)
    case Cli => (IrqDisable, false)
    case Clv => (Overflow, false)
    case Sec => (Carry, true)
    case Sed => (DecimalMode, true)
    case Sei => (IrqDisable, true)
  }

  function FlagOp(f: FlagInstr, r: RegsVal, p: Bitset, c: CtxVal): (o: ImplOut)
    ensures o.ctx == c
  {
    var (f, v) := FlagWritten(f);
    ImplOut(r, WithF(p, f, v), c)
  }

  /** The register a compare subtracts from. */
  function CompareReg(k: CompareInstr, r: RegsVal): u8
  {
    match k
    case Cmp => r.acc
    case Cpx => r.x
    case Cpy => r.y
  }

  /** CMP, CPX, CPY: pop M, `safe_sub` it from the register, keep only the status. */
  function CompareOp(k: CompareInstr, r: RegsVal, p: Bitset, c: CtxVal): (o: ImplOut)
    requires c.Valid() && c.ptr < SIZE
    ensures o.ctx.Valid() && o.ctx.Size() == c.Size() - 1
  {
    var (m, c1) := c.Pop();
    ImplOut(r, CompareValue(CompareReg(k, r), p, m).status, c1)
  }

  /** The `Value` a compare computes before it drops the result. */
  function CompareValue(reg: u8, p: Bitset, m: u8): Value { UpdateZnFlags(SafeSub(Value(reg, p), m)) }

  /** DEX, DEY, INX, INY: step X or Y, keeping V (decrements) or C (increments). */
  function StepOp(s: StepInstr, r: RegsVal, p: Bitset, c: CtxVal): (o: ImplOut)
    ensures o.ctx == c
  {
    match s
    case Dex => var res := Decrement(r.x, p); ImplOut(r.(x := res.v), res.status, c)
    case Dey => var res := Decrement(r.y, p); ImplOut(r.(y := res.v), res.status, c)
    case Inx => var res := Increment(r.x, p); ImplOut(r.(x := res.v), res.status, c)
    case Iny => var res := Increment(r.y, p); ImplOut(r.(y := res.v), res.status, c)
  }

  /** LDA, LDX, LDY, PLA: pop a byte into a register. */
  function LoadOp(l: LoadInstr, r: RegsVal, p: Bitset, c: CtxVal): (o: ImplOut)
    requires c.Valid() && c.ptr < SIZE
    ensures o.ctx.Valid() && o.ctx.Size() == c.Size() - 1
  {
    var (m, c1) := c.Pop();
    var r1 := match l
      case Lda => r.(acc := m)
      case Ldx => r.(x := m)
      case Ldy => r.(y := m)
      case Pla => r.(acc := m);
    ImplOut(r1, p, c1)
  }

  /** PHA, PHP, STA, STX, STY: push a register or the raw status. */
  function StoreOp(st: StoreInstr, r: RegsVal, p: Bitset, c: CtxVal): (o: ImplOut)
    requires c.Valid() && c.ptr > 0
    ensures o.ctx.Valid() && o.ctx.Size() == c.Size() + 1
  {
    var b := match st
      case Pha => r.acc
      case Php => p.GetRaw()
      case Sta => r.acc
      case Stx => r.x
      case Sty => r.y;
    ImplOut(r, p, c.Push(b))
  }

  /** PLP: pop the raw status. */
  function PlpOp(r: RegsVal, p: Bitset, c: CtxVal): (o: ImplOut)
    requires c.Valid() && c.ptr < SIZE
    ensures o.ctx.Valid() && o.ctx.Size() == c.Size() - 1
  {
    var (m, c1) := c.Pop();
    ImplOut(r, p.SetRaw(m), c1)
  }

  /** RTI: pop PCH, PCL and the raw status; push PCL, then PCH. */
  function RtiOp(r: RegsVal, p: Bitset, c: CtxVal): (o: ImplOut)
    requires c.Valid() && c.ptr + 3 <= SIZE
    ensures o.ctx.Valid() && o.ctx.Size() == c.Size() - 1
  {
    var (pch, c1) := c.Pop();
    var (pcl, c2) := c1.Pop();
    var (st, c3) := c2.Pop();
    ImplOut(r, p.SetRaw(st), c3.Push(pcl).Push(pch))
  }

  /** The register transfers, as written (TXA reads SP, TYA writes SP). */
  function TransferOp(t: TransferInstr, r: RegsVal, p: Bitset, c: CtxVal): (o: ImplOut)
    ensures o.ctx == c
  {
    var r1 := match t
      case Tax => r.(x := r.acc)
      case Tay => r.(y := r.acc)
      case Tsx => r.(x := r.sp)
      case Txa => r.(acc := r.sp)
      case Txs => r.(sp := r.x)
      case Tya => r.(sp := r.y);
    ImplOut(r1, p, c)
  }

  /** How many bytes `i` pops, then pushes. */
  function StackUse(i: Instr): (r: (nat, nat))
  {
    match i
    case Acc(_) | Compare(_) | Load(_) | Plp => (1, 0)
    case Modify(_) => (1, 1)
    case Branch(_) | Store(_) => (0, 1)
    case Rti => (3, 2)
    case _ => (0, 0)
  }

  /**
   * The context assertions of `push` and `pop` hold throughout the impl:
   * all its pops find a byte and all its pushes, which come after the pops,
   * find room.
   */
  predicate StackFits(i: Instr, c: CtxVal)
    requires c.Valid()
  {
    var (pops, pushes) := StackUse(i);
    pops <= c.Size() && c.Size() - pops + pushes <= SIZE
  }

  /** The effect of the `*_impl` function `i`. */
  function ImplSpec(i: Instr, r: RegsVal, p: Bitset, c: CtxVal): ImplOut
    requires c.Valid() && StackFits(i, c)
  {
    match i
    case Acc(a) => AccOp(a, r, p, c)
    case Modify(m) => ModifyOp(m, r, p, c)
    case Branch(b) => BranchOp(b, r, p, c)
    case FlagWrite(f) => FlagOp(f, r, p, c)
    case Compare(k) => CompareOp(k, r, p, c)
    case Step(s) => StepOp(s, r, p, c)
    case Load(l) => LoadOp(l, r, p, c)
    case Store(st) => StoreOp(st, r, p, c)
    case Transfer(t) => TransferOp(t, r, p, c)
    case Plp => PlpOp(r, p, c)
    case Rti => RtiOp(r, p, c)
    case Brk | Jmp | Jsr | Nop | Rts => ImplOut(r, p, c)  // no `*_impl` effect
  }

  /** Every impl changes the context's size by its pushes minus its pops. */
  lemma ImplStackEffect(i: Instr, r: RegsVal, p: Bitset, c: CtxVal)
    requires c.Valid() && StackFits(i, c)
    ensures ImplSpec(i, r, p, c).ctx.Size() == c.Size() - StackUse(i).0 + StackUse(i).1
  {
  }

  // ---------------------------------------------------------------------
  // What the instructions do.

  // The values the impls compute, one helper lemma per impl.

  lemma AdcValueSpec(acc: u8, p: Bitset, m: u8)
    ensures var res := AdcValue(acc, p, m); var sum := acc + m + (if GetF(p, Carry) then 1 else 0);
      res.v == sum % 256 && GetF(res.status, Carry) == (sum >= 256) &&
      GetF(res.status, Zero) == (sum % 256 == 0) && GetF(res.status, Overflow) == (sum % 256 >= 128) &&
      SameExcept(res.status, p, {FlagBit(Carry), FlagBit(Zero), FlagBit(Overflow)})
  {
  }

  lemma SbcValueSpec(acc: u8, p: Bitset, m: u8)
    ensures var res := SbcValue(acc, p, m);
      var diff := (acc - m - (if GetF(p, Carry) then 0 else 1)) % 256;
      res.v == diff && ZnOf(res.status, diff) && GetF(res.status, Overflow) == (diff >= 128) &&
      SameExcept(res.status, p, {FlagBit(Zero), FlagBit(Negative), FlagBit(Overflow)})
  {
    var zn := UpdateZnFlags(BorrowingSub(Value(acc, p), m));
    var res := UpdateVFlag(zn);
    assert BitOf(res.status.raw, 1) == BitOf(zn.status.raw, 1);
    assert BitOf(res.status.raw, 7) == BitOf(zn.status.raw, 7);
  }

  lemma IncrementSpec(v: u8, p: Bitset)
    ensures var res := Increment(v, p);
      res.v == (v + 1) % 256 && ZnOf(res.status, res.v) && SameExcept(res.status, p, {FlagBit(Zero), FlagBit(Negative)})
  {
    var zn := UpdateZnFlags(SafeAdd(Value(v, p), 1));
    var res := Increment(v, p);
    assert BitOf(res.status.raw, 1) == BitOf(zn.status.raw, 1);
    assert BitOf(res.status.raw, 7) == BitOf(zn.status.raw, 7);
  }

  lemma DecrementSpec(v: u8, p: Bitset)
    ensures var res := Decrement(v, p);
      res.v == (v - 1) % 256 && ZnOf(res.status, res.v) && SameExcept(res.status, p, {FlagBit(Zero), FlagBit(Negative)})
  {
    var zn := UpdateZnFlags(SafeSub(Value(v, p), 1));
    var res := Decrement(v, p);
    assert BitOf(res.status.raw, 1) == BitOf(zn.status.raw, 1);
    assert BitOf(res.status.raw, 7) == BitOf(zn.status.raw, 7);
  }

  lemma CompareValueSpec(reg: u8, p: Bitset, m: u8)
    ensures var res := CompareValue(reg, p, m);
      GetF(res.status, Zero) == (reg == m) && GetF(res.status, Negative) == ((reg - m) % 256 >= 128) &&
      GetF(res.status, Overflow) == OutOfI8(SignedDiff(reg, m)) &&
      SameExcept(res.status, p, {FlagBit(Zero), FlagBit(Negative), FlagBit(Overflow)})
  {
  }

  lemma LsrValueSpec(p: Bitset, m: u8)
    ensures var res := LsrValue(p, m);
      res.v == m / 2 && GetF(res.status, Carry) == (m % 2 == 1) && !GetF(res.status, Negative) &&
      GetF(res.status, Zero) == (m / 2 == 0) &&
      SameExcept(res.status, p, {FlagBit(Carry), FlagBit(Zero), FlagBit(Negative)})
  {
    Bit0Mask(m);
  }

  lemma AslValueSpec(p: Bitset, m: u8)
    ensures var res := AslValue(p, m); var v := (2 * m as int) % 256;
      res.v == v && GetF(res.status, Carry) == (m >= 128) && ZnOf(res.status, v) &&
      GetF(res.status, Overflow) == (v >= 128) &&
      SameExcept(res.status, p, {FlagBit(Carry), FlagBit(Zero), FlagBit(Negative), FlagBit(Overflow)})
  {
    Bit7Mask(m);
  }

  lemma RolValueSpec(p: Bitset, m: u8)
    ensures var res := RolValue(p, m);
      res.v == (2 * m as int) % 256 + m / 128 && GetF(res.status, Carry) == (m >= 128) && ZnOf(res.status, res.v) &&
      SameExcept(res.status, p, {FlagBit(Carry), FlagBit(Zero), FlagBit(Negative)})
  {
    Bit7Mask(m);
  }

  lemma RorValueSpec(p: Bitset, m: u8)
    ensures var res := RorValue(p, m);
      res.v == m / 2 + 128 * (m % 2) && GetF(res.status, Carry) == (m % 2 == 1) && ZnOf(res.status, res.v) &&
      SameExcept(res.status, p, {FlagBit(Carry), FlagBit(Zero), FlagBit(Negative)})
  {
    Bit0Mask(m);
  }

  lemma BitValueSpec(acc: u8, p: Bitset, m: u8)
    ensures var res := BitValue(acc, p, m);
      res.v == And8(acc, m) &&
      GetF(res.status, Negative) == (m >= 128) && GetF(res.status, Overflow) == BitOf(m, 6) &&
      GetF(res.status, Zero) == (And8(acc, m) == 0) &&
      SameExcept(res.status, p, {FlagBit(Zero), FlagBit(Negative), FlagBit(Overflow)})
  {
    Bit7Mask(m);
    Bit6Mask(m);
  }

  // What the instructions do to the registers, the status and the context.

  /** ADC: A = A + M + C mod 256, C = carry-out, Z, and V from bit 7; N is left alone. */
  lemma AdcSpec(r: RegsVal, p: Bitset, c: CtxVal)
    requires c.Valid() && c.ptr < SIZE
    ensures var o := AccOp(Adc, r, p, c); var m := c.Items()[0];
      var sum := r.acc + m + (if GetF(p, Carry) then 1 else 0);
      o.regs == r.(acc := sum % 256) && o.ctx.Items() == c.Items()[1..] &&
      GetF(o.status, Carry) == (sum >= 256) &&
      GetF(o.status, Zero) == (sum % 256 == 0) &&
      GetF(o.status, Overflow) == (sum % 256 >= 128) &&
      SameExcept(o.status, p, {FlagBit(Carry), FlagBit(Zero), FlagBit(Overflow)})
  {
    PopItems(c);
    AdcValueSpec(r.acc, p, c.Items()[0]);
  }

  /** SBC: A = A - M - !C mod 256, Z, N, and V from bit 7; C is left alone. */
  lemma SbcSpec(r: RegsVal, p: Bitset, c: CtxVal)
    requires c.Valid() && c.ptr < SIZE
    ensures var o := AccOp(Sbc, r, p, c); var m := c.Items()[0];
      var diff := (r.acc - m - (if GetF(p, Carry) then 0 else 1)) % 256;
      o.regs == r.(acc := diff) && o.ctx.Items() == c.Items()[1..] &&
      ZnOf(o.status, diff) && GetF(o.status, Overflow) == (diff >= 128) &&
      SameExcept(o.status, p, {FlagBit(Zero), FlagBit(Negative), FlagBit(Overflow)})
  {
    PopItems(c);
    SbcValueSpec(r.acc, p, c.Items()[0]);
  }

  /** AND / EOR / ORA combine A with the popped byte bitwise. */
  lemma LogicSpec(a: AccInstr, r: RegsVal, p: Bitset, c: CtxVal)
    requires a == And || a == Eor || a == Ora
    requires c.Valid() && c.ptr < SIZE
    ensures var o := AccOp(a, r, p, c); var m := c.Items()[0];
      var v := if a == And then And8(r.acc, m) else if a == Eor then Xor8(r.acc, m) else Or8(r.acc, m);
      o.regs == r.(acc := v) && o.ctx.Items() == c.Items()[1..] &&
      GetF(o.status, Zero) == (v == 0) &&
      (a == And ==>
        GetF(o.status, Overflow) == (v >= 128) &&
        SameExcept(o.status, p, {FlagBit(Zero), FlagBit(Overflow)})) &&
      (a != And ==>
        GetF(o.status, Negative) == (v >= 128) &&
        SameExcept(o.status, p, {FlagBit(Zero), FlagBit(Negative)}))
  {
    PopItems(c);
  }

  /** INC adds 1 mod 256 to the popped byte and pushes it, sets Z/N, keeps C. */
  lemma IncSpec(r: RegsVal, p: Bitset, c: CtxVal)
    requires c.Valid() && c.ptr < SIZE
    ensures var o := ModifyOp(Inc, r, p, c); var v := (c.Items()[0] as int + 1) % 256;
      o.regs == r && o.ctx.Items() == [v] + c.Items()[1..] &&
      ZnOf(o.status, v) && SameExcept(o.status, p, {FlagBit(Zero), FlagBit(Negative)})
  {
    var (m, c1) := c.Pop();
    PopItems(c);
    IncrementSpec(m, p);
    PushItems(c1, (m + 1) % 256);
  }

  /** INX / INY add 1 mod 256 to X / Y, set Z/N, keep C. */
  lemma InxInySpec(s: StepInstr, r: RegsVal, p: Bitset, c: CtxVal)
    requires s == Inx || s == Iny
    ensures var o := StepOp(s, r, p, c);
      var v := ((if s == Inx then r.x else r.y) + 1) % 256;
      o.regs == (if s == Inx then r.(x := v) else r.(y := v)) && o.ctx == c &&
      ZnOf(o.status, v) && SameExcept(o.status, p, {FlagBit(Zero), FlagBit(Negative)})
  {
    IncrementSpec(if s == Inx then r.x else r.y, p);
  }

  /** DEC subtracts 1 mod 256 from the popped byte and pushes it, sets Z/N, keeps V. */
  lemma DecSpec(r: RegsVal, p: Bitset, c: CtxVal)
    requires c.Valid() && c.ptr < SIZE
    ensures var o := ModifyOp(Dec, r, p, c); var v := (c.Items()[0] as int - 1) % 256;
      o.regs == r && o.ctx.Items() == [v] + c.Items()[1..] &&
      ZnOf(o.status, v) && SameExcept(o.status, p, {FlagBit(Zero), FlagBit(Negative)})
  {
    var (m, c1) := c.Pop();
    PopItems(c);
    DecrementSpec(m, p);
    PushItems(c1, (m - 1) % 256);
  }

  /** DEX / DEY subtract 1 mod 256 from X / Y, set Z/N, keep V. */
  lemma DexDeySpec(s: StepInstr, r: RegsVal, p: Bitset, c: CtxVal)
    requires s == Dex || s == Dey
    ensures var o := StepOp(s, r, p, c);
      var v := ((if s == Dex then r.x else r.y) - 1) % 256;
      o.regs == (if s == Dex then r.(x := v) else r.(y := v)) && o.ctx == c &&
      ZnOf(o.status, v) && SameExcept(o.status, p, {FlagBit(Zero), FlagBit(Negative)})
  {
    DecrementSpec(if s == Dex then r.x else r.y, p);
  }

  /**
   * CMP / CPX / CPY change only the status: Z iff the register equals the
   * popped byte, N from bit 7 of the difference, V from the signed
   * overflow of the subtraction; C is not touched.
   */
  lemma CompareSpec(k: CompareInstr, r: RegsVal, p: Bitset, c: CtxVal)
    requires c.Valid() && c.ptr < SIZE
    ensures var o := CompareOp(k, r, p, c); var m := c.Items()[0]; var reg := CompareReg(k, r);
      o.regs == r && o.ctx.Items() == c.Items()[1..] &&
      GetF(o.status, Zero) == (reg == m) &&
      GetF(o.status, Negative) == ((reg - m) % 256 >= 128) &&
      GetF(o.status, Overflow) == OutOfI8(SignedDiff(reg, m)) &&
      SameExcept(o.status, p, {FlagBit(Zero), FlagBit(Negative), FlagBit(Overflow)})
  {
    PopItems(c);
    CompareValueSpec(CompareReg(k, r), p, c.Items()[0]);
  }

  /** LSR: pushes v >> 1, C = old bit 0, N cleared, Z iff the result is 0. */
  lemma LsrSpec(r: RegsVal, p: Bitset, c: CtxVal)
    requires c.Valid() && c.ptr < SIZE
    ensures var o := ModifyOp(Lsr, r, p, c); var m := c.Items()[0];
      o.regs == r && o.ctx.Items() == [m / 2] + c.Items()[1..] &&
      GetF(o.status, Carry) == (m % 2 == 1) && !GetF(o.status, Negative) &&
      GetF(o.status, Zero) == (m / 2 == 0) &&
      SameExcept(o.status, p, {FlagBit(Carry), FlagBit(Zero), FlagBit(Negative)})
  {
    var (m, c1) := c.Pop();
    PopItems(c);
    LsrValueSpec(p, m);
    PushItems(c1, m / 2);
  }

  /** ASL: pushes v << 1, C = old bit 7, Z, N and V from the result's bit 7. */
  lemma AslSpec(r: RegsVal, p: Bitset, c: CtxVal)
    requires c.Valid() && c.ptr < SIZE
    ensures var o := ModifyOp(Asl, r, p, c); var m := c.Items()[0]; var v := (2 * m as int) % 256;
      o.regs == r && o.ctx.Items() == [v] + c.Items()[1..] &&
      GetF(o.status, Carry) == (m >= 128) && ZnOf(o.status, v) &&
      GetF(o.status, Overflow) == (v >= 128) &&
      SameExcept(o.status, p, {FlagBit(Carry), FlagBit(Zero), FlagBit(Negative), FlagBit(Overflow)})
  {
    var (m, c1) := c.Pop();
    PopItems(c);
    AslValueSpec(p, m);
    PushItems(c1, (2 * m) % 256);
  }

  /** ROL rotates the popped byte left (no carry in); C = the old bit 7. */
  lemma RolSpec(r: RegsVal, p: Bitset, c: CtxVal)
    requires c.Valid() && c.ptr < SIZE
    ensures var o := ModifyOp(Rol, r, p, c); var m := c.Items()[0];
      var v := (2 * m as int) % 256 + m / 128;
      o.regs == r && o.ctx.Items() == [v] + c.Items()[1..] &&
      GetF(o.status, Carry) == (m >= 128) && ZnOf(o.status, v) &&
      SameExcept(o.status, p, {FlagBit(Carry), FlagBit(Zero), FlagBit(Negative)})
  {
    var (m, c1) := c.Pop();
    PopItems(c);
    RolValueSpec(p, m);
    PushItems(c1, Rotl1(m));
  }

  /** ROR rotates the popped byte right (no carry in); C = the old bit 0. */
  lemma RorSpec(r: RegsVal, p: Bitset, c: CtxVal)
    requires c.Valid() && c.ptr < SIZE
    ensures var o := ModifyOp(Ror, r, p, c); var m := c.Items()[0];
      var v := m / 2 + 128 * (m % 2);
      o.regs == r && o.ctx.Items() == [v] + c.Items()[1..] &&
      GetF(o.status, Carry) == (m % 2 == 1) && ZnOf(o.status, v) &&
      SameExcept(o.status, p, {FlagBit(Carry), FlagBit(Zero), FlagBit(Negative)})
  {
    var (m, c1) := c.Pop();
    PopItems(c);
    RorValueSpec(p, m);
    PushItems(c1, Rotr1(m));
  }

  /** BIT: N = bit 7 and V = bit 6 of M, Z iff A & M == 0; pushes A & M. */
  lemma BitSpec(r: RegsVal, p: Bitset, c: CtxVal)
    requires c.Valid() && c.ptr < SIZE
    ensures var o := ModifyOp(Bit, r, p, c); var m := c.Items()[0];
      o.regs == r && o.ctx.Items() == [And8(r.acc, m)] + c.Items()[1..] &&
      GetF(o.status, Negative) == (m >= 128) && GetF(o.status, Overflow) == BitOf(m, 6) &&
      GetF(o.status, Zero) == (And8(r.acc, m) == 0) &&
      SameExcept(o.status, p, {FlagBit(Zero), FlagBit(Negative), FlagBit(Overflow)})
  {
    var (m, c1) := c.Pop();
    PopItems(c);
    BitValueSpec(r.acc, p, m);
    PushItems(c1, And8(r.acc, m));
  }

  /**
   * Each branch impl pushes exactly one byte: 1 iff its condition holds,
   * else 0, and changes nothing else.
   */
  lemma BranchSpec(b: BranchInstr, r: RegsVal, p: Bitset, c: CtxVal)
    requires c.Valid() && c.ptr > 0
    ensures var o := BranchOp(b, r, p, c); var (f, when) := BranchCondition(b);
      o.regs == r && o.status == p &&
      o.ctx.Items() == [if GetF(p, f) == when then 1 else 0] + c.Items() &&
      o.ctx.temp == c.temp
  {
    var (f, when) := BranchCondition(b);
    PushItems(c, if GetF(p, f) == when then 1 else 0);
  }

  /** The flag instructions write exactly one flag. */
  lemma FlagInstrSpec(w: FlagInstr, r: RegsVal, p: Bitset, c: CtxVal)
    ensures var o := FlagOp(w, r, p, c);
      var f := if w == Clc || w == Sec then Carry else if w == Cld || w == Sed then DecimalMode
               else if w == Cli || w == Sei then IrqDisable else Overflow;
      o.regs == r && o.ctx == c &&
      GetF(o.status, f) == (w == Sec || w == Sed || w == Sei) && SameExcept(o.status, p, {FlagBit(f)})
  {
  }

  /** Loads move the popped byte into a register; no flag changes. */
  lemma LoadSpec(l: LoadInstr, r: RegsVal, p: Bitset, c: CtxVal)
    requires c.Valid() && c.ptr < SIZE
    ensures var o := LoadOp(l, r, p, c); var m := c.Items()[0];
      o.status == p && o.ctx.Items() == c.Items()[1..] &&
      o.regs == (if l == Ldx then r.(x := m) else if l == Ldy then r.(y := m) else r.(acc := m))
  {
  }

  /** PHP pushes the raw status; PLP pops it back: the pair preserves the status. */
  lemma PhpPlpRoundTrip(r: RegsVal, p: Bitset, c: CtxVal)
    requires c.Valid() && c.ptr > 0
    ensures var o := StoreOp(Php, r, p, c);
      var o2 := PlpOp(r, Bitset(0), o.ctx);
      o2.status == p && o2.ctx.Items() == c.Items()
  {
    PushThenPop(c, p.raw);
  }

  /**
   * RTI pops PCH, PCL and the status, loads the status, and pushes PCL
   * and PCH back so that the next PopJump reads them.
   */
  lemma RtiSpec(r: RegsVal, p: Bitset, c: CtxVal)
    requires c.Valid() && c.ptr + 3 <= SIZE
    ensures var o := RtiOp(r, p, c); var it := c.Items();
      o.regs == r && o.status.raw == it[2] &&
      o.ctx.Items() == [it[0], it[1]] + it[3..]
  {
    var (pch, c1) := c.Pop();
    var (pcl, c2) := c1.Pop();
    var (st, c3) := c2.Pop();
    PushItems(c3, pcl);
    PushItems(c3.Push(pcl), pch);
  }

  /** Stores and PHA push the register; nothing else changes. */
  lemma StoreSpec(st: StoreInstr, r: RegsVal, p: Bitset, c: CtxVal)
    requires st != Php
    requires c.Valid() && c.ptr > 0
    ensures var o := StoreOp(st, r, p, c);
      o.regs == r && o.status == p &&
      o.ctx.Items() == [if st == Stx then r.x else if st == Sty then r.y else r.acc] + c.Items()
  {
    PushItems(c, if st == Stx then r.x else if st == Sty then r.y else r.acc);
  }

  /** The transfers copy one register into another, as written. */
  lemma TransferSpec(t: TransferInstr, r: RegsVal, p: Bitset, c: CtxVal)
    ensures var o := TransferOp(t, r, p, c);
      o.status == p && o.ctx == c &&
      o.regs == match t
        case Tax => r.(x := r.acc)
        case Tay => r.(y := r.acc)
        case Tsx => r.(x := r.sp)
        case Txa => r.(acc := r.sp)
        case Txs => r.(sp := r.x)
        case Tya => r.(sp := r.y)
  {
  }

  // ---------------------------------------------------------------------
  // The `*_impl` functions as methods.

  /** The register file and the context are separate objects. */
  ghost predicate Fits(regs: Registers, ctx: Context)
    reads regs, regs.Repr, ctx, ctx.temp
  {
    regs.Valid() && ctx.Valid() && ctx.temp !in regs.Repr
  }

  method AdcImpl(regs: Registers, status: Bitset, ctx: Context) returns (status': Bitset)
    requires Fits(regs, ctx) && ctx.Size() >= 1
    modifies regs.acc, ctx
    ensures Fits(regs, ctx)
    ensures AccOp(Adc, old(regs.Val()), status, old(ctx.Val())) ==
      ImplOut(regs.Val(), status', ctx.Val())
  {
    var acc := regs.acc.Get();
    var value := ctx.Pop();
    var res := UpdateZvFlags(CarryingAdd(Value(acc, status), value));
    regs.acc.Set(res.v);
    status' := status.Replace(res.status);
  }

  method AndImpl(regs: Registers, status: Bitset, ctx: Context) returns (status': Bitset)
    requires Fits(regs, ctx) && ctx.Size() >= 1
    modifies regs.acc, ctx
    ensures Fits(regs, ctx)
    ensures AccOp(And, old(regs.Val()), status, old(ctx.Val())) ==
      ImplOut(regs.Val(), status', ctx.Val())
  {
    var acc := regs.acc.Get();
    var value := ctx.Pop();
    var res := UpdateZvFlags(Value(And8(acc, value), status));
    regs.acc.Set(res.v);
    status' := status.Replace(res.status);
  }

  method AslImpl(regs: Registers, status: Bitset, ctx: Context) returns (status': Bitset)
    requires Fits(regs, ctx) && ctx.Size() >= 1
    modifies ctx, ctx.stack
    ensures Fits(regs, ctx)
    ensures ModifyOp(Asl, old(regs.Val()), status, old(ctx.Val())) ==
      ImplOut(regs.Val(), status', ctx.Val())
  {
    var value := ctx.Pop();
    var carry := And8(value, 0x80) != 0;
    var res := UpdateVFlag(UpdateZnFlags(Value(Shl1(value), WithF(status, Carry, carry))));
    status' := status.Replace(res.status);
    ctx.Push(res.v);
  }

  method BccImpl(regs: Registers, status: Bitset, ctx: Context) returns (status': Bitset)
    requires Fits(regs, ctx) && ctx.Size() < SIZE
    modifies ctx, ctx.stack
    ensures Fits(regs, ctx)
    ensures BranchOp(Bcc, old(regs.Val()), status, old(ctx.Val())) ==
      ImplOut(regs.Val(), status', ctx.Val())
  {
    ctx.Push(B(!GetF(status, Carry)));
    status' := status;
  }

  method BcsImpl(regs: Registers, status: Bitset, ctx: Context) returns (status': Bitset)
    requires Fits(regs, ctx) && ctx.Size() < SIZE
    modifies ctx, ctx.stack
    ensures Fits(regs, ctx)
    ensures BranchOp(Bcs, old(regs.Val()), status, old(ctx.Val())) ==
      ImplOut(regs.Val(), status', ctx.Val())
  {
    ctx.Push(B(GetF(status, Carry)));
    status' := status;
  }

  method BeqImpl(regs: Registers, status: Bitset, ctx: Context) returns (status': Bitset)
    requires Fits(regs, ctx) && ctx.Size() < SIZE
    modifies ctx, ctx.stack
    ensures Fits(regs, ctx)
    ensures BranchOp(Beq, old(regs.Val()), status, old(ctx.Val())) ==
      ImplOut(regs.Val(), status', ctx.Val())
  {
    ctx.Push(B(GetF(status, Zero)));
    status' := status;
  }

  method BitImpl(regs: Registers, status: Bitset, ctx: Context) returns (status': Bitset)
    requires Fits(regs, ctx) && ctx.Size() >= 1
    modifies ctx, ctx.stack
    ensures Fits(regs, ctx)
    ensures ModifyOp(Bit, old(regs.Val()), status, old(ctx.Val())) ==
      ImplOut(regs.Val(), status', ctx.Val())
  {
    var acc := regs.acc.Get();
    var value := ctx.Pop();
    var b7 := And8(value, 0x80) != 0;
    var b6 := And8(value, 0x40) != 0;
    var res := UpdateZFlag(Value(And8(acc, value), WithF(WithF(status, Negative, b7), Overflow, b6)));
    status' := status.Replace(res.status);
    ctx.Push(res.v);
  }

  method BmiImpl(regs: Registers, status: Bitset, ctx: Context) returns (status': Bitset)
    requires Fits(regs, ctx) && ctx.Size() < SIZE
    modifies ctx, ctx.stack
    ensures Fits(regs, ctx)
    ensures BranchOp(Bmi, old(regs.Val()), status, old(ctx.Val())) ==
      ImplOut(regs.Val(), status', ctx.Val())
  {
    ctx.Push(B(GetF(status, Negative)));
    status' := status;
  }

  method BneImpl(regs: Registers, status: Bitset, ctx: Context) returns (status': Bitset)
    requires Fits(regs, ctx) && ctx.Size() < SIZE
    modifies ctx, ctx.stack
    ensures Fits(regs, ctx)
    ensures BranchOp(Bne, old(regs.Val()), status, old(ctx.Val())) ==
      ImplOut(regs.Val(), status', ctx.Val())
  {
    ctx.Push(B(!GetF(status, Zero)));
    status' := status;
  }

  method BplImpl(regs: Registers, status: Bitset, ctx: Context) returns (status': Bitset)
    requires Fits(regs, ctx) && ctx.Size() < SIZE
    modifies ctx, ctx.stack
    ensures Fits(regs, ctx)
    ensures BranchOp(Bpl, old(regs.Val()), status, old(ctx.Val())) ==
      ImplOut(regs.Val(), status', ctx.Val())
  {
    ctx.Push(B(!GetF(status, Negative)));
    status' := status;
  }

  method BrkImpl(regs: Registers, status: Bitset, ctx: Context) returns (status': Bitset)
    requires Fits(regs, ctx)
    ensures Fits(regs, ctx)
    ensures ImplSpec(Brk, old(regs.Val()), status, old(ctx.Val())) ==
      ImplOut(regs.Val(), status', ctx.Val())
  {
    status' := status;
  }

  method BvcImpl(regs: Registers, status: Bitset, ctx: Context) returns (status': Bitset)
    requires Fits(regs, ctx) && ctx.Size() < SIZE
    modifies ctx, ctx.stack
    ensures Fits(regs, ctx)
    ensures BranchOp(Bvc, old(regs.Val()), status, old(ctx.Val())) ==
      ImplOut(regs.Val(), status', ctx.Val())
  {
    ctx.Push(B(!GetF(status, Overflow)));
    status' := status;
  }

  method BvsImpl(regs: Registers, status: Bitset, ctx: Context) returns (status': Bitset)
    requires Fits(regs, ctx) && ctx.Size() < SIZE
    modifies ctx, ctx.stack
    ensures Fits(regs, ctx)
    ensures BranchOp(Bvs, old(regs.Val()), status, old(ctx.Val())) ==
      ImplOut(regs.Val(), status', ctx.Val())
  {
    ctx.Push(B(GetF(status, Overflow)));
    status' := status;
  }

  method ClcImpl(regs: Registers, status: Bitset, ctx: Context) returns (status': Bitset)
    requires Fits(regs, ctx)
    ensures Fits(regs, ctx)
    ensures FlagOp(Clc, old(regs.Val()), status, old(ctx.Val())) ==
      ImplOut(regs.Val(), status', ctx.Val())
  {
    status' := status.Replace(WithF(status, Carry, false));
  }

  method CldImpl(regs: Registers, status: Bitset, ctx: Context) returns (status': Bitset)
    requires Fits(regs, ctx)
    ensures Fits(regs, ctx)
    ensures FlagOp(Cld, old(regs.Val()), status, old(ctx.Val())) ==
      ImplOut(regs.Val(), status', ctx.Val())
  {
    status' := status.Replace(WithF(status, DecimalMode, false));
  }

  method CliImpl(regs: Registers, status: Bitset, ctx: Context) returns (status': Bitset)
    requires Fits(regs, ctx)
    ensures Fits(regs, ctx)
    ensures FlagOp(Cli, old(regs.Val()), status, old(ctx.Val())) ==
      ImplOut(regs.Val(), status', ctx.Val())
  {
    status' := status.Replace(WithF(status, IrqDisable, false));
  }

  method ClvImpl(regs: Registers, status: Bitset, ctx: Context) returns (status': Bitset)
    requires Fits(regs, ctx)
    ensures Fits(regs, ctx)
    ensures FlagOp(Clv, old(regs.Val()), status, old(ctx.Val())) ==
      ImplOut(regs.Val(), status', ctx.Val())
  {
    status' := status.Replace(WithF(status, Overflow, false));
  }

  method CmpImpl(regs: Registers, status: Bitset, ctx: Context) returns (status': Bitset)
    requires Fits(regs, ctx) && ctx.Size() >= 1
    modifies ctx
    ensures Fits(regs, ctx)
    ensures CompareOp(Cmp, old(regs.Val()), status, old(ctx.Val())) ==
      ImplOut(regs.Val(), status', ctx.Val())
  {
    var acc := regs.acc.Get();
    var value := ctx.Pop();
    var res := UpdateZnFlags(SafeSub(Value(acc, status), value));
    status' := status.Replace(res.status);
  }

  method CpxImpl(regs: Registers, status: Bitset, ctx: Context) returns (status': Bitset)
    requires Fits(regs, ctx) && ctx.Size() >= 1
    modifies ctx
    ensures Fits(regs, ctx)
    ensures CompareOp(Cpx, old(regs.Val()), status, old(ctx.Val())) ==
      ImplOut(regs.Val(), status', ctx.Val())
  {
    var x := regs.x.Get();
    var value := ctx.Pop();
    var res := UpdateZnFlags(SafeSub(Value(x, status), value));
    status' := status.Replace(res.status);
  }

  method CpyImpl(regs: Registers, status: Bitset, ctx: Context) returns (status': Bitset)
    requires Fits(regs, ctx) && ctx.Size() >= 1
    modifies ctx
    ensures Fits(regs, ctx)
    ensures CompareOp(Cpy, old(regs.Val()), status, old(ctx.Val())) ==
      ImplOut(regs.Val(), status', ctx.Val())
  {
    var y := regs.y.Get();
    var value := ctx.Pop();
    var res := UpdateZnFlags(SafeSub(Value(y, status), value));
    status' := status.Replace(res.status);
  }

  method DecImpl(regs: Registers, status: Bitset, ctx: Context) returns (status': Bitset)
    requires Fits(regs, ctx) && ctx.Size() >= 1
    modifies ctx, ctx.stack
    ensures Fits(regs, ctx)
    ensures ModifyOp(Dec, old(regs.Val()), status, old(ctx.Val())) ==
      ImplOut(regs.Val(), status', ctx.Val())
  {
    var value := ctx.Pop();
    var overflow := GetF(status, Overflow);
    var res := UpdateZnFlags(SafeSub(Value(value, status), 1));
    res := res.(status := WithF(res.status, Overflow, overflow));
    status' := status.Replace(res.status);
    ctx.Push(res.v);
  }

  method DexImpl(regs: Registers, status: Bitset, ctx: Context) returns (status': Bitset)
    requires Fits(regs, ctx)
    modifies regs.x
    ensures Fits(regs, ctx)
    ensures StepOp(Dex, old(regs.Val()), status, old(ctx.Val())) ==
      ImplOut(regs.Val(), status', ctx.Val())
  {
    var x := regs.x.Get();
    var overflow := GetF(status, Overflow);
    var res := UpdateZnFlags(SafeSub(Value(x, status), 1));
    res := res.(status := WithF(res.status, Overflow, overflow));
    regs.x.Set(res.v);
    status' := status.Replace(res.status);
  }

  method DeyImpl(regs: Registers, status: Bitset, ctx: Context) returns (status': Bitset)
    requires Fits(regs, ctx)
    modifies regs.y
    ensures Fits(regs, ctx)
    ensures StepOp(Dey, old(regs.Val()), status, old(ctx.Val())) ==
      ImplOut(regs.Val(), status', ctx.Val())
  {
    var y := regs.y.Get();
    var overflow := GetF(status, Overflow);
    var res := UpdateZnFlags(SafeSub(Value(y, status), 1));
    res := res.(status := WithF(res.status, Overflow, overflow));
    regs.y.Set(res.v);
    status' := status.Replace(res.status);
  }

  method EorImpl(regs: Registers, status: Bitset, ctx: Context) returns (status': Bitset)
    requires Fits(regs, ctx) && ctx.Size() >= 1
    modifies regs.acc, ctx
    ensures Fits(regs, ctx)
    ensures AccOp(Eor, old(regs.Val()), status, old(ctx.Val())) ==
      ImplOut(regs.Val(), status', ctx.Val())
  {
    var acc := regs.acc.Get();
    var value := ctx.Pop();
    var res := UpdateZnFlags(Value(Xor8(acc, value), status));
    regs.acc.Set(res.v);
    status' := status.Replace(res.status);
  }

  method IncImpl(regs: Registers, status: Bitset, ctx: Context) returns (status': Bitset)
    requires Fits(regs, ctx) && ctx.Size() >= 1
    modifies ctx, ctx.stack
    ensures Fits(regs, ctx)
    ensures ModifyOp(Inc, old(regs.Val()), status, old(ctx.Val())) ==
      ImplOut(regs.Val(), status', ctx.Val())
  {
    var value := ctx.Pop();
    var carry := GetF(status, Carry);
    var res := UpdateZnFlags(SafeAdd(Value(value, status), 1));
    res := res.(status := WithF(res.status, Carry, carry));
    status' := status.Replace(res.status);
    ctx.Push(res.v);
  }

  method InxImpl(regs: Registers, status: Bitset, ctx: Context) returns (status': Bitset)
    requires Fits(regs, ctx)
    modifies regs.x
    ensures Fits(regs, ctx)
    ensures StepOp(Inx, old(regs.Val()), status, old(ctx.Val())) ==
      ImplOut(regs.Val(), status', ctx.Val())
  {
    var x := regs.x.Get();
    var carry := GetF(status, Carry);
    var res := UpdateZnFlags(SafeAdd(Value(x, status), 1));
    res := res.(status := WithF(res.status, Carry, carry));
    regs.x.Set(res.v);
    status' := status.Replace(res.status);
  }

  method InyImpl(regs: Registers, status: Bitset, ctx: Context) returns (status': Bitset)
    requires Fits(regs, ctx)
    modifies regs.y
    ensures Fits(regs, ctx)
    ensures StepOp(Iny, old(regs.Val()), status, old(ctx.Val())) ==
      ImplOut(regs.Val(), status', ctx.Val())
  {
    var y := regs.y.Get();
    var carry := GetF(status, Carry);
    var res := UpdateZnFlags(SafeAdd(Value(y, status), 1));
    res := res.(status := WithF(res.status, Carry, carry));
    regs.y.Set(res.v);
    status' := status.Replace(res.status);
  }

  method JmpImpl(regs: Registers, status: Bitset, ctx: Context) returns (status': Bitset)
    requires Fits(regs, ctx)
    ensures Fits(regs, ctx)
    ensures ImplSpec(Jmp, old(regs.Val()), status, old(ctx.Val())) ==
      ImplOut(regs.Val(), status', ctx.Val())
  {
    status' := status;
  }

  method JsrImpl(regs: Registers, status: Bitset, ctx: Context) returns (status': Bitset)
    requires Fits(regs, ctx)
    ensures Fits(regs, ctx)
    ensures ImplSpec(Jsr, old(regs.Val()), status, old(ctx.Val())) ==
      ImplOut(regs.Val(), status', ctx.Val())
  {
    status' := status;
  }

  method LdaImpl(regs: Registers, status: Bitset, ctx: Context) returns (status': Bitset)
    requires Fits(regs, ctx) && ctx.Size() >= 1
    modifies regs.acc, ctx
    ensures Fits(regs, ctx)
    ensures LoadOp(Lda, old(regs.Val()), status, old(ctx.Val())) ==
      ImplOut(regs.Val(), status', ctx.Val())
  {
    var data := ctx.Pop();
    regs.acc.Set(data);
    status' := status;
  }

  method LdxImpl(regs: Registers, status: Bitset, ctx: Context) returns (status': Bitset)
    requires Fits(regs, ctx) && ctx.Size() >= 1
    modifies regs.x, ctx
    ensures Fits(regs, ctx)
    ensures LoadOp(Ldx, old(regs.Val()), status, old(ctx.Val())) ==
      ImplOut(regs.Val(), status', ctx.Val())
  {
    var data := ctx.Pop();
    regs.x.Set(data);
    status' := status;
  }

  method LdyImpl(regs: Registers, status: Bitset, ctx: Context) returns (status': Bitset)
    requires Fits(regs, ctx) && ctx.Size() >= 1
    modifies regs.y, ctx
    ensures Fits(regs, ctx)
    ensures LoadOp(Ldy, old(regs.Val()), status, old(ctx.Val())) ==
      ImplOut(regs.Val(), status', ctx.Val())
  {
    var data := ctx.Pop();
    regs.y.Set(data);
    status' := status;
  }

  method LsrImpl(regs: Registers, status: Bitset, ctx: Context) returns (status': Bitset)
    requires Fits(regs, ctx) && ctx.Size() >= 1
    modifies ctx, ctx.stack
    ensures Fits(regs, ctx)
    ensures ModifyOp(Lsr, old(regs.Val()), status, old(ctx.Val())) ==
      ImplOut(regs.Val(), status', ctx.Val())
  {
    var value := ctx.Pop();
    var carry := And8(value, 0x1) != 0;
    var res := UpdateZFlag(Value(Shr1(value), WithF(WithF(status, Carry, carry), Negative, false)));
    status' := status.Replace(res.status);
    ctx.Push(res.v);
  }

  method NopImpl(regs: Registers, status: Bitset, ctx: Context) returns (status': Bitset)
    requires Fits(regs, ctx)
    ensures Fits(regs, ctx)
    ensures ImplSpec(Nop, old(regs.Val()), status, old(ctx.Val())) ==
      ImplOut(regs.Val(), status', ctx.Val())
  {
    status' := status;
  }

  method OraImpl(regs: Registers, status: Bitset, ctx: Context) returns (status': Bitset)
    requires Fits(regs, ctx) && ctx.Size() >= 1
    modifies regs.acc, ctx
    ensures Fits(regs, ctx)
    ensures AccOp(Ora, old(regs.Val()), status, old(ctx.Val())) ==
      ImplOut(regs.Val(), status', ctx.Val())
  {
    var acc := regs.acc.Get();
    var value := ctx.Pop();
    var res := UpdateZnFlags(Value(Or8(acc, value), status));
    regs.acc.Set(res.v);
    status' := status.Replace(res.status);
  }

  method PhaImpl(regs: Registers, status: Bitset, ctx: Context) returns (status': Bitset)
    requires Fits(regs, ctx) && ctx.Size() < SIZE
    modifies ctx, ctx.stack
    ensures Fits(regs, ctx)
    ensures StoreOp(Pha, old(regs.Val()), status, old(ctx.Val())) ==
      ImplOut(regs.Val(), status', ctx.Val())
  {
    var acc := regs.acc.Get();
    ctx.Push(acc);
    status' := status;
  }

  method PhpImpl(regs: Registers, status: Bitset, ctx: Context) returns (status': Bitset)
    requires Fits(regs, ctx) && ctx.Size() < SIZE
    modifies ctx, ctx.stack
    ensures Fits(regs, ctx)
    ensures StoreOp(Php, old(regs.Val()), status, old(ctx.Val())) ==
      ImplOut(regs.Val(), status', ctx.Val())
  {
    var raw := status.GetRaw();
    ctx.Push(raw);
    status' := status;
  }

  method PlaImpl(regs: Registers, status: Bitset, ctx: Context) returns (status': Bitset)
    requires Fits(regs, ctx) && ctx.Size() >= 1
    modifies regs.acc, ctx
    ensures Fits(regs, ctx)
    ensures LoadOp(Pla, old(regs.Val()), status, old(ctx.Val())) ==
      ImplOut(regs.Val(), status', ctx.Val())
  {
    var data := ctx.Pop();
    regs.acc.Set(data);
    status' := status;
  }

  method PlpImpl(regs: Registers, status: Bitset, ctx: Context) returns (status': Bitset)
    requires Fits(regs, ctx) && ctx.Size() >= 1
    modifies ctx
    ensures Fits(regs, ctx)
    ensures PlpOp(old(regs.Val()), status, old(ctx.Val())) ==
      ImplOut(regs.Val(), status', ctx.Val())
  {
    var raw := ctx.Pop();
    status' := status.SetRaw(raw);
  }

  method RolImpl(regs: Registers, status: Bitset, ctx: Context) returns (status': Bitset)
    requires Fits(regs, ctx) && ctx.Size() >= 1
    modifies ctx, ctx.stack
    ensures Fits(regs, ctx)
    ensures ModifyOp(Rol, old(regs.Val()), status, old(ctx.Val())) ==
      ImplOut(regs.Val(), status', ctx.Val())
  {
    var value := ctx.Pop();
    var carry := And8(value, 0x80) != 0;
    var res := UpdateZnFlags(Value(Rotl1(value), WithF(status, Carry, carry)));
    status' := status.Replace(res.status);
    ctx.Push(res.v);
  }

  method RorImpl(regs: Registers, status: Bitset, ctx: Context) returns (status': Bitset)
    requires Fits(regs, ctx) && ctx.Size() >= 1
    modifies ctx, ctx.stack
    ensures Fits(regs, ctx)
    ensures ModifyOp(Ror, old(regs.Val()), status, old(ctx.Val())) ==
      ImplOut(regs.Val(), status', ctx.Val())
  {
    var value := ctx.Pop();
    var carry := And8(value, 0x1) != 0;
    var res := UpdateZnFlags(Value(Rotr1(value), WithF(status, Carry, carry)));
    status' := status.Replace(res.status);
    ctx.Push(res.v);
  }

  method RtiImpl(regs: Registers, status: Bitset, ctx: Context) returns (status': Bitset)
    requires Fits(regs, ctx) && ctx.Size() >= 3
    modifies ctx, ctx.stack
    ensures Fits(regs, ctx)
    ensures RtiOp(old(regs.Val()), status, old(ctx.Val())) ==
      ImplOut(regs.Val(), status', ctx.Val())
  {
    var pch := ctx.Pop();
    var pcl := ctx.Pop();
    var raw := ctx.Pop();
    status' := status.SetRaw(raw);
    ctx.Push(pcl);
    ctx.Push(pch);
  }

  method RtsImpl(regs: Registers, status: Bitset, ctx: Context) returns (status': Bitset)
    requires Fits(regs, ctx)
    ensures Fits(regs, ctx)
    ensures ImplSpec(Rts, old(regs.Val()), status, old(ctx.Val())) ==
      ImplOut(regs.Val(), status', ctx.Val())
  {
    status' := status;
  }

  method SbcImpl(regs: Registers, status: Bitset, ctx: Context) returns (status': Bitset)
    requires Fits(regs, ctx) && ctx.Size() >= 1
    modifies regs.acc, ctx
    ensures Fits(regs, ctx)
    ensures AccOp(Sbc, old(regs.Val()), status, old(ctx.Val())) ==
      ImplOut(regs.Val(), status', ctx.Val())
  {
    var acc := regs.acc.Get();
    var value := ctx.Pop();
    var res := UpdateVFlag(UpdateZnFlags(BorrowingSub(Value(acc, status), value)));
    regs.acc.Set(res.v);
    status' := status.Replace(res.status);
  }

  method SecImpl(regs: Registers, status: Bitset, ctx: Context) returns (status': Bitset)
    requires Fits(regs, ctx)
    ensures Fits(regs, ctx)
    ensures FlagOp(Sec, old(regs.Val()), status, old(ctx.Val())) ==
      ImplOut(regs.Val(), status', ctx.Val())
  {
    status' := status.Replace(WithF(status, Carry, true));
  }

  method SedImpl(regs: Registers, status: Bitset, ctx: Context) returns (status': Bitset)
    requires Fits(regs, ctx)
    ensures Fits(regs, ctx)
    ensures FlagOp(Sed, old(regs.Val()), status, old(ctx.Val())) ==
      ImplOut(regs.Val(), status', ctx.Val())
  {
    status' := status.Replace(WithF(status, DecimalMode, true));
  }

  method SeiImpl(regs: Registers, status: Bitset, ctx: Context) returns (status': Bitset)
    requires Fits(regs, ctx)
    ensures Fits(regs, ctx)
    ensures FlagOp(Sei, old(regs.Val()), status, old(ctx.Val())) ==
      ImplOut(regs.Val(), status', ctx.Val())
  {
    status' := status.Replace(WithF(status, IrqDisable, true));
  }

  method StaImpl(regs: Registers, status: Bitset, ctx: Context) returns (status': Bitset)
    requires Fits(regs, ctx) && ctx.Size() < SIZE
    modifies ctx, ctx.stack
    ensures Fits(regs, ctx)
    ensures StoreOp(Sta, old(regs.Val()), status, old(ctx.Val())) ==
      ImplOut(regs.Val(), status', ctx.Val())
  {
    var acc := regs.acc.Get();
    ctx.Push(acc);
    status' := status;
  }

  method StxImpl(regs: Registers, status: Bitset, ctx: Context) returns (status': Bitset)
    requires Fits(regs, ctx) && ctx.Size() < SIZE
    modifies ctx, ctx.stack
    ensures Fits(regs, ctx)
    ensures StoreOp(Stx, old(regs.Val()), status, old(ctx.Val())) ==
      ImplOut(regs.Val(), status', ctx.Val())
  {
    var x := regs.x.Get();
    ctx.Push(x);
    status' := status;
  }

  method StyImpl(regs: Registers, status: Bitset, ctx: Context) returns (status': Bitset)
    requires Fits(regs, ctx) && ctx.Size() < SIZE
    modifies ctx, ctx.stack
    ensures Fits(regs, ctx)
    ensures StoreOp(Sty, old(regs.Val()), status, old(ctx.Val())) ==
      ImplOut(regs.Val(), status', ctx.Val())
  {
    var y := regs.y.Get();
    ctx.Push(y);
    status' := status;
  }

  method TaxImpl(regs: Registers, status: Bitset, ctx: Context) returns (status': Bitset)
    requires Fits(regs, ctx)
    modifies regs.x
    ensures Fits(regs, ctx)
    ensures TransferOp(Tax, old(regs.Val()), status, old(ctx.Val())) ==
      ImplOut(regs.Val(), status', ctx.Val())
  {
    var acc := regs.acc.Get();
    regs.x.Set(acc);
    status' := status;
  }

  method TayImpl(regs: Registers, status: Bitset, ctx: Context) returns (status': Bitset)
    requires Fits(regs, ctx)
    modifies regs.y
    ensures Fits(regs, ctx)
    ensures TransferOp(Tay, old(regs.Val()), status, old(ctx.Val())) ==
      ImplOut(regs.Val(), status', ctx.Val())
  {
    var acc := regs.acc.Get();
    regs.y.Set(acc);
    status' := status;
  }

  method TsxImpl(regs: Registers, status: Bitset, ctx: Context) returns (status': Bitset)
    requires Fits(regs, ctx)
    modifies regs.x
    ensures Fits(regs, ctx)
    ensures TransferOp(Tsx, old(regs.Val()), status, old(ctx.Val())) ==
      ImplOut(regs.Val(), status', ctx.Val())
  {
    var sp := regs.sp.Get();
    regs.x.Set(sp);
    status' := status;
  }

  method TxaImpl(regs: Registers, status: Bitset, ctx: Context) returns (status': Bitset)
    requires Fits(regs, ctx)
    modifies regs.acc
    ensures Fits(regs, ctx)
    ensures TransferOp(Txa, old(regs.Val()), status, old(ctx.Val())) ==
      ImplOut(regs.Val(), status', ctx.Val())
  {
    var sp := regs.sp.Get();
    regs.acc.Set(sp);
    status' := status;
  }

  method TxsImpl(regs: Registers, status: Bitset, ctx: Context) returns (status': Bitset)
    requires Fits(regs, ctx)
    modifies regs.sp
    ensures Fits(regs, ctx)
    ensures TransferOp(Txs, old(regs.Val()), status, old(ctx.Val())) ==
      ImplOut(regs.Val(), status', ctx.Val())
  {
    var x := regs.x.Get();
    regs.sp.Set(x);
    status' := status;
  }

  method TyaImpl(regs: Registers, status: Bitset, ctx: Context) returns (status': Bitset)
    requires Fits(regs, ctx)
    modifies regs.sp
    ensures Fits(regs, ctx)
    ensures TransferOp(Tya, old(regs.Val()), status, old(ctx.Val())) ==
      ImplOut(regs.Val(), status', ctx.Val())
  {
    var y := regs.y.Get();
    regs.sp.Set(y);
    status' := status;
  }

  /** Calls the impl of `i`, one of the instructions of `AccOp`. */
  method RunAccOp(a: AccInstr, regs: Registers, status: Bitset, ctx: Context) returns (status': Bitset)
    requires Fits(regs, ctx) && ctx.Size() >= 1
    modifies regs.Repr, ctx, ctx.stack
    ensures Fits(regs, ctx)
    ensures AccOp(a, old(regs.Val()), status, old(ctx.Val())) == ImplOut(regs.Val(), status', ctx.Val())
  {
    match a
    case Adc => status' := AdcImpl(regs, status, ctx);
    case And => status' := AndImpl(regs, status, ctx);
    case Eor => status' := EorImpl(regs, status, ctx);
    case Ora => status' := OraImpl(regs, status, ctx);
    case Sbc => status' := SbcImpl(regs, status, ctx);
  }

  /** Calls the impl of `i`, one of the instructions of `ModifyOp`. */
  method RunModifyOp(m: ModifyInstr, regs: Registers, status: Bitset, ctx: Context) returns (status': Bitset)
    requires Fits(regs, ctx) && ctx.Size() >= 1
    modifies regs.Repr, ctx, ctx.stack
    ensures Fits(regs, ctx)
    ensures ModifyOp(m, old(regs.Val()), status, old(ctx.Val())) == ImplOut(regs.Val(), status', ctx.Val())
  {
    match m
    case Asl => status' := AslImpl(regs, status, ctx);
    case Lsr => status' := LsrImpl(regs, status, ctx);
    case Rol => status' := RolImpl(regs, status, ctx);
    case Ror => status' := RorImpl(regs, status, ctx);
    case Bit => status' := BitImpl(regs, status, ctx);
    case Dec => status' := DecImpl(regs, status, ctx);
    case Inc => status' := IncImpl(regs, status, ctx);
  }

  /** Calls the impl of `i`, one of the instructions of `BranchOp`. */
  method RunBranchOp(b: BranchInstr, regs: Registers, status: Bitset, ctx: Context) returns (status': Bitset)
    requires Fits(regs, ctx) && ctx.Size() < SIZE
    modifies regs.Repr, ctx, ctx.stack
    ensures Fits(regs, ctx)
    ensures BranchOp(b, old(regs.Val()), status, old(ctx.Val())) == ImplOut(regs.Val(), status', ctx.Val())
  {
    match b
    case Bcc => status' := BccImpl(regs, status, ctx);
    case Bcs => status' := BcsImpl(regs, status, ctx);
    case Beq => status' := BeqImpl(regs, status, ctx);
    case Bmi => status' := BmiImpl(regs, status, ctx);
    case Bne => status' := BneImpl(regs, status, ctx);
    case Bpl => status' := BplImpl(regs, status, ctx);
    case Bvc => status' := BvcImpl(regs, status, ctx);
    case Bvs => status' := BvsImpl(regs, status, ctx);
  }

  /** Calls the impl of `i`, one of the instructions of `FlagOp`. */
  method RunFlagOp(f: FlagInstr, regs: Registers, status: Bitset, ctx: Context) returns (status': Bitset)
    requires Fits(regs, ctx)
    modifies regs.Repr, ctx, ctx.stack
    ensures Fits(regs, ctx)
    ensures FlagOp(f, old(regs.Val()), status, old(ctx.Val())) == ImplOut(regs.Val(), status', ctx.Val())
  {
    match f
    case Clc => status' := ClcImpl(regs, status, ctx);
    case Cld => status' := CldImpl(regs, status, ctx);
    case Cli => status' := CliImpl(regs, status, ctx);
    case Clv => status' := ClvImpl(regs, status, ctx);
    case Sec => status' := SecImpl(regs, status, ctx);
    case Sed => status' := SedImpl(regs, status, ctx);
    case Sei => status' := SeiImpl(regs, status, ctx);
  }

  /** Calls the impl of `i`, one of the instructions of `CompareOp`. */
  method RunCompareOp(k: CompareInstr, regs: Registers, status: Bitset, ctx: Context) returns (status': Bitset)
    requires Fits(regs, ctx) && ctx.Size() >= 1
    modifies regs.Repr, ctx, ctx.stack
    ensures Fits(regs, ctx)
    ensures CompareOp(k, old(regs.Val()), status, old(ctx.Val())) == ImplOut(regs.Val(), status', ctx.Val())
  {
    match k
    case Cmp => status' := CmpImpl(regs, status, ctx);
    case Cpx => status' := CpxImpl(regs, status, ctx);
    case Cpy => status' := CpyImpl(regs, status, ctx);
  }

  /** Calls the impl of `i`, one of the instructions of `StepOp`. */
  method RunStepOp(s: StepInstr, regs: Registers, status: Bitset, ctx: Context) returns (status': Bitset)
    requires Fits(regs, ctx)
    modifies regs.Repr, ctx, ctx.stack
    ensures Fits(regs, ctx)
    ensures StepOp(s, old(regs.Val()), status, old(ctx.Val())) == ImplOut(regs.Val(), status', ctx.Val())
  {
    match s
    case Dex => status' := DexImpl(regs, status, ctx);
    case Dey => status' := DeyImpl(regs, status, ctx);
    case Inx => status' := InxImpl(regs, status, ctx);
    case Iny => status' := InyImpl(regs, status, ctx);
  }

  /** Calls the impl of `i`, one of the instructions of `LoadOp`. */
  method RunLoadOp(l: LoadInstr, regs: Registers, status: Bitset, ctx: Context) returns (status': Bitset)
    requires Fits(regs, ctx) && ctx.Size() >= 1
    modifies regs.Repr, ctx, ctx.stack
    ensures Fits(regs, ctx)
    ensures LoadOp(l, old(regs.Val()), status, old(ctx.Val())) == ImplOut(regs.Val(), status', ctx.Val())
  {
    match l
    case Lda => status' := LdaImpl(regs, status, ctx);
    case Ldx => status' := LdxImpl(regs, status, ctx);
    case Ldy => status' := LdyImpl(regs, status, ctx);
    case Pla => status' := PlaImpl(regs, status, ctx);
  }

  /** Calls the impl of `i`, one of the instructions of `PushOp`. */
  method RunStoreOp(st: StoreInstr, regs: Registers, status: Bitset, ctx: Context) returns (status': Bitset)
    requires Fits(regs, ctx) && ctx.Size() < SIZE
    modifies regs.Repr, ctx, ctx.stack
    ensures Fits(regs, ctx)
    ensures StoreOp(st, old(regs.Val()), status, old(ctx.Val())) == ImplOut(regs.Val(), status', ctx.Val())
  {
    match st
    case Pha => status' := PhaImpl(regs, status, ctx);
    case Php => status' := PhpImpl(regs, status, ctx);
    case Sta => status' := StaImpl(regs, status, ctx);
    case Stx => status' := StxImpl(regs, status, ctx);
    case Sty => status' := StyImpl(regs, status, ctx);
  }

  /** Calls the impl of `i`, one of the instructions of `TransferOp`. */
  method RunTransferOp(t: TransferInstr, regs: Registers, status: Bitset, ctx: Context) returns (status': Bitset)
    requires Fits(regs, ctx)
    modifies regs.Repr, ctx, ctx.stack
    ensures Fits(regs, ctx)
    ensures TransferOp(t, old(regs.Val()), status, old(ctx.Val())) == ImplOut(regs.Val(), status', ctx.Val())
  {
    match t
    case Tax => status' := TaxImpl(regs, status, ctx);
    case Tay => status' := TayImpl(regs, status, ctx);
    case Tsx => status' := TsxImpl(regs, status, ctx);
    case Txa => status' := TxaImpl(regs, status, ctx);
    case Txs => status' := TxsImpl(regs, status, ctx);
    case Tya => status' := TyaImpl(regs, status, ctx);
  }

  /** Calls the `*_impl` function of `i`, as `MicroOp::Execute` does. */
  method RunImpl(i: Instr, regs: Registers, status: Bitset, ctx: Context) returns (status': Bitset)
    requires Fits(regs, ctx) && StackFits(i, ctx.Val())
    modifies regs.Repr, ctx, ctx.stack
    ensures Fits(regs, ctx)
    ensures ImplSpec(i, old(regs.Val()), status, old(ctx.Val())) == ImplOut(regs.Val(), status', ctx.Val())
  {
    match i
    case Acc(a) => status' := RunAccOp(a, regs, status, ctx);
    case Modify(m) => status' := RunModifyOp(m, regs, status, ctx);
    case Branch(b) => status' := RunBranchOp(b, regs, status, ctx);
    case FlagWrite(f) => status' := RunFlagOp(f, regs, status, ctx);
    case Compare(k) => status' := RunCompareOp(k, regs, status, ctx);
    case Step(s) => status' := RunStepOp(s, regs, status, ctx);
    case Load(l) => status' := RunLoadOp(l, regs, status, ctx);
    case Store(st) => status' := RunStoreOp(st, regs, status, ctx);
    case Transfer(t) => status' := RunTransferOp(t, regs, status, ctx);
    case Plp => status' := PlpImpl(regs, status, ctx);
    case Rti => status' := RtiImpl(regs, status, ctx);
    case Brk | Jmp | Jsr | Nop | Rts => status' := status;
  }
}
