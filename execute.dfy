/**
 * cpu/src/microcode.rs, behaviour part: what `MicroOp::execute` does to
 * the registers, the status, a context and the bus, how many cycles it
 * reports, and what each `Evaluate` closure selects.
 *
 * The bus is modelled as its 65536 bytes (reads have no side effect).
 * Every `panic!` the Rust code can reach is the `Panic` outcome:
 * `Unimplemented`, a context `push` on a full or `pop` on an empty stack,
 * a `peek` past the top, and the debug-build overflows of `pc + 1`,
 * `sp - 1`, `sp + 1`, `temp + 1`, `bah + carry` and `ial + 1`.  The one
 * exception is the page-cross step of the indexed loads: the closures run
 * the corrected `CrossStep`, and `CrossStepAsWritten` with its lemma
 * `CrossStepAsWrittenPanics` records the panic the code as written reaches
 * on every in-page load.
 */
module MicroExec {
  import opened Bytes
  import opened Wrappers
  import opened Utility
  import opened Registers
  import opened Microcode
  import opened Instructions

  /** What micro-ops act on: registers, status, one context and the bus. */
  datatype MState = MState(regs: RegsVal, status: Bitset, ctx: CtxVal, mem: seq<u8>)
  {
    predicate Valid()
    {
      ctx.Valid() && |mem| == 0x1_0000
    }
  }

  /** The new state and the cycle count `execute` returns. */
  datatype Effect = Effect(m: MState, cost: nat)

  /** The micro-op an `Evaluate` closure returns, and the state it leaves. */
  datatype Selected = Selected(next: MicroOp, m: MState)

  /** The value of the index register a macro names. */
  function IndexValue(r: IndexReg, regs: RegsVal): u8
  {
    match r
    case X => regs.x
    case Y => regs.y
  }

  /** `(lo, carry) = reg.safe_add(b)` on an 8-bit register. */
  function AddCarry(reg: u8, b: u8): (r: (u8, bool))
    ensures r.0 as int + (if r.1 then 256 else 0) == reg + b
  {
    if reg + b < 256 then (reg + b, false) else (reg + b - 256, true)
  }

  /** The state after running the `*_impl` function `i`. */
  function RunImplFn(i: Instr, m: MState): (r: Outcome<MState>)
    requires m.Valid()
    ensures r.Normal? ==> r.value.Valid() && r.value.mem == m.mem
  {
    if !StackFits(i, m.ctx) then Panic
    else
      var o := ImplSpec(i, m.regs, m.status, m.ctx);
      ImplStackEffect(i, m.regs, m.status, m.ctx);
      Normal(m.(regs := o.regs, status := o.status, ctx := o.ctx))
  }

  /** What the function of an `Execute` micro-op does. */
  function RunFn(f: ExecFn, m: MState): (r: Outcome<MState>)
    requires m.Valid()
    ensures r.Normal? ==> r.value.Valid() && r.value.mem == m.mem
  {
    var c := m.ctx;
    match f
    case Impl(i) => RunImplFn(i, m)
    case ResetFlags =>
      Normal(m.(status := WithF(WithF(m.status.Set(0), IrqDisable, true), BrkCommand, true)))
    case PushVector(addr) =>
      if c.ptr < 2 then Panic
      else Normal(m.(ctx := c.Push(Lo(addr)).Push(Hi(addr))))
    case ResetJump =>
      if c.Size() < 2 then Panic
      else
        var (hi, lo, c2) := PopTwo(c);
        Normal(m.(regs := m.regs.(pc := Word(lo, hi)), ctx := c2))
  }

  /** Two `pop()`s: the top byte, the one below it, and the context left. */
  function PopTwo(c: CtxVal): (r: (u8, u8, CtxVal))
    requires c.Valid() && c.Size() >= 2
    ensures r.2.Valid() && r.2.ptr == c.ptr + 2 && r.2.temp == c.temp
    ensures [r.0, r.1] + r.2.Items() == c.Items()
  {
    PopItems(c);
    PopItems(c.Pop().1);
    (c.Pop().0, c.Pop().1.Pop().0, c.Pop().1.Pop().1)
  }

  // ---------------------------------------------------------------------
  // The `Evaluate` closures.

  /**
   * The page-cross step of load_indirect_y and load_absolute_indexed AS
   * WRITTEN: after popping both base bytes it pushes them back only when
   * the page is crossed, so the `PopLoadAddress` it selects otherwise pops
   * an empty context.
   */
  function CrossStepAsWritten(m: MState, c: CtxVal, index: u8, bal: u8, bah: u8): (r: Outcome<Selected>)
    requires m.Valid() && c.Valid() && c.ptr >= 2
    ensures r.Normal? ==> r.value.m.Valid() && r.value.m.mem == m.mem && r.value.m.regs == m.regs
  {
    var (lo, carry) := AddCarry(index, bal);
    if carry && bah == 255 then Panic
    else
      var hi := bah + B(carry);
      if hi != bah then Normal(Selected(EmptyCycle, m.(ctx := c.Push(lo).Push(hi))))
      else Normal(Selected(PopLoadAddress, m.(ctx := c)))
  }

  /**
   * The page-cross step as its comments describe it: the effective address
   * stays on the context in both cases, so `PopLoadAddress` fetches the
   * data at once when no page is crossed.
   */
  function CrossStep(m: MState, c: CtxVal, index: u8, bal: u8, bah: u8): (r: Outcome<Selected>)
    requires m.Valid() && c.Valid() && c.ptr >= 2
    ensures r.Normal? ==> r.value.m.Valid() && r.value.m.mem == m.mem && r.value.m.regs == m.regs
  {
    var (lo, carry) := AddCarry(index, bal);
    if carry && bah == 255 then Panic
    else
      var hi := bah + B(carry);
      if hi != bah then Normal(Selected(EmptyCycle, m.(ctx := c.Push(lo).Push(hi))))
      else Normal(Selected(PopLoadAddress, m.(ctx := c.Push(lo).Push(bah))))
  }

  /** Pushes `lo` and `hi` after adding the index with carry into `hi`. */
  function IndexedAddress(m: MState, c: CtxVal, index: u8, bal: u8, bah: u8, next: MicroOp): (r: Outcome<Selected>)
    requires m.Valid() && c.Valid() && c.ptr >= 2
    ensures r.Normal? ==> r.value.m.Valid() && r.value.m.mem == m.mem && r.value.m.regs == m.regs
  {
    var (lo, carry) := AddCarry(index, bal);
    if carry && bah == 255 then Panic
    else Normal(Selected(next, m.(ctx := c.Push(lo).Push(bah + B(carry)))))
  }

  /** Pops the zero-page base and pushes base + index (wrapping) and a zero high byte. */
  function ZeroPageIndexed(m: MState, index: u8): (r: MState)
    requires m.Valid() && m.ctx.Size() >= 1 && m.ctx.ptr > 0
    ensures r.Valid() && r.mem == m.mem && r.regs == m.regs && r.status == m.status
  {
    var (bal, c1) := m.ctx.Pop();
    m.(ctx := c1.Push(AddCarry(index, bal).0).Push(0))
  }

  /**
   * The zero-page indexed address replaces the base on the context: the
   * low byte is base + index wrapped within the zero page, the high byte
   * is zero, and the bytes below are kept.
   */
  lemma ZeroPageIndexedPushes(m: MState, index: u8)
    requires m.Valid() && m.ctx.Size() >= 1 && m.ctx.ptr > 0
    ensures ZeroPageIndexed(m, index).ctx.Items() == [0, (m.ctx.Items()[0] + index) % 256] + m.ctx.Items()[1..]
  {
    var (bal, c1) := m.ctx.Pop();
    PopItems(m.ctx);
    PushItems(c1, AddCarry(index, bal).0);
    PushItems(c1.Push(AddCarry(index, bal).0), 0);
  }

  /**
   * Pops the low byte of the target and the indirect address, and pushes
   * the low byte back followed by the address of the target's high byte.
   */
  function JumpIndirectStep(m: MState): (r: Outcome<Selected>)
    requires m.Valid() && m.ctx.Size() >= 3
    ensures r.Normal? ==> r.value.m.Valid() && r.value.m.mem == m.mem && r.value.m.regs == m.regs
  {
    var (lo, iah, c2) := PopTwo(m.ctx);
    var (ial, c3) := c2.Pop();
    if ial == 255 then Panic
    else Normal(Selected(PopLoadAddress, m.(ctx := c3.Push(lo).Push(ial + 1).Push(iah))))
  }

  /** The target of a taken branch, computed from PC and the signed offset. */
  function BranchStep(m: MState, c: CtxVal, offset: int): (r: Selected)
    requires m.Valid() && c.Valid() && c.ptr >= 2 && -128 <= offset < 128
    ensures r.m.Valid() && r.m.mem == m.mem && r.m.regs == m.regs
  {
    var pcl := Lo(m.regs.pc);
    var pch := Hi(m.regs.pc);
    var (lo, overflow) :=
      if offset >= 0 then ((pcl + offset) % 256, pcl + offset >= 256)
      else ((pcl + offset) % 256, pcl + offset < 0);
    if overflow then Selected(EmptyCycle, m.(ctx := c.Push(lo).Push((pch + 1) % 256)))
    else Selected(PopJump, m.(ctx := c.Push(lo).Push(pch)))
  }

  /**
   * What every closure guarantees when it does not panic: the state stays
   * within the model's invariant, the bus is untouched, and the micro-op
   * it selects is not itself an `Evaluate`.
   */
  predicate Continues(m: MState, r: Outcome<Selected>)
  {
    r.Normal? ==> r.value.m.Valid() && r.value.m.mem == m.mem && !r.value.next.Evaluate?
  }

  /** load_indirect_y: pops bal, then bah, and adds Y; runs the corrected `CrossStep`. */
  function IndirectYClosure(m: MState): (r: Outcome<Selected>)
    requires m.Valid()
    ensures Continues(m, r)
  {
    if m.ctx.Size() < 2 then Panic
    else
      var (bal, bah, c2) := PopTwo(m.ctx);
      CrossStep(m, c2, m.regs.y, bal, bah)
  }

  /** load_absolute_indexed: pops bah, then bal, and adds the index; runs the corrected `CrossStep`. */
  function AbsIndexedClosure(r: IndexReg, m: MState): (o: Outcome<Selected>)
    requires m.Valid()
    ensures Continues(m, o)
  {
    if m.ctx.Size() < 2 then Panic
    else
      var (bah, bal, c2) := PopTwo(m.ctx);
      CrossStep(m, c2, IndexValue(r, m.regs), bal, bah)
  }

  /** The load after the page-cross check: from the next page if the address is still there. */
  function CrossedLoadClosure(m: MState): (r: Outcome<Selected>)
    requires m.Valid()
    ensures Continues(m, r)
  {
    if m.ctx.Size() == 2 then Normal(Selected(PopLoadAddress, m)) else Normal(Selected(EmptyNoCycle, m))
  }

  /** load_zero_page_indexed. */
  function ZeroPageIndexedClosure(r: IndexReg, m: MState): (o: Outcome<Selected>)
    requires m.Valid()
    ensures Continues(m, o)
  {
    if m.ctx.Size() < 1 || m.ctx.ptr == 0 then Panic
    else Normal(Selected(PopLoadAddress, ZeroPageIndexed(m, IndexValue(r, m.regs))))
  }

  /** store_indirect_y. */
  function StoreIndirectYClosure(m: MState): (r: Outcome<Selected>)
    requires m.Valid()
    ensures Continues(m, r)
  {
    if m.ctx.Size() < 2 then Panic
    else
      var (bal, bah, c2) := PopTwo(m.ctx);
      IndexedAddress(m, c2, m.regs.y, bal, bah, EmptyCycle)
  }

  /** store_absolute_indexed. */
  function StoreAbsIndexedClosure(r: IndexReg, m: MState): (o: Outcome<Selected>)
    requires m.Valid()
    ensures Continues(m, o)
  {
    if m.ctx.Size() < 2 then Panic
    else
      var (bah, bal, c2) := PopTwo(m.ctx);
      IndexedAddress(m, c2, IndexValue(r, m.regs), bal, bah, EmptyCycle)
  }

  /** store_zero_page_indexed: the address, then the instruction itself. */
  function StoreZeroPageIndexedClosure(r: IndexReg, f: Instr, m: MState): (o: Outcome<Selected>)
    requires m.Valid()
    ensures Continues(m, o)
  {
    if m.ctx.Size() < 1 || m.ctx.ptr == 0 then Panic
    else
      match RunImplFn(f, ZeroPageIndexed(m, IndexValue(r, m.regs)))
      case Panic => Panic
      case Normal(m2) => Normal(Selected(PopStoreAddress, m2))
  }

  /** load_store_absolute_x. */
  function LoadStoreAbsXClosure(m: MState): (r: Outcome<Selected>)
    requires m.Valid()
    ensures Continues(m, r)
  {
    if m.ctx.Size() < 2 then Panic
    else
      var (bah, bal, c2) := PopTwo(m.ctx);
      IndexedAddress(m, c2, m.regs.x, bal, bah, PeekLoadAddress)
  }

  /** jump_indirect. */
  function JumpIndirectClosure(m: MState): (r: Outcome<Selected>)
    requires m.Valid()
    ensures Continues(m, r)
  {
    if m.ctx.Size() < 3 then Panic else JumpIndirectStep(m)
  }

  /** branch_relative: the condition byte goes to `temp`; a taken branch computes its target. */
  function BranchTargetClosure(m: MState): (r: Outcome<Selected>)
    requires m.Valid()
    ensures Continues(m, r)
  {
    if m.ctx.Size() < 2 then Panic
    else
      var (result, offset, c2) := PopTwo(m.ctx);
      var c3 := c2.SetTemp(result);
      if result == 0 then Normal(Selected(EmptyNoCycle, m.(ctx := c3)))
      else Normal(BranchStep(m, c3, Signed(offset)))
  }

  /** branch_relative: jumps only when a taken branch left its target on the context. */
  function BranchFinishClosure(m: MState): (r: Outcome<Selected>)
    requires m.Valid()
    ensures Continues(m, r)
  {
    if m.ctx.temp == 0 || m.ctx.Size() == 0 then Normal(Selected(EmptyNoCycle, m)) else Normal(Selected(PopJump, m))
  }

  /** What an `Evaluate` closure does and the micro-op it selects. */
  function Evaluate(e: EvalFn, m: MState): (r: Outcome<Selected>)
    requires m.Valid()
    ensures Continues(m, r)
  {
    match e
    case IndirectYAddr => IndirectYClosure(m)
    case AbsIndexedAddr(reg) => AbsIndexedClosure(reg, m)
    case CrossedLoad => CrossedLoadClosure(m)
    case ZeroPageIndexedAddr(reg) => ZeroPageIndexedClosure(reg, m)
    case StoreIndirectYAddr => StoreIndirectYClosure(m)
    case StoreAbsIndexedAddr(reg) => StoreAbsIndexedClosure(reg, m)
    case StoreZeroPageIndexedAddr(reg, f) => StoreZeroPageIndexedClosure(reg, f, m)
    case LoadStoreAbsXAddr => LoadStoreAbsXClosure(m)
    case JumpIndirectHigh => JumpIndirectClosure(m)
    case BranchTarget => BranchTargetClosure(m)
    case BranchFinish => BranchFinishClosure(m)
  }

  // ---------------------------------------------------------------------
  // `MicroOp::execute`.

  /** `execute` of a micro-op other than `Evaluate`. */
  function ExecBasic(op: MicroOp, m: MState): (r: Outcome<Effect>)
    requires m.Valid() && !op.Evaluate?
    ensures r.Normal? ==> r.value.m.Valid()
  {
    var c := m.ctx;
    var rg := m.regs;
    match op
    case Unimplemented => Panic
    case EmptyCycle => Normal(Effect(m, 1))
    case EmptyNoCycle => Normal(Effect(m, 0))
    case LoadIncrPC =>
      if c.ptr == 0 || rg.pc == 0xFFFF then Panic
      else Normal(Effect(m.(ctx := c.Push(m.mem[rg.pc]), regs := rg.(pc := rg.pc + 1)), 1))
    case StoreDecrSP =>
      if c.Size() == 0 || rg.sp == 0 then Panic
      else
        var (value, c1) := c.Pop();
        Normal(Effect(MState(rg.(sp := rg.sp - 1), m.status, c1, m.mem[Word(0, rg.sp) := value]), 1))
    case IncrLoadSP =>
      if c.ptr == 0 || rg.sp == 255 then Panic
      else
        var sp := rg.sp + 1;
        Normal(Effect(m.(regs := rg.(sp := sp), ctx := c.Push(m.mem[Word(0, sp)])), 1))
    case PushAcc => if c.ptr == 0 then Panic else Normal(Effect(m.(ctx := c.Push(rg.acc)), 0))
    case PushZero => if c.ptr == 0 then Panic else Normal(Effect(m.(ctx := c.Push(0)), 0))
    case PushPCL => if c.ptr == 0 then Panic else Normal(Effect(m.(ctx := c.Push(Lo(rg.pc))), 0))
    case PushPCH => if c.ptr == 0 then Panic else Normal(Effect(m.(ctx := c.Push(Hi(rg.pc))), 0))
    case PopJump =>
      if c.Size() < 2 then Panic
      else
        var (hi, lo, c2) := PopTwo(c);
        Normal(Effect(m.(regs := rg.(pc := Word(lo, hi)), ctx := c2), 0))
    case PopLoadAddress =>
      if c.Size() < 2 then Panic
      else
        var (hi, lo, c2) := PopTwo(c);
        Normal(Effect(m.(ctx := c2.Push(m.mem[Word(lo, hi)])), 1))
    case PeekLoadAddress =>
      if c.Size() < 2 || c.ptr == 0 then Panic
      else Normal(Effect(m.(ctx := c.Push(m.mem[Word(c.Peek(1), c.Peek(0))])), 1))
    case PopStoreAddress =>
      if c.Size() < 3 then Panic
      else
        var (value, hi, c2) := PopTwo(c);
        var (lo, c3) := c2.Pop();
        Normal(Effect(m.(ctx := c3, mem := m.mem[Word(lo, hi) := value]), 1))
    case PopTemp =>
      if c.Size() == 0 then Panic
      else
        var (value, c1) := c.Pop();
        Normal(Effect(m.(ctx := c1.SetTemp(value)), 0))
    case PushTemp => if c.ptr == 0 then Panic else Normal(Effect(m.(ctx := c.Push(c.temp)), 0))
    case IncrTemp => if c.temp == 255 then Panic else Normal(Effect(m.(ctx := c.SetTemp(c.temp + 1)), 0))
    case AddTempX => Normal(Effect(m.(ctx := c.SetTemp(AddCarry(c.temp, rg.x).0)), 0))
    case Execute(f) =>
      match RunFn(f, m)
      case Panic => Panic
      case Normal(m1) => Normal(Effect(m1, 0))
  }

  /** `MicroOp::execute`: an `Evaluate` runs the micro-op its closure selects. */
  function ExecOp(op: MicroOp, m: MState): (r: Outcome<Effect>)
    requires m.Valid()
    ensures r.Normal? ==> r.value.m.Valid()
  {
    if op.Evaluate? then
      match Evaluate(op.e, m)
      case Panic => Panic
      case Normal(Selected(next, m1)) => ExecBasic(next, m1)
    else ExecBasic(op, m)
  }

  /** `execute` as a total step: a state outside the model's invariant panics. */
  function ExecStep(op: MicroOp, m: MState): (r: Outcome<Effect>)
    ensures r.Normal? ==> r.value.m.Valid()
  {
    if m.Valid() then ExecOp(op, m) else Panic
  }

  /**
   * Running micro-ops one after another with the step function `step`,
   * adding up the cycles they report; the first panic ends the run.
   */
  function Run(step: (MicroOp, MState) -> Outcome<Effect>, ops: seq<MicroOp>, m: MState): (r: Outcome<Effect>)
    decreases |ops|
  {
    if |ops| == 0 then Normal(Effect(m, 0))
    else
      match step(ops[0], m)
      case Panic => Panic
      case Normal(Effect(m1, k1)) =>
        match Run(step, ops[1..], m1)
        case Panic => Panic
        case Normal(Effect(m2, k2)) => Normal(Effect(m2, k1 + k2))
  }

  /** A run of `ops[i..]` is the step of `ops[i]` followed by the run of `ops[i+1..]`. */
  lemma RunStepThenRest(step: (MicroOp, MState) -> Outcome<Effect>, ops: seq<MicroOp>, i: nat, m: MState)
    requires i < |ops|
    ensures Run(step, ops[i..], m) == (match step(ops[i], m)
      case Panic => Panic
      case Normal(e1) => (match Run(step, ops[i + 1..], e1.m)
        case Panic => Panic
        case Normal(e2) => Normal(Effect(e2.m, e1.cost + e2.cost))))
  {
    assert ops[i..][0] == ops[i];
    assert ops[i..][1..] == ops[i + 1..];
  }

  /** A run whose every step keeps the invariant ends in a valid state. */
  lemma {:induction false} RunValid(ops: seq<MicroOp>, m: MState)
    requires m.Valid()
    ensures Run(ExecStep, ops, m).Normal? ==> Run(ExecStep, ops, m).value.m.Valid()
    decreases |ops|
  {
    if |ops| > 0 {
      var e := ExecStep(ops[0], m);
      if e.Normal? {
        RunValid(ops[1..], e.value.m);
      }
    }
  }

  /** The micro-ops of `ops` run in order by `MicroOp::execute`. */
  function RunSeq(ops: seq<MicroOp>, m: MState): (r: Outcome<Effect>)
    requires m.Valid()
    ensures r.Normal? ==> r.value.m.Valid()
  {
    RunValid(ops, m);
    Run(ExecStep, ops, m)
  }

  // ---------------------------------------------------------------------
  // Cycle counts.

  /** The cycle counts the documentation of the `MicroOp` variants gives. */
  function DocumentedCycles(op: MicroOp): nat
    requires !op.Evaluate?
  {
    match op
    case EmptyCycle | LoadIncrPC | StoreDecrSP | IncrLoadSP | PopLoadAddress | PeekLoadAddress | PopStoreAddress => 1
    case _ => 0
  }

  /**
   * `execute` returns the documented cycle count of the micro-op; an
   * `Evaluate` returns the count of the micro-op its closure selects.
   */
  lemma ExecCost(op: MicroOp, m: MState)
    requires m.Valid() && ExecOp(op, m).Normal?
    ensures !op.Evaluate? ==> ExecOp(op, m).value.cost == DocumentedCycles(op)
    ensures op.Evaluate? ==>
      Evaluate(op.e, m).Normal? && ExecOp(op, m).value.cost == DocumentedCycles(Evaluate(op.e, m).value.next)
    ensures ExecOp(op, m).value.cost <= 1
  {
  }

  // ---------------------------------------------------------------------
  // The fixed micro-ops, in terms of the live context bytes.

  /** LoadIncrPC pushes the byte at PC and steps PC; it panics on a full context or at PC 0xFFFF. */
  lemma LoadIncrPCSpec(m: MState)
    requires m.Valid()
    ensures ExecOp(LoadIncrPC, m).Panic? <==> m.ctx.Size() == SIZE || m.regs.pc == 0xFFFF
    ensures ExecOp(LoadIncrPC, m).Normal? ==>
      var e := ExecOp(LoadIncrPC, m).value;
      e.cost == 1 && e.m.ctx.Items() == [m.mem[m.regs.pc]] + m.ctx.Items() && e.m.ctx.temp == m.ctx.temp &&
      e.m.regs == m.regs.(pc := m.regs.pc + 1) && e.m.status == m.status && e.m.mem == m.mem
  {
    if m.ctx.ptr > 0 {
      PushItems(m.ctx, m.mem[m.regs.pc]);
    }
  }

  /** PopJump pops hi, then lo, and jumps to lo + 256 * hi. */
  lemma PopJumpSpec(m: MState)
    requires m.Valid()
    ensures ExecOp(PopJump, m).Panic? <==> m.ctx.Size() < 2
    ensures ExecOp(PopJump, m).Normal? ==>
      var e := ExecOp(PopJump, m).value;
      e.cost == 0 && e.m.ctx.Items() == m.ctx.Items()[2..] && e.m.ctx.temp == m.ctx.temp &&
      e.m.regs == m.regs.(pc := m.ctx.Items()[1] as int + 256 * m.ctx.Items()[0] as int) &&
      e.m.status == m.status && e.m.mem == m.mem
  {
  }

  /**
   * StoreDecrSP pops a byte, writes it at the address whose low byte is 0
   * and whose high byte is SP, and decrements SP.
   */
  lemma StoreDecrSPSpec(m: MState)
    requires m.Valid()
    ensures ExecOp(StoreDecrSP, m).Panic? <==> m.ctx.Size() == 0 || m.regs.sp == 0
    ensures ExecOp(StoreDecrSP, m).Normal? ==>
      var e := ExecOp(StoreDecrSP, m).value;
      e.cost == 1 && e.m.ctx.Items() == m.ctx.Items()[1..] && e.m.ctx.temp == m.ctx.temp &&
      e.m.mem == m.mem[256 * m.regs.sp := m.ctx.Items()[0]] &&
      e.m.regs == m.regs.(sp := m.regs.sp - 1) && e.m.status == m.status
  {
  }

  /** IncrLoadSP increments SP and pushes the byte at 256 * SP. */
  lemma IncrLoadSPSpec(m: MState)
    requires m.Valid()
    ensures ExecOp(IncrLoadSP, m).Panic? <==> m.ctx.Size() == SIZE || m.regs.sp == 255
    ensures ExecOp(IncrLoadSP, m).Normal? ==>
      var e := ExecOp(IncrLoadSP, m).value;
      e.cost == 1 && e.m.ctx.Items() == [m.mem[256 * (m.regs.sp + 1)]] + m.ctx.Items() &&
      e.m.ctx.temp == m.ctx.temp &&
      e.m.regs == m.regs.(sp := m.regs.sp + 1) && e.m.status == m.status && e.m.mem == m.mem
  {
    if m.ctx.ptr > 0 && m.regs.sp < 255 {
      PushItems(m.ctx, m.mem[256 * (m.regs.sp + 1)]);
    }
  }

  /** The byte each zero-cycle push micro-op pushes. */
  function PushedByte(op: MicroOp, m: MState): u8
    requires m.Valid() && (op.PushAcc? || op.PushZero? || op.PushPCL? || op.PushPCH? || op.PushTemp?)
  {
    match op
    case PushAcc => m.regs.acc
    case PushZero => 0
    case PushPCL => m.regs.pc % 256
    case PushPCH => m.regs.pc / 256
    case PushTemp => m.ctx.temp
  }

  /** The push micro-ops push one byte, cost nothing and change nothing else. */
  lemma PushSpec(op: MicroOp, m: MState)
    requires m.Valid() && (op.PushAcc? || op.PushZero? || op.PushPCL? || op.PushPCH? || op.PushTemp?)
    ensures ExecOp(op, m).Panic? <==> m.ctx.Size() == SIZE
    ensures ExecOp(op, m).Normal? ==>
      var e := ExecOp(op, m).value;
      e.cost == 0 && e.m.ctx.Items() == [PushedByte(op, m)] + m.ctx.Items() && e.m.ctx.temp == m.ctx.temp &&
      e.m.regs == m.regs && e.m.status == m.status && e.m.mem == m.mem
  {
    if m.ctx.ptr > 0 {
      PushItems(m.ctx, PushedByte(op, m));
    }
  }

  /** PopLoadAddress pops hi and lo and pushes the byte at lo + 256 * hi. */
  lemma PopLoadAddressSpec(m: MState)
    requires m.Valid()
    ensures ExecOp(PopLoadAddress, m).Panic? <==> m.ctx.Size() < 2
    ensures ExecOp(PopLoadAddress, m).Normal? ==>
      var e := ExecOp(PopLoadAddress, m).value;
      var items := m.ctx.Items();
      e.cost == 1 && e.m.ctx.Items() == [m.mem[items[1] as int + 256 * items[0] as int]] + items[2..] &&
      e.m.ctx.temp == m.ctx.temp && e.m.regs == m.regs && e.m.status == m.status && e.m.mem == m.mem
  {
    if m.ctx.Size() >= 2 {
      var (hi, lo, c2) := PopTwo(m.ctx);
      PushItems(c2, m.mem[Word(lo, hi)]);
    }
  }

  /** PeekLoadAddress reads hi and lo in place and pushes the byte at lo + 256 * hi. */
  lemma PeekLoadAddressSpec(m: MState)
    requires m.Valid()
    ensures ExecOp(PeekLoadAddress, m).Panic? <==> m.ctx.Size() < 2 || m.ctx.Size() == SIZE
    ensures ExecOp(PeekLoadAddress, m).Normal? ==>
      var e := ExecOp(PeekLoadAddress, m).value;
      var items := m.ctx.Items();
      e.cost == 1 && e.m.ctx.Items() == [m.mem[items[1] as int + 256 * items[0] as int]] + items &&
      e.m.ctx.temp == m.ctx.temp && e.m.regs == m.regs && e.m.status == m.status && e.m.mem == m.mem
  {
    if 2 <= m.ctx.Size() < SIZE {
      PushItems(m.ctx, m.mem[Word(m.ctx.Peek(1), m.ctx.Peek(0))]);
    }
  }

  /** PopStoreAddress pops a byte, then hi and lo, and writes the byte at lo + 256 * hi. */
  lemma PopStoreAddressSpec(m: MState)
    requires m.Valid()
    ensures ExecOp(PopStoreAddress, m).Panic? <==> m.ctx.Size() < 3
    ensures ExecOp(PopStoreAddress, m).Normal? ==>
      var e := ExecOp(PopStoreAddress, m).value;
      var items := m.ctx.Items();
      e.cost == 1 && e.m.ctx.Items() == items[3..] && e.m.ctx.temp == m.ctx.temp &&
      e.m.mem == m.mem[items[2] as int + 256 * items[1] as int := items[0]] && e.m.regs == m.regs && e.m.status == m.status
  {
  }

  /** The temp register micro-ops. */
  lemma TempSpec(m: MState)
    requires m.Valid()
    ensures ExecOp(PopTemp, m).Normal? <==> m.ctx.Size() > 0
    ensures ExecOp(PopTemp, m).Normal? ==>
      var e := ExecOp(PopTemp, m).value;
      e.cost == 0 && e.m.ctx.temp == m.ctx.Items()[0] && e.m.ctx.Items() == m.ctx.Items()[1..] &&
      e.m.regs == m.regs && e.m.status == m.status && e.m.mem == m.mem
    ensures ExecOp(IncrTemp, m).Normal? <==> m.ctx.temp < 255
    ensures ExecOp(IncrTemp, m).Normal? ==>
      var e := ExecOp(IncrTemp, m).value;
      e.cost == 0 && e.m.ctx.temp == m.ctx.temp + 1 && e.m.ctx.Items() == m.ctx.Items() && e.m == m.(ctx := e.m.ctx)
    ensures ExecOp(AddTempX, m).Normal?
    ensures var e := ExecOp(AddTempX, m).value;
      e.cost == 0 && e.m.ctx.temp == (m.ctx.temp + m.regs.x) % 256 && e.m.ctx.Items() == m.ctx.Items() &&
      e.m == m.(ctx := e.m.ctx)
  {
  }

  // ---------------------------------------------------------------------
  // Reset.

  // `ucode_reset()` one micro-op at a time: `ResetFrom<k>` runs the
  // sequence from its k-th micro-op, on the concrete context a fresh
  // context has reached by then, to the end.

  function ResetFlagsOf(s: Bitset): Bitset
  {
    WithF(WithF(s.Set(0), IrqDisable, true), BrkCommand, true)
  }

  /** The state `ucode_reset()` ends in: PC from `(a, b)`, two bytes left in the context's array. */
  function ResetEnd(m: MState, a: u8, b: u8): MState
  {
    m.(regs := m.regs.(pc := Word(a, b)), ctx := CtxVal(0, [0, 0xFF, b, a], 4))
  }

  lemma ResetFrom5(m: MState, a: u8, b: u8)
    requires m.Valid() && m.ctx == CtxVal(0, [0, 0xFF, b, a], 2)
    ensures RunSeq(ResetOps[5..], m) == Normal(Effect(ResetEnd(m, a, b), 0))
  {
    assert ResetOps[5..][1..] == [];
    assert ExecStep(ResetOps[5], m) == Normal(Effect(ResetEnd(m, a, b), 0));
    assert Run(ExecStep, ResetOps[5..][1..], ResetEnd(m, a, b)) == Normal(Effect(ResetEnd(m, a, b), 0));
  }

  lemma ResetFrom4(m: MState, a: u8)
    requires m.Valid() && m.ctx == CtxVal(0, [0, 0xFF, 0xFD, a], 1)
    ensures RunSeq(ResetOps[4..], m) == Normal(Effect(ResetEnd(m, a, m.mem[0xFFFD]), 1))
  {
    var b := m.mem[0xFFFD];
    var m5 := m.(ctx := CtxVal(0, [0, 0xFF, b, a], 2));
    assert [0, 0xFF, 0xFD, a][2 := b] == [0, 0xFF, b, a];
    assert ExecOp(ResetOps[4], m) == Normal(Effect(m5, 1));
    ResetFrom5(m5, a, b);
    assert ResetEnd(m5, a, b) == ResetEnd(m, a, b);
    assert ResetOps[4..][1..] == ResetOps[5..];
  }

  lemma ResetFrom3(m: MState, a: u8)
    requires m.Valid() && m.ctx == CtxVal(0, [0, 0, 0xFF, a], 3)
    ensures RunSeq(ResetOps[3..], m) == Normal(Effect(ResetEnd(m, a, m.mem[0xFFFD]), 1))
  {
    var m4 := m.(ctx := CtxVal(0, [0, 0xFF, 0xFD, a], 1));
    assert [0, 0, 0xFF, a][2 := 0xFD][1 := 0xFF] == [0, 0xFF, 0xFD, a];
    assert ExecOp(ResetOps[3], m) == Normal(Effect(m4, 0));
    ResetFrom4(m4, a);
    assert ResetOps[3..][1..] == ResetOps[4..];
  }

  lemma ResetFrom2(m: MState)
    requires m.Valid() && m.ctx == CtxVal(0, [0, 0, 0xFF, 0xFC], 2)
    ensures RunSeq(ResetOps[2..], m) == Normal(Effect(ResetEnd(m, m.mem[0xFFFC], m.mem[0xFFFD]), 2))
  {
    var a := m.mem[0xFFFC];
    var m3 := m.(ctx := CtxVal(0, [0, 0, 0xFF, a], 3));
    assert [0, 0, 0xFF, 0xFC][3 := a] == [0, 0, 0xFF, a];
    assert ExecOp(ResetOps[2], m) == Normal(Effect(m3, 1));
    ResetFrom3(m3, a);
    assert ResetOps[2..][1..] == ResetOps[3..];
  }

  lemma ResetFrom1(m: MState)
    requires m.Valid() && m.ctx == NewCtx()
    ensures RunSeq(ResetOps[1..], m) == Normal(Effect(ResetEnd(m, m.mem[0xFFFC], m.mem[0xFFFD]), 2))
  {
    var m2 := m.(ctx := CtxVal(0, [0, 0, 0xFF, 0xFC], 2));
    assert [0, 0, 0, 0][3 := 0xFC][2 := 0xFF] == [0, 0, 0xFF, 0xFC];
    assert ExecOp(ResetOps[1], m) == Normal(Effect(m2, 0));
    ResetFrom2(m2);
    assert ResetOps[1..][1..] == ResetOps[2..];
  }

  /**
   * `ucode_reset()` run on a fresh context: it loads PC from the reset
   * vector at 0xFFFC/0xFFFD, reports two cycles, sets the I and B flags,
   * and leaves every other flag as it was, since `status.set(0)` ORs in
   * nothing.
   */
  lemma ResetRun(m: MState)
    requires m.Valid() && m.ctx == NewCtx()
    ensures RunSeq(ResetOps, m).Normal?
    ensures var e := RunSeq(ResetOps, m).value;
      e.cost == 2 && e.m.mem == m.mem &&
      e.m.regs == m.regs.(pc := m.mem[0xFFFC] as int + 256 * m.mem[0xFFFD] as int) &&
      GetF(e.m.status, IrqDisable) && GetF(e.m.status, BrkCommand) &&
      forall f: Flag | f != IrqDisable && f != BrkCommand :: GetF(e.m.status, f) == GetF(m.status, f)
  {
    var m1 := m.(status := ResetFlagsOf(m.status));
    assert ExecOp(ResetOps[0], m) == Normal(Effect(m1, 0));
    ResetFrom1(m1);
    assert ResetOps[1..] == ResetOps[0..][1..];
    SetZero(m.status);
    WithFSpec(m.status, IrqDisable, true);
    WithFSpec(WithF(m.status, IrqDisable, true), BrkCommand, true);
  }

  // ---------------------------------------------------------------------
  // branch_relative.

  /** PC's low byte plus the signed branch offset, before any wrapping. */
  function BranchSum(pc: u16, offset: u8): int
  {
    Lo(pc) + Signed(offset)
  }

  // The first `Evaluate` of branch_relative, on a context whose top bytes
  // are the condition byte and the offset.  In every case the condition
  // byte ends up in `temp`.

  /** A zero condition byte changes no register and costs nothing. */
  lemma BranchNotTaken(m: MState)
    requires m.Valid() && m.ctx.Size() >= 2 && m.ctx.Items()[0] == 0
    ensures var r := ExecOp(MicroOp.Evaluate(BranchTarget), m);
      r.Normal? && r.value.cost == 0 && r.value.m.regs == m.regs && r.value.m.status == m.status &&
      r.value.m.mem == m.mem && r.value.m.ctx.temp == 0 && r.value.m.ctx.Items() == m.ctx.Items()[2..]
  {
    assert PopTwo(m.ctx).2.SetTemp(0).Items() == m.ctx.Items()[2..];
  }

  /** A taken branch whose low-byte sum stays in the page jumps at once, at no cost. */
  lemma BranchTakenInPage(m: MState)
    requires m.Valid() && m.ctx.Size() >= 2 && m.ctx.Items()[0] != 0
    requires 0 <= BranchSum(m.regs.pc, m.ctx.Items()[1]) < 256
    ensures var r := ExecOp(MicroOp.Evaluate(BranchTarget), m);
      r.Normal? && r.value.cost == 0 &&
      r.value.m.regs == m.regs.(pc := Word(BranchSum(m.regs.pc, m.ctx.Items()[1]), Hi(m.regs.pc))) &&
      r.value.m.status == m.status && r.value.m.mem == m.mem &&
      r.value.m.ctx.temp == m.ctx.Items()[0] && r.value.m.ctx.Items() == m.ctx.Items()[2..]
  {
    var (result, offset, c2) := PopTwo(m.ctx);
    var c3 := c2.SetTemp(result);
    var lo := BranchSum(m.regs.pc, offset);
    var m1 := m.(ctx := c3.Push(lo).Push(Hi(m.regs.pc)));
    assert BranchTargetClosure(m) == Normal(Selected(PopJump, m1));
    PushItems(c3, lo);
    PushItems(c3.Push(lo), Hi(m.regs.pc));
    var (h, l, c4) := PopTwo(m1.ctx);
    assert h == Hi(m.regs.pc) && l == lo && c4.Items() == m.ctx.Items()[2..];
    assert ExecOp(MicroOp.Evaluate(BranchTarget), m) == Normal(Effect(m1.(regs := m.regs.(pc := Word(l, h)), ctx := c4), 0));
  }

  /**
   * A taken branch whose low-byte sum leaves the page pushes the target,
   * with the high byte of PC plus one, and spends a cycle.
   */
  lemma BranchTakenCrossing(m: MState)
    requires m.Valid() && m.ctx.Size() >= 2 && m.ctx.Items()[0] != 0
    requires !(0 <= BranchSum(m.regs.pc, m.ctx.Items()[1]) < 256)
    ensures var r := ExecOp(MicroOp.Evaluate(BranchTarget), m);
      r.Normal? && r.value.cost == 1 && r.value.m.regs == m.regs &&
      r.value.m.status == m.status && r.value.m.mem == m.mem && r.value.m.ctx.temp == m.ctx.Items()[0] &&
      r.value.m.ctx.Items() ==
        [(Hi(m.regs.pc) + 1) % 256, BranchSum(m.regs.pc, m.ctx.Items()[1]) % 256] + m.ctx.Items()[2..]
  {
    var (result, offset, c2) := PopTwo(m.ctx);
    var c3 := c2.SetTemp(result);
    var lo := BranchSum(m.regs.pc, offset) % 256;
    var m1 := m.(ctx := c3.Push(lo).Push((Hi(m.regs.pc) + 1) % 256));
    assert BranchTargetClosure(m) == Normal(Selected(EmptyCycle, m1));
    PushItems(c3, lo);
    PushItems(c3.Push(lo), (Hi(m.regs.pc) + 1) % 256);
  }

  /**
   * The second `Evaluate` of branch_relative: nothing happens when the
   * branch was not taken or has already jumped; otherwise it pops the
   * target pushed by the first one and jumps there.
   */
  lemma BranchFinishSpec(m: MState)
    requires m.Valid()
    ensures var r := ExecOp(MicroOp.Evaluate(BranchFinish), m); var it := m.ctx.Items();
      (m.ctx.temp == 0 || m.ctx.Size() == 0 ==> r == Normal(Effect(m, 0))) &&
      (m.ctx.temp != 0 && m.ctx.Size() == 1 ==> r.Panic?) &&
      (m.ctx.temp != 0 && m.ctx.Size() >= 2 ==>
        r.Normal? && r.value.cost == 0 && r.value.m.ctx.Items() == it[2..] &&
        r.value.m.regs == m.regs.(pc := Word(it[1], it[0])) &&
        r.value.m.status == m.status && r.value.m.mem == m.mem)
  {
  }

  /**
   * On the two bytes branch_relative leaves on a fresh context, a taken
   * in-page branch has already jumped, so the second `Evaluate` then costs
   * nothing and changes nothing.
   */
  lemma BranchInPageThenFinish(m: MState)
    requires m.Valid() && m.ctx.Size() == 2 && m.ctx.Items()[0] != 0
    requires 0 <= BranchSum(m.regs.pc, m.ctx.Items()[1]) < 256
    ensures var e := ExecOp(MicroOp.Evaluate(BranchTarget), m).value;
      ExecOp(MicroOp.Evaluate(BranchFinish), e.m) == Normal(Effect(e.m, 0))
  {
    BranchTakenInPage(m);
    var e := ExecOp(MicroOp.Evaluate(BranchTarget), m).value;
    assert e.m.ctx.Size() == |e.m.ctx.Items()| == 0;
  }

  // ---------------------------------------------------------------------
  // The indexed loads.

  /**
   * The page-cross step as written selects `PopLoadAddress` on a context
   * it has emptied whenever the index does not carry out of the low byte,
   * and that micro-op then panics: every in-page abs,X / abs,Y / (ind),Y
   * load stops there.
   */
  lemma CrossStepAsWrittenPanics(m: MState, c: CtxVal, index: u8, bal: u8, bah: u8)
    requires m.Valid() && c.Valid() && c.Size() == 0 && index + bal < 256
    ensures var s := CrossStepAsWritten(m, c, index, bal, bah);
      s.Normal? && s.value.next == PopLoadAddress && ExecBasic(PopLoadAddress, s.value.m).Panic?
  {
  }

  /**
   * With the correction, the page-cross step followed by the `CrossedLoad`
   * closure leaves exactly the byte at base + index on the context, in one
   * cycle when the page is not crossed and two when it is.
   */
  lemma CrossStepLoads(m: MState, c: CtxVal, index: u8, bal: u8, bah: u8)
    requires m.Valid() && c.Valid() && c.Size() == 0
    requires !(index + bal >= 256 && bah == 255)
    ensures var s := CrossStep(m, c, index, bal, bah);
      s.Normal? && !s.value.next.Evaluate? &&
      var e1 := ExecBasic(s.value.next, s.value.m);
      e1.Normal? &&
      var e2 := ExecOp(MicroOp.Evaluate(CrossedLoad), e1.value.m);
      e2.Normal? && e2.value.m.ctx.Items() == [m.mem[256 * bah + bal + index]] &&
      e2.value.m.regs == m.regs && e2.value.m.status == m.status && e2.value.m.mem == m.mem &&
      e1.value.cost + e2.value.cost == if bal + index >= 256 then 2 else 1
  {
    var (lo, carry) := AddCarry(index, bal);
    var hi := bah + B(carry);
    PushItems(c, lo);
    PushItems(c.Push(lo), hi);
    var c2 := c.Push(lo).Push(hi);
    var (h, l, c3) := PopTwo(c2);
    PushItems(c3, m.mem[Word(l, h)]);
  }

  /**
   * load_absolute_indexed, with the corrected page-cross step: after the
   * two operand bytes are fetched, the two `Evaluate` closures load the
   * byte at the base address plus the index register, costing an extra
   * cycle exactly when the page is crossed.  As written, the in-page case
   * panics instead (`CrossStepAsWrittenPanics`).
   */
  lemma AbsIndexedLoad(m: MState, reg: IndexReg)
    requires m.Valid() && m.ctx.Size() == 2
    requires var it := m.ctx.Items(); !(IndexValue(reg, m.regs) + it[1] >= 256 && it[0] == 255)
    ensures var it := m.ctx.Items(); var idx := IndexValue(reg, m.regs);
      var e1 := ExecOp(MicroOp.Evaluate(AbsIndexedAddr(reg)), m);
      e1.Normal? &&
      var e2 := ExecOp(MicroOp.Evaluate(CrossedLoad), e1.value.m);
      e2.Normal? && e2.value.m.ctx.Items() == [m.mem[Word(it[1], it[0]) + idx]] &&
      e2.value.m.regs == m.regs && e2.value.m.status == m.status && e2.value.m.mem == m.mem &&
      e1.value.cost + e2.value.cost == if it[1] + idx >= 256 then 2 else 1
  {
    var (bah, bal, c2) := PopTwo(m.ctx);
    CrossStepLoads(m, c2, IndexValue(reg, m.regs), bal, bah);
  }

  /**
   * load_indirect_y, with the corrected page-cross step (as written, the
   * in-page case panics): the two bytes fetched from the zero page sit on the
   * context with the one from ial + 1 on top, and the closure takes the top
   * one as the low byte of the base, so the byte loaded is the one at
   * (top + 256 * second) + Y.
   */
  lemma IndirectYLoad(m: MState)
    requires m.Valid() && m.ctx.Size() == 2
    requires var it := m.ctx.Items(); !(m.regs.y + it[0] >= 256 && it[1] == 255)
    ensures var it := m.ctx.Items();
      var e1 := ExecOp(MicroOp.Evaluate(IndirectYAddr), m);
      e1.Normal? &&
      var e2 := ExecOp(MicroOp.Evaluate(CrossedLoad), e1.value.m);
      e2.Normal? && e2.value.m.ctx.Items() == [m.mem[Word(it[0], it[1]) + m.regs.y]] &&
      e2.value.m.regs == m.regs && e2.value.m.status == m.status && e2.value.m.mem == m.mem &&
      e1.value.cost + e2.value.cost == if it[0] + m.regs.y >= 256 then 2 else 1
  {
    var (bal, bah, c2) := PopTwo(m.ctx);
    CrossStepLoads(m, c2, m.regs.y, bal, bah);
  }

  /**
   * load_zero_page_indexed: after the operand byte is fetched, the closure
   * loads the zero-page byte at base + index, wrapping within the zero
   * page, in one cycle.
   */
  lemma ZeroPageIndexedLoad(m: MState, reg: IndexReg)
    requires m.Valid() && m.ctx.Size() == 1
    ensures var idx := IndexValue(reg, m.regs);
      var e := ExecOp(MicroOp.Evaluate(ZeroPageIndexedAddr(reg)), m);
      e.Normal? && e.value.m.ctx.Items() == [m.mem[(m.ctx.Items()[0] + idx) % 256]] &&
      e.value.m.regs == m.regs && e.value.m.status == m.status && e.value.m.mem == m.mem &&
      e.value.cost == 1
  {
    var m1 := ZeroPageIndexed(m, IndexValue(reg, m.regs));
    ZeroPageIndexedPushes(m, IndexValue(reg, m.regs));
    var (hi, lo, c2) := PopTwo(m1.ctx);
    PushItems(c2, m.mem[Word(lo, hi)]);
  }

  // ---------------------------------------------------------------------
  // The indexed stores.

  /** The byte a store instruction writes: X for STX, Y for STY, A for STA and PHA. */
  function StoredByte(st: StoreInstr, r: RegsVal): u8
  {
    if st == Stx then r.x else if st == Sty then r.y else r.acc
  }

  /**
   * A store instruction on a context holding an address, high byte on
   * top, followed by `PopStoreAddress`: the stored register is written at
   * that address, in one cycle, and the context is left empty.
   */
  lemma StoreThenPop(m: MState, st: StoreInstr)
    requires m.Valid() && m.ctx.Size() == 2 && st != Php
    ensures var r := RunImplFn(Instr.Store(st), m);
      r.Normal? && r.value.regs == m.regs && r.value.status == m.status &&
      ExecOp(Exec(Instr.Store(st)), m) == Normal(Effect(r.value, 0)) &&
      var e := ExecBasic(PopStoreAddress, r.value);
      e.Normal? && e.value.cost == 1 && e.value.m.ctx.Size() == 0 &&
      e.value.m.mem == m.mem[Word(m.ctx.Items()[1], m.ctx.Items()[0]) := StoredByte(st, m.regs)] &&
      e.value.m.regs == m.regs && e.value.m.status == m.status
  {
    StoreSpec(st, m.regs, m.status, m.ctx);
    var m2 := RunImplFn(Instr.Store(st), m).value;
    var (v, h, c3) := PopTwo(m2.ctx);
    PopItems(c3);
  }

  /**
   * The address step of the indexed stores, then the store instruction and
   * `PopStoreAddress`: the step panics exactly when the index carries out
   * of page 0xFF; otherwise the stored register is written at base + index
   * and the context is left empty.
   */
  lemma IndexedAddressStores(m: MState, c: CtxVal, index: u8, bal: u8, bah: u8, st: StoreInstr)
    requires m.Valid() && c.Valid() && c.Size() == 0 && st != Php
    ensures var s := IndexedAddress(m, c, index, bal, bah, EmptyCycle);
      (s.Panic? <==> bal + index >= 256 && bah == 255) &&
      (s.Normal? ==>
        (s.value.next == EmptyCycle &&
        s.value.m.regs == m.regs && s.value.m.status == m.status &&
        var e2 := ExecOp(Exec(Instr.Store(st)), s.value.m);
        e2.Normal? &&
        var e3 := ExecOp(PopStoreAddress, e2.value.m);
        e3.Normal? && e3.value.cost == 1 && e3.value.m.ctx.Size() == 0 &&
        e3.value.m.mem == m.mem[Word(bal, bah) + index := StoredByte(st, m.regs)] &&
        e3.value.m.regs == m.regs && e3.value.m.status == m.status))
  {
    var (lo, carry) := AddCarry(index, bal);
    if !(carry && bah == 255) {
      var hi := bah + B(carry);
      PushItems(c, lo);
      PushItems(c.Push(lo), hi);
      var m1 := m.(ctx := c.Push(lo).Push(hi));
      assert IndexedAddress(m, c, index, bal, bah, EmptyCycle) == Normal(Selected(EmptyCycle, m1));
      assert m1.ctx.Items() == [hi, lo];
      StoreThenPop(m1, st);
      var e2 := ExecOp(Exec(Instr.Store(st)), m1);
      assert e2.value.m == RunImplFn(Instr.Store(st), m1).value;
      assert ExecOp(PopStoreAddress, e2.value.m) == ExecBasic(PopStoreAddress, e2.value.m);
      assert Word(lo, hi) == Word(bal, bah) + index;
    }
  }

  /**
   * store_absolute_indexed: after the two operand bytes are fetched, the
   * closure panics exactly when base + index passes 0xFFFF; otherwise it
   * takes one cycle, and the store and `PopStoreAddress` write the stored
   * register at base + index.
   */
  lemma StoreAbsIndexedWrites(m: MState, reg: IndexReg, st: StoreInstr)
    requires m.Valid() && m.ctx.Size() == 2 && st != Php
    ensures var it := m.ctx.Items(); var idx := IndexValue(reg, m.regs);
      var e1 := ExecOp(MicroOp.Evaluate(StoreAbsIndexedAddr(reg)), m);
      (e1.Panic? <==> it[1] + idx >= 256 && it[0] == 255) &&
      (e1.Normal? ==>
        (e1.value.cost == 1 &&
        var e2 := ExecOp(Exec(Instr.Store(st)), e1.value.m);
        e2.Normal? &&
        var e3 := ExecOp(PopStoreAddress, e2.value.m);
        e3.Normal? && e3.value.m.ctx.Size() == 0 &&
        e3.value.m.mem == m.mem[Word(it[1], it[0]) + idx := StoredByte(st, m.regs)] &&
        e3.value.m.regs == m.regs && e3.value.m.status == m.status))
  {
    var (bah, bal, c2) := PopTwo(m.ctx);
    IndexedAddressStores(m, c2, IndexValue(reg, m.regs), bal, bah, st);
  }

  /**
   * store_indirect_y: with the byte fetched from ial + 1 on top taken as
   * the low byte, as in load_indirect_y, the closure panics exactly when
   * base + Y passes 0xFFFF; otherwise the store writes at base + Y.
   */
  lemma StoreIndirectYWrites(m: MState, st: StoreInstr)
    requires m.Valid() && m.ctx.Size() == 2 && st != Php
    ensures var it := m.ctx.Items();
      var e1 := ExecOp(MicroOp.Evaluate(StoreIndirectYAddr), m);
      (e1.Panic? <==> it[0] + m.regs.y >= 256 && it[1] == 255) &&
      (e1.Normal? ==>
        (e1.value.cost == 1 &&
        var e2 := ExecOp(Exec(Instr.Store(st)), e1.value.m);
        e2.Normal? &&
        var e3 := ExecOp(PopStoreAddress, e2.value.m);
        e3.Normal? && e3.value.m.ctx.Size() == 0 &&
        e3.value.m.mem == m.mem[Word(it[0], it[1]) + m.regs.y := StoredByte(st, m.regs)] &&
        e3.value.m.regs == m.regs && e3.value.m.status == m.status))
  {
    var (bal, bah, c2) := PopTwo(m.ctx);
    IndexedAddressStores(m, c2, m.regs.y, bal, bah, st);
  }

  /**
   * store_zero_page_indexed: after the operand byte is fetched, the one
   * closure runs the store and selects `PopStoreAddress`, which writes the
   * stored register at base + index, wrapping within the zero page, in
   * one cycle.
   */
  lemma StoreZeroPageIndexedWrites(m: MState, reg: IndexReg, st: StoreInstr)
    requires m.Valid() && m.ctx.Size() == 1 && st != Php
    ensures var idx := IndexValue(reg, m.regs);
      var e := ExecOp(MicroOp.Evaluate(StoreZeroPageIndexedAddr(reg, Instr.Store(st))), m);
      e.Normal? && e.value.cost == 1 && e.value.m.ctx.Size() == 0 &&
      e.value.m.mem == m.mem[(m.ctx.Items()[0] + idx) % 256 := StoredByte(st, m.regs)] &&
      e.value.m.regs == m.regs && e.value.m.status == m.status
  {
    var m1 := ZeroPageIndexed(m, IndexValue(reg, m.regs));
    ZeroPageIndexedPushes(m, IndexValue(reg, m.regs));
    StoreThenPop(m1, st);
  }

  // ---------------------------------------------------------------------
  // load_store_absolute_x.
  //
  // After `PopStoreAddress` has taken the three bytes the `Evaluate` and
  // `PeekLoadAddress` left, the context is empty, so the `PopTemp` that
  // follows always panics: every read-modify-write abs,X instruction stops
  // there.  `LoadStoreAbsX<k>` follows the sequence from its k-th
  // micro-op on a context holding the bytes it holds at that point.

  lemma LoadStoreAbsX6(f: Instr, m: MState)
    requires m.Valid() && m.ctx.Size() == 0
    ensures RunSeq(LoadStoreAbsoluteX(f)[6..], m).Panic?
  {
    assert LoadStoreAbsoluteX(f)[6] == PopTemp;
  }

  lemma LoadStoreAbsX5(f: Instr, m: MState)
    requires m.Valid() && m.ctx.Size() == 3
    ensures RunSeq(LoadStoreAbsoluteX(f)[5..], m).Panic?
  {
    var ops := LoadStoreAbsoluteX(f);
    assert ops[5] == PopStoreAddress;
    LoadStoreAbsX6(f, ExecOp(ops[5], m).value.m);
    assert ops[5..][1..] == ops[6..];
  }

  lemma LoadStoreAbsX4(f: Instr, m: MState)
    requires m.Valid() && m.ctx.Size() == 3
    ensures RunSeq(LoadStoreAbsoluteX(f)[4..], m).Panic?
  {
    var ops := LoadStoreAbsoluteX(f);
    assert ops[4] == EmptyCycle;
    LoadStoreAbsX5(f, m);
    assert ops[4..][1..] == ops[5..];
  }

  lemma LoadStoreAbsX3(f: Instr, m: MState)
    requires m.Valid() && m.ctx.Size() == 2
    ensures RunSeq(LoadStoreAbsoluteX(f)[3..], m).Panic?
  {
    var ops := LoadStoreAbsoluteX(f);
    assert ops[3] == MicroOp.Evaluate(LoadStoreAbsXAddr);
    var e := ExecOp(ops[3], m);
    if e.Normal? {
      LoadStoreAbsX4(f, e.value.m);
    }
    assert ops[3..][1..] == ops[4..];
  }

  lemma LoadStoreAbsX2(f: Instr, m: MState)
    requires m.Valid() && m.ctx.Size() == 2
    ensures RunSeq(LoadStoreAbsoluteX(f)[2..], m).Panic?
  {
    var ops := LoadStoreAbsoluteX(f);
    assert ops[2] == EmptyCycle;
    LoadStoreAbsX3(f, m);
    assert ops[2..][1..] == ops[3..];
  }

  lemma LoadStoreAbsX1(f: Instr, m: MState)
    requires m.Valid() && m.ctx.Size() == 1
    ensures RunSeq(LoadStoreAbsoluteX(f)[1..], m).Panic?
  {
    var ops := LoadStoreAbsoluteX(f);
    assert ops[1] == LoadIncrPC;
    var e := ExecOp(ops[1], m);
    if e.Normal? {
      LoadStoreAbsX2(f, e.value.m);
    }
    assert ops[1..][1..] == ops[2..];
  }

  /** load_store_absolute_x panics on every state a fetch leaves behind. */
  lemma LoadStoreAbsXPanics(f: Instr, m: MState)
    requires m.Valid() && m.ctx.Size() == 0
    ensures RunSeq(LoadStoreAbsoluteX(f), m).Panic?
  {
    var ops := LoadStoreAbsoluteX(f);
    var e := ExecOp(ops[0], m);
    if e.Normal? {
      LoadStoreAbsX1(f, e.value.m);
    }
    assert ops[1..] == ops[0..][1..];
  }
}
