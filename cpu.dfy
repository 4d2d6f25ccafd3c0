/**
 * cpu/src/cpu.rs: the cycle-stepping pipeline.  A CPU either has no
 * pipeline, in which case the next cycle fetches and decodes an opcode, or
 * it holds the micro-op sequence of the instruction under way and the
 * index of the next micro-op, in which case a cycle runs micro-ops up to
 * and including the first one that takes a cycle.
 *
 * The specification is a value `CpuVal` and functions on it; the class
 * `Cpu` keeps the same fields and its methods are proved against those
 * functions.
 */
module Cpu {
  import opened Bytes
  import opened Wrappers
  import opened Utility
  import opened Registers
  import opened Microcode
  import opened MicroExec
  import opened OpcodeTable
  import Instructions

  /** `Cpu::NMI_VECTOR` */
  const NMI_VECTOR: u16 := 0xFFFA
  /** `Cpu::IRQ_VECTOR` */
  const IRQ_VECTOR: u16 := 0xFFFE

  /** The bits of the `Pins` bit set. */
  const IRQ_PIN: nat := 0
  const RDY_PIN: nat := 1
  const ML_PIN: nat := 2
  const NMI_PIN: nat := 3
  const SYNC_PIN: nat := 4
  const RES_PIN: nat := 5

  /** `Pins::from(Pins::IRQ | Pins::NMI | Pins::SYNC)`: exactly IRQ, NMI and SYNC are set. */
  function InitialPins(): (p: Bitset)
    ensures p.GetRaw() == 25
    ensures forall n: nat | n < 8 :: p.GetFlag(n) <==> n == IRQ_PIN || n == NMI_PIN || n == SYNC_PIN
  {
    var mask := Or8(Or8(Mask(IRQ_PIN), Mask(NMI_PIN)), Mask(SYNC_PIN));
    OrBits(Or8(Mask(IRQ_PIN), Mask(NMI_PIN)), Mask(SYNC_PIN));
    OrBits(Mask(IRQ_PIN), Mask(NMI_PIN));
    MaskBits(IRQ_PIN);
    MaskBits(NMI_PIN);
    MaskBits(SYNC_PIN);
    PinsValue(mask);
    From(mask)
  }

  /** The mask with bits 0, 3 and 4 set is 25. */
  lemma PinsValue(mask: u8)
    requires forall n: nat | n < 8 :: BitOf(mask, n) <==> n == 0 || n == 3 || n == 4
    ensures mask == 25
  {
    assert BitOf(25, 0) && !BitOf(25, 1) && !BitOf(25, 2) && BitOf(25, 3) && BitOf(25, 4);
    assert !BitOf(25, 5) && !BitOf(25, 6) && !BitOf(25, 7) by {
      ZeroBits(0);
    }
    BitsDetermine8(mask, 25);
  }

  // ---------------------------------------------------------------------
  // The specification.
  //
  // The pipeline functions take the semantics of one micro-op as a
  // parameter `step`; the CPU runs them with `ExecStep`, the model of
  // `MicroOp::execute`.

  /** The fields of `Cpu` together with the bus contents. */
  datatype CpuVal = CpuVal(m: MState, pins: Bitset, cycle: nat, index: nat, pipeline: Option<seq<MicroOp>>)
  {
    /** A pending pipeline always has a next micro-op. */
    predicate Inv()
    {
      pipeline.Some? ==> index < |pipeline.value|
    }
  }

  /**
   * The fetch cycle: reads the opcode at PC, steps PC (which panics at
   * 0xFFFF, as `pc + 1` does), decodes it (which panics on an opcode
   * without microcode), installs its micro-ops with a fresh context and
   * counts one cycle.
   */
  function Fetch(s: CpuVal): (r: Outcome<CpuVal>)
    requires s.pipeline.None?
    ensures r.Normal? ==> r.value.Inv() && r.value.pipeline.Some? && r.value.m.Valid()
  {
    var pc := s.m.regs.pc;
    if !s.m.Valid() || pc == 0xFFFF then Panic
    else
      match DecodeInstruction(s.m.mem[pc])
      case None => Panic
      case Some(ops) =>
        Normal(CpuVal(s.m.(regs := s.m.regs.(pc := pc + 1), ctx := NewCtx()), s.pins, s.cycle + 1, 0, Some(ops)))
  }

  /** Where a run of micro-ops stopped: the state, the next index and the cycles of the last micro-op. */
  datatype Ran = Ran(m: MState, index: nat, cost: nat)

  /**
   * Runs micro-ops from index `i` until one reports a nonzero cost or the
   * sequence ends.
   */
  function RunOps(step: (MicroOp, MState) -> Outcome<Effect>, ops: seq<MicroOp>, i: nat, m: MState): (r: Outcome<Ran>)
    requires i < |ops|
    ensures r.Normal? ==> i < r.value.index <= |ops|
    ensures r.Normal? ==> r.value.cost != 0 || r.value.index == |ops|
    decreases |ops| - i
  {
    match step(ops[i], m)
    case Panic => Panic
    case Normal(Effect(m1, k)) =>
      if k != 0 || i + 1 == |ops| then Normal(Ran(m1, i + 1, k))
      else RunOps(step, ops, i + 1, m1)
  }

  /**
   * The execute cycle: runs the pending micro-ops up to the first that
   * takes a cycle, counts that micro-op's cycles (none when the sequence
   * ran out first) and drops the pipeline once the index reaches its end.
   */
  function ExecuteCycle(step: (MicroOp, MState) -> Outcome<Effect>, s: CpuVal): (r: Outcome<CpuVal>)
    requires s.Inv() && s.pipeline.Some?
    ensures r.Normal? ==> r.value.Inv() && r.value.index > s.index && r.value.pins == s.pins
    ensures r.Normal? ==> r.value.index <= |s.pipeline.value|
    ensures r.Normal? ==> (r.value.pipeline.None? <==> r.value.index == |s.pipeline.value|)
    ensures r.Normal? && r.value.pipeline.Some? ==> r.value.pipeline == s.pipeline
  {
    var ops := s.pipeline.value;
    match RunOps(step, ops, s.index, s.m)
    case Panic => Panic
    case Normal(Ran(m1, j, k)) =>
      Normal(CpuVal(m1, s.pins, s.cycle + k, j, if j >= |ops| then None else s.pipeline))
  }

  /** `cycle` */
  function CycleSpec(step: (MicroOp, MState) -> Outcome<Effect>, s: CpuVal): (r: Outcome<CpuVal>)
    requires s.Inv()
    ensures r.Normal? ==> r.value.Inv()
  {
    if s.pipeline.None? then Fetch(s) else ExecuteCycle(step, s)
  }

  /** Cycles until no pipeline is pending. */
  function Finish(step: (MicroOp, MState) -> Outcome<Effect>, s: CpuVal): (r: Outcome<CpuVal>)
    requires s.Inv()
    ensures r.Normal? ==> r.value.Inv() && r.value.pipeline.None?
    decreases if s.pipeline.Some? then |s.pipeline.value| - s.index + 1 else 0
  {
    if s.pipeline.None? then Normal(s)
    else
      match ExecuteCycle(step, s)
      case Panic => Panic
      case Normal(s1) => Finish(step, s1)
  }

  /** `step_instruction`: a fetch when no pipeline is pending, then cycles until none is. */
  function StepInstructionSpec(step: (MicroOp, MState) -> Outcome<Effect>, s: CpuVal): (r: Outcome<CpuVal>)
    requires s.Inv()
    ensures r.Normal? ==> r.value.Inv() && r.value.pipeline.None?
  {
    if s.pipeline.None? then
      match Fetch(s)
      case Panic => Panic
      case Normal(s1) => Finish(step, s1)
    else Finish(step, s)
  }

  /**
   * `step` behaves as `MicroOp::execute` on every input.  The trigger keeps
   * the solver from unfolding `ExecStep` wherever `step` is applied; a
   * proof that needs the fact for one input names `ExecStep` there.
   */
  ghost predicate IsExecute(step: (MicroOp, MState) -> Outcome<Effect>)
  {
    forall op: MicroOp, m: MState {:trigger ExecStep(op, m)} :: step(op, m) == ExecStep(op, m)
  }

  // ---------------------------------------------------------------------
  // Sequencing.

  /**
   * A run up to the first cycle-taking micro-op followed by a run of the
   * rest is a run of the whole suffix.
   */
  lemma {:induction false} RunOpsThenRest(step: (MicroOp, MState) -> Outcome<Effect>, ops: seq<MicroOp>, i: nat, m: MState)
    requires i < |ops|
    ensures RunOps(step, ops, i, m).Panic? ==> Run(step, ops[i..], m).Panic?
    ensures RunOps(step, ops, i, m).Normal? ==>
      var r := RunOps(step, ops, i, m).value;
      Run(step, ops[i..], m) == (match Run(step, ops[r.index..], r.m)
        case Panic => Panic
        case Normal(e) => Normal(Effect(e.m, r.cost + e.cost)))
    decreases |ops| - i
  {
    assert ops[i..][0] == ops[i];
    assert ops[i..][1..] == ops[i + 1..];
    var e := step(ops[i], m);
    if e.Normal? && e.value.cost == 0 && i + 1 < |ops| {
      RunOpsThenRest(step, ops, i + 1, e.value.m);
    }
  }

  /** One step of `RunOps`, for a step whose outcome is known. */
  lemma RunOpsStep(step: (MicroOp, MState) -> Outcome<Effect>, ops: seq<MicroOp>, i: nat, m: MState)
    requires i < |ops|
    ensures step(ops[i], m).Panic? ==> RunOps(step, ops, i, m).Panic?
    ensures step(ops[i], m).Normal? ==> var e := step(ops[i], m).value;
      RunOps(step, ops, i, m) ==
        if e.cost != 0 || i + 1 == |ops| then Normal(Ran(e.m, i + 1, e.cost)) else RunOps(step, ops, i + 1, e.m)
  {
  }

  /**
   * Cycling a pending pipeline to its end runs its remaining micro-ops in
   * order and adds up their cycles.
   */
  lemma {:induction false} FinishRuns(step: (MicroOp, MState) -> Outcome<Effect>, s: CpuVal)
    requires s.Inv() && s.pipeline.Some?
    ensures var ops := s.pipeline.value;
      Finish(step, s) == (match Run(step, ops[s.index..], s.m)
        case Panic => Panic
        case Normal(e) => Normal(CpuVal(e.m, s.pins, s.cycle + e.cost, |ops|, None)))
    decreases |s.pipeline.value| - s.index
  {
    var ops := s.pipeline.value;
    RunOpsThenRest(step, ops, s.index, s.m);
    var r := RunOps(step, ops, s.index, s.m);
    if r.Normal? {
      var s1 := ExecuteCycle(step, s).value;
      if s1.pipeline.Some? {
        FinishRuns(step, s1);
      } else {
        assert ops[r.value.index..] == [];
      }
    }
  }

  /** Cycling a pipeline from its first micro-op runs all of them. */
  lemma FinishFromStart(step: (MicroOp, MState) -> Outcome<Effect>, s: CpuVal)
    requires s.Inv() && s.pipeline.Some? && s.index == 0
    ensures Finish(step, s) == (match Run(step, s.pipeline.value, s.m)
        case Panic => Panic
        case Normal(e) => Normal(CpuVal(e.m, s.pins, s.cycle + e.cost, |s.pipeline.value|, None)))
  {
    FinishRuns(step, s);
    assert s.pipeline.value[0..] == s.pipeline.value;
  }

  /**
   * A whole instruction: `step_instruction` with no pipeline pending
   * fetches the opcode at PC and then runs all of its micro-ops in order;
   * the cycle count grows by one for the fetch plus the cycles the
   * micro-ops report, and the index is left at the end of the sequence.
   */
  lemma InstructionRuns(step: (MicroOp, MState) -> Outcome<Effect>, s: CpuVal)
    requires s.pipeline.None? && s.m.Valid() && s.m.regs.pc < 0xFFFF
    requires DecodeInstruction(s.m.mem[s.m.regs.pc]).Some?
    ensures var ops := DecodeInstruction(s.m.mem[s.m.regs.pc]).value;
      var m1 := s.m.(regs := s.m.regs.(pc := s.m.regs.pc + 1), ctx := NewCtx());
      StepInstructionSpec(step, s) == (match Run(step, ops, m1)
        case Panic => Panic
        case Normal(e) => Normal(CpuVal(e.m, s.pins, s.cycle + 1 + e.cost, |ops|, None)))
  {
    var ops := DecodeInstruction(s.m.mem[s.m.regs.pc]).value;
    var m1 := s.m.(regs := s.m.regs.(pc := s.m.regs.pc + 1), ctx := NewCtx());
    var s1 := CpuVal(m1, s.pins, s.cycle + 1, 0, Some(ops));
    assert Fetch(s) == Normal(s1);
    FinishFromStart(step, s1);
  }

  /**
   * `reset`: clears the cycle count, the index, the CPU's context and the
   * pipeline, then runs `ucode_reset()` on a context of its own and counts
   * the cycles it reports.
   */
  function ResetSpec(step: (MicroOp, MState) -> Outcome<Effect>, s: CpuVal): (r: Outcome<CpuVal>)
    ensures r.Normal? ==> r.value.Inv() && r.value.pipeline.None? && r.value.index == 0
  {
    match Run(step, ResetOps, s.m.(ctx := NewCtx()))
    case Panic => Panic
    case Normal(e) => Normal(CpuVal(e.m.(ctx := NewCtx()), s.pins, e.cost, 0, None))
  }

  /**
   * Reset never fails: it loads PC from the reset vector at 0xFFFC/0xFFFD,
   * leaves the cycle count at 2, sets the I and B flags and keeps every
   * other flag, register and byte of memory, and leaves no pipeline.
   */
  lemma ResetLoadsVector(s: CpuVal)
    requires s.m.Valid()
    ensures ResetSpec(ExecStep, s).Normal?
    ensures var r := ResetSpec(ExecStep, s).value;
      r.cycle == 2 && r.m.mem == s.m.mem && r.m.ctx == NewCtx() && r.pins == s.pins &&
      r.m.regs == s.m.regs.(pc := Word(s.m.mem[RES_VECTOR], s.m.mem[RES_VECTOR + 1])) &&
      GetF(r.m.status, IrqDisable) && GetF(r.m.status, BrkCommand) &&
      forall f: Flag | f != IrqDisable && f != BrkCommand :: GetF(r.m.status, f) == GetF(s.m.status, f)
  {
    ResetRun(s.m.(ctx := NewCtx()));
  }

  // ---------------------------------------------------------------------
  // The machine.

  /** Two pops from a context, as one `PopTwo` of its value. */
  method PopPair(c: Context) returns (a: u8, b: u8)
    requires c.Valid() && c.Size() >= 2
    modifies c
    ensures c.Valid() && (a, b, c.Val()) == PopTwo(old(c.Val()))
  {
    a := c.Pop();
    b := c.Pop();
  }

  /** The `Bus` the CPU reads and writes: 64 KiB of bytes. */
  class Bus {
    var mem: seq<u8>

    ghost predicate Valid()
      reads this
    {
      |mem| == 0x1_0000
    }

    constructor (mem: seq<u8>)
      requires |mem| == 0x1_0000
      ensures Valid() && this.mem == mem
    {
      this.mem := mem;
    }

    /** `read(address)` */
    function Read(address: u16): (b: u8)
      requires Valid()
      reads this
    {
      mem[address]
    }

    /** `write(address, data)`: only the byte at `address` changes. */
    method Write(address: u16, data: u8)
      requires Valid()
      modifies this
      ensures Valid() && mem == old(mem)[address := data]
    {
      mem := mem[address := data];
    }
  }

  /** `Cpu` */
  class Cpu {
    const registers: Registers
    var status: Bitset
    var pins: Bitset
    var cycle: nat
    var index: nat
    const ctx: Context
    var pipeline: Option<seq<MicroOp>>

    ghost predicate Valid()
      reads this, registers, registers.Repr, ctx, ctx.temp
    {
      Instructions.Fits(registers, ctx) && (pipeline.Some? ==> index < |pipeline.value|)
    }

    /** What a micro-op running on context `c` and `bus` sees. */
    function MOf(c: Context, bus: Bus): (m: MState)
      requires registers.Valid() && c.Valid()
      reads this, registers, registers.Repr, c, c.temp, c.stack, bus
    {
      MState(registers.Val(), status, c.Val(), bus.mem)
    }

    /** The whole state, with the CPU's own context. */
    function State(bus: Bus): (s: CpuVal)
      requires Valid()
      reads this, registers, registers.Repr, ctx, ctx.temp, ctx.stack, bus
    {
      CpuVal(MOf(ctx, bus), pins, cycle, index, pipeline)
    }

    /** `Cpu::new()` */
    constructor ()
      ensures Valid() && fresh(registers.Repr) && fresh(ctx) && fresh(ctx.temp) && fresh(ctx.stack)
      ensures registers.Val() == RegsVal(0, 0, 0, 0, 0) && status == New() && pins == InitialPins()
      ensures cycle == 0 && index == 0 && pipeline.None? && ctx.Val() == NewCtx()
    {
      registers := new Registers();
      status := New();
      pins := InitialPins();
      cycle := 0;
      index := 0;
      ctx := new Context();
      pipeline := None;
    }

    // The micro-ops, one method per group; each runs `MicroOp::execute`
    // on the context `c` and the bus and returns the cycles it reports.

    /** The empty cycles and the micro-ops that step PC or SP. */
    method ExecStepping(op: MicroOp, c: Context, bus: Bus) returns (cost: nat)
      requires Instructions.Fits(registers, c) && bus.Valid()
      requires op.EmptyCycle? || op.EmptyNoCycle? || op.LoadIncrPC? || op.StoreDecrSP? || op.IncrLoadSP?
      requires ExecBasic(op, MOf(c, bus)).Normal?
      modifies registers.Repr, c, c.stack, bus
      ensures Instructions.Fits(registers, c) && bus.Valid()
      ensures ExecBasic(op, old(MOf(c, bus))) == Normal(Effect(MOf(c, bus), cost))
    {
      match op
      case EmptyCycle => cost := 1;
      case EmptyNoCycle => cost := 0;
      case LoadIncrPC =>
        var pc := registers.pc.Get();
        c.Push(bus.Read(pc));
        registers.pc.Set(pc + 1);
        cost := 1;
      case StoreDecrSP =>
        var sp := registers.sp.Get();
        var value := c.Pop();
        bus.Write(Word(0, sp), value);
        registers.sp.Set(sp - 1);
        cost := 1;
      case IncrLoadSP =>
        var sp := registers.sp.Get() + 1;
        registers.sp.Set(sp);
        c.Push(bus.Read(Word(0, sp)));
        cost := 1;
    }

    /** The zero-cycle pushes. */
    method ExecPush(op: MicroOp, c: Context, bus: Bus) returns (cost: nat)
      requires Instructions.Fits(registers, c) && bus.Valid()
      requires op.PushAcc? || op.PushZero? || op.PushPCL? || op.PushPCH? || op.PushTemp?
      requires ExecBasic(op, MOf(c, bus)).Normal?
      modifies c, c.stack
      ensures Instructions.Fits(registers, c)
      ensures ExecBasic(op, old(MOf(c, bus))) == Normal(Effect(MOf(c, bus), cost))
    {
      var value: u8;
      match op {
        case PushAcc => value := registers.acc.Get();
        case PushZero => value := 0;
        case PushPCL => value := registers.pc.GetLoByte();
        case PushPCH => value := registers.pc.GetHiByte();
        case PushTemp => value := c.temp.Get();
      }
      c.Push(value);
      cost := 0;
    }

    /** The micro-ops that pop an address and jump to it or load from it. */
    method ExecPopAddress(op: MicroOp, c: Context, bus: Bus) returns (cost: nat)
      requires Instructions.Fits(registers, c) && bus.Valid()
      requires op.PopJump? || op.PopLoadAddress?
      requires ExecBasic(op, MOf(c, bus)).Normal?
      modifies registers.Repr, c, c.stack
      ensures Instructions.Fits(registers, c)
      ensures ExecBasic(op, old(MOf(c, bus))) == Normal(Effect(MOf(c, bus), cost))
    {
      match op
      case PopJump =>
        var hi, lo := PopPair(c);
        registers.pc.Set(Word(lo, hi));
        cost := 0;
      case PopLoadAddress =>
        var hi, lo := PopPair(c);
        c.Push(bus.Read(Word(lo, hi)));
        cost := 1;
    }

    /** The micro-ops that peek an address and load from it, or pop one and store to it. */
    method ExecPeekStore(op: MicroOp, c: Context, bus: Bus) returns (cost: nat)
      requires Instructions.Fits(registers, c) && bus.Valid()
      requires op.PeekLoadAddress? || op.PopStoreAddress?
      requires ExecBasic(op, MOf(c, bus)).Normal?
      modifies c, c.stack, bus
      ensures Instructions.Fits(registers, c) && bus.Valid()
      ensures ExecBasic(op, old(MOf(c, bus))) == Normal(Effect(MOf(c, bus), cost))
    {
      match op
      case PeekLoadAddress =>
        var hi := c.Peek(0);
        var lo := c.Peek(1);
        c.Push(bus.Read(Word(lo, hi)));
        cost := 1;
      case PopStoreAddress =>
        var value, hi := PopPair(c);
        var lo := c.Pop();
        bus.Write(Word(lo, hi), value);
        cost := 1;
    }

    /** The micro-ops on `temp`. */
    method ExecTemp(op: MicroOp, c: Context, bus: Bus) returns (cost: nat)
      requires Instructions.Fits(registers, c) && bus.Valid()
      requires op.PopTemp? || op.IncrTemp? || op.AddTempX?
      requires ExecBasic(op, MOf(c, bus)).Normal?
      modifies c, c.temp
      ensures Instructions.Fits(registers, c)
      ensures ExecBasic(op, old(MOf(c, bus))) == Normal(Effect(MOf(c, bus), cost))
    {
      cost := 0;
      match op
      case PopTemp =>
        var value := c.Pop();
        c.temp.Set(value);
      case IncrTemp =>
        var value := c.temp.Get();
        c.temp.Set(value + 1);
      case AddTempX =>
        var (value, _) := c.temp.SafeAdd(registers.x.Get());
        c.temp.Set(value);
    }

    /** The function of an `Execute` micro-op. */
    method ExecFunction(f: ExecFn, c: Context, bus: Bus)
      requires Instructions.Fits(registers, c) && bus.Valid()
      requires RunFn(f, MOf(c, bus)).Normal?
      modifies this, registers.Repr, c, c.stack
      ensures Instructions.Fits(registers, c)
      ensures RunFn(f, old(MOf(c, bus))) == Normal(MOf(c, bus))
      ensures pins == old(pins) && cycle == old(cycle) && index == old(index) && pipeline == old(pipeline)
    {
      match f
      case Impl(i) =>
        RunInstruction(i, c, bus);
      case ResetFlags =>
        status := WithF(WithF(status.Set(0), IrqDisable, true), BrkCommand, true);
      case PushVector(addr) =>
        c.Push(Lo(addr));
        c.Push(Hi(addr));
      case ResetJump =>
        var hi, lo := PopPair(c);
        registers.pc.Set(Word(lo, hi));
    }

    /** Calls the `*_impl` function of instruction `i`. */
    method RunInstruction(i: Instr, c: Context, bus: Bus)
      requires Instructions.Fits(registers, c) && bus.Valid()
      requires RunImplFn(i, MOf(c, bus)).Normal?
      modifies this, registers.Repr, c, c.stack
      ensures Instructions.Fits(registers, c)
      ensures RunImplFn(i, old(MOf(c, bus))) == Normal(MOf(c, bus))
      ensures pins == old(pins) && cycle == old(cycle) && index == old(index) && pipeline == old(pipeline)
    {
      ghost var m0 := MOf(c, bus);
      ghost var o := Instructions.ImplSpec(i, m0.regs, m0.status, m0.ctx);
      assert RunImplFn(i, m0) == Normal(m0.(regs := o.regs, status := o.status, ctx := o.ctx));
      status := Instructions.RunImpl(i, registers, status, c);
      assert MOf(c, bus) == m0.(regs := o.regs, status := o.status, ctx := o.ctx);
    }

    /** The register an addressing macro indexes with. */
    function IndexRegister(r: IndexReg): (reg: Register)
      requires registers.Valid()
      reads this, registers, registers.Repr
      ensures reg in registers.Repr && reg.modulus == 256 && reg.Get() == IndexValue(r, registers.Val())
    {
      match r
      case X => registers.x
      case Y => registers.y
    }

    // The `Evaluate` closures, one method each; each returns the micro-op
    // its closure selects.  `EvalClosure` dispatches on the closure.

    /**
     * load_indirect_y: pops the base, adds Y and checks for a page cross,
     * with the corrected page-cross step `CrossStep`: in the page it pushes
     * the base back, where the code as written pushes nothing.
     */
    method EvalIndirectY(c: Context, bus: Bus) returns (next: MicroOp)
      requires Instructions.Fits(registers, c) && bus.Valid()
      requires IndirectYClosure(MOf(c, bus)).Normal?
      modifies c, c.stack
      ensures Instructions.Fits(registers, c)
      ensures IndirectYClosure(old(MOf(c, bus))) == Normal(Selected(next, MOf(c, bus)))
    {
      var bal, bah := PopPair(c);
      var (lo, carry) := registers.y.SafeAdd(bal);
      var hi := bah + Instructions.B(carry);
      if hi != bah {
        c.Push(lo);
        c.Push(hi);
        next := EmptyCycle;
      } else {
        c.Push(lo);
        c.Push(bah);
        next := PopLoadAddress;
      }
    }

    /**
     * load_absolute_indexed: pops the base, adds the index and checks for a
     * page cross, with the corrected page-cross step as in `EvalIndirectY`.
     */
    method EvalAbsIndexed(r: IndexReg, c: Context, bus: Bus) returns (next: MicroOp)
      requires Instructions.Fits(registers, c) && bus.Valid()
      requires AbsIndexedClosure(r, MOf(c, bus)).Normal?
      modifies c, c.stack
      ensures Instructions.Fits(registers, c)
      ensures AbsIndexedClosure(r, old(MOf(c, bus))) == Normal(Selected(next, MOf(c, bus)))
    {
      var bah, bal := PopPair(c);
      var (lo, carry) := IndexRegister(r).SafeAdd(bal);
      var hi := bah + Instructions.B(carry);
      if hi != bah {
        c.Push(lo);
        c.Push(hi);
        next := EmptyCycle;
      } else {
        c.Push(lo);
        c.Push(bah);
        next := PopLoadAddress;
      }
    }

    /** The load from the next page after a page cross. */
    method EvalCrossedLoad(c: Context, bus: Bus) returns (next: MicroOp)
      requires Instructions.Fits(registers, c) && bus.Valid()
      requires CrossedLoadClosure(MOf(c, bus)).Normal?
      modifies {}
      ensures Instructions.Fits(registers, c)
      ensures CrossedLoadClosure(old(MOf(c, bus))) == Normal(Selected(next, MOf(c, bus)))
    {
      next := if c.Size() == 2 then PopLoadAddress else EmptyNoCycle;
    }

    /** load_zero_page_indexed: the zero-page base plus the index, wrapping. */
    method EvalZeroPageIndexed(r: IndexReg, c: Context, bus: Bus) returns (next: MicroOp)
      requires Instructions.Fits(registers, c) && bus.Valid()
      requires ZeroPageIndexedClosure(r, MOf(c, bus)).Normal?
      modifies c, c.stack
      ensures Instructions.Fits(registers, c)
      ensures ZeroPageIndexedClosure(r, old(MOf(c, bus))) == Normal(Selected(next, MOf(c, bus)))
    {
      PushZeroPageAddress(r, c, bus);
      next := PopLoadAddress;
    }

    /** Pops the zero-page base and pushes base + index, wrapping, over a zero high byte. */
    method PushZeroPageAddress(r: IndexReg, c: Context, bus: Bus)
      requires Instructions.Fits(registers, c) && bus.Valid() && c.Size() >= 1 && c.ptr > 0
      modifies c, c.stack
      ensures Instructions.Fits(registers, c)
      ensures MOf(c, bus) == ZeroPageIndexed(old(MOf(c, bus)), IndexValue(r, registers.Val()))
    {
      var bal := c.Pop();
      var (lo, _) := IndexRegister(r).SafeAdd(bal);
      c.Push(lo);
      c.Push(0);
    }

    /** store_indirect_y: pops the base and adds Y. */
    method EvalStoreIndirectY(c: Context, bus: Bus) returns (next: MicroOp)
      requires Instructions.Fits(registers, c) && bus.Valid()
      requires StoreIndirectYClosure(MOf(c, bus)).Normal?
      modifies c, c.stack
      ensures Instructions.Fits(registers, c)
      ensures StoreIndirectYClosure(old(MOf(c, bus))) == Normal(Selected(next, MOf(c, bus)))
    {
      var bal, bah := PopPair(c);
      var (lo, carry) := registers.y.SafeAdd(bal);
      var hi := bah + Instructions.B(carry);
      c.Push(lo);
      c.Push(hi);
      next := EmptyCycle;
    }

    /** store_absolute_indexed: pops the base and adds the index. */
    method EvalStoreAbsIndexed(r: IndexReg, c: Context, bus: Bus) returns (next: MicroOp)
      requires Instructions.Fits(registers, c) && bus.Valid()
      requires StoreAbsIndexedClosure(r, MOf(c, bus)).Normal?
      modifies c, c.stack
      ensures Instructions.Fits(registers, c)
      ensures StoreAbsIndexedClosure(r, old(MOf(c, bus))) == Normal(Selected(next, MOf(c, bus)))
    {
      var bah, bal := PopPair(c);
      var (lo, carry) := IndexRegister(r).SafeAdd(bal);
      var hi := bah + Instructions.B(carry);
      c.Push(lo);
      c.Push(hi);
      next := EmptyCycle;
    }

    /** store_zero_page_indexed: the zero-page address, then the instruction itself. */
    method EvalStoreZeroPageIndexed(r: IndexReg, f: Instr, c: Context, bus: Bus) returns (next: MicroOp)
      requires Instructions.Fits(registers, c) && bus.Valid()
      requires StoreZeroPageIndexedClosure(r, f, MOf(c, bus)).Normal?
      modifies this, registers.Repr, c, c.stack
      ensures Instructions.Fits(registers, c)
      ensures StoreZeroPageIndexedClosure(r, f, old(MOf(c, bus))) == Normal(Selected(next, MOf(c, bus)))
      ensures pins == old(pins) && cycle == old(cycle) && index == old(index) && pipeline == old(pipeline)
    {
      PushZeroPageAddress(r, c, bus);
      RunInstruction(f, c, bus);
      next := PopStoreAddress;
    }

    /** load_store_absolute_x: pops the base and adds X. */
    method EvalLoadStoreAbsX(c: Context, bus: Bus) returns (next: MicroOp)
      requires Instructions.Fits(registers, c) && bus.Valid()
      requires LoadStoreAbsXClosure(MOf(c, bus)).Normal?
      modifies c, c.stack
      ensures Instructions.Fits(registers, c)
      ensures LoadStoreAbsXClosure(old(MOf(c, bus))) == Normal(Selected(next, MOf(c, bus)))
    {
      var bah, bal := PopPair(c);
      var (lo, carry) := registers.x.SafeAdd(bal);
      var hi := bah + Instructions.B(carry);
      c.Push(lo);
      c.Push(hi);
      next := PeekLoadAddress;
    }

    /** jump_indirect: pushes the address of the target's high byte. */
    method EvalJumpIndirect(c: Context, bus: Bus) returns (next: MicroOp)
      requires Instructions.Fits(registers, c) && bus.Valid()
      requires JumpIndirectClosure(MOf(c, bus)).Normal?
      modifies c, c.stack
      ensures Instructions.Fits(registers, c)
      ensures JumpIndirectClosure(old(MOf(c, bus))) == Normal(Selected(next, MOf(c, bus)))
    {
      var lo, iah := PopPair(c);
      var ial := c.Pop();
      c.Push(lo);
      c.Push(ial + 1);
      c.Push(iah);
      next := PopLoadAddress;
    }

    /** branch_relative: records the condition in temp and computes the target of a taken branch. */
    method EvalBranchTarget(c: Context, bus: Bus) returns (next: MicroOp)
      requires Instructions.Fits(registers, c) && bus.Valid()
      requires BranchTargetClosure(MOf(c, bus)).Normal?
      modifies c, c.stack, c.temp
      ensures Instructions.Fits(registers, c)
      ensures BranchTargetClosure(old(MOf(c, bus))) == Normal(Selected(next, MOf(c, bus)))
    {
      var result, offset := PopPair(c);
      c.temp.Set(result);
      if result == 0 {
        next := EmptyNoCycle;
      } else {
        next := PushBranchTarget(c, bus, offset, old(MOf(c, bus)));
      }
    }

    /**
     * The taken branch: adds the signed offset to PC's low byte and pushes
     * the target; a page cross (an `overflowing_add` or `overflowing_sub`
     * that overflows) takes the high byte plus one and another cycle.
     */
    method PushBranchTarget(c: Context, bus: Bus, offset: u8, ghost m: MState) returns (next: MicroOp)
      requires Instructions.Fits(registers, c) && bus.Valid() && c.ptr >= 2
      requires m.Valid() && m.regs == registers.Val() && m.status == status && m.mem == bus.mem
      modifies c, c.stack
      ensures Instructions.Fits(registers, c)
      ensures Selected(next, MOf(c, bus)) == BranchStep(m, old(c.Val()), Signed(offset))
    {
      var pcl := registers.pc.GetLoByte();
      var pch := registers.pc.GetHiByte();
      var sum := pcl + Signed(offset);
      var overflow := if Signed(offset) >= 0 then sum >= 256 else sum < 0;
      c.Push(sum % 256);
      if overflow {
        var hi: u8 := (pch as int + 1) % 256;
        c.Push(hi);
        next := EmptyCycle;
      } else {
        c.Push(pch);
        next := PopJump;
      }
    }

    /** branch_relative: jumps when a taken branch crossed a page. */
    method EvalBranchFinish(c: Context, bus: Bus) returns (next: MicroOp)
      requires Instructions.Fits(registers, c) && bus.Valid()
      requires BranchFinishClosure(MOf(c, bus)).Normal?
      modifies {}
      ensures Instructions.Fits(registers, c)
      ensures BranchFinishClosure(old(MOf(c, bus))) == Normal(Selected(next, MOf(c, bus)))
    {
      next := if c.temp.Get() == 0 || c.Size() == 0 then EmptyNoCycle else PopJump;
    }

    /** `function(cpu, ctx)` of an `Evaluate` micro-op. */
    method EvalClosure(e: EvalFn, c: Context, bus: Bus) returns (next: MicroOp)
      requires Instructions.Fits(registers, c) && bus.Valid()
      requires MicroExec.Evaluate(e, MOf(c, bus)).Normal?
      modifies this, registers.Repr, c, c.stack, c.temp
      ensures Instructions.Fits(registers, c)
      ensures MicroExec.Evaluate(e, old(MOf(c, bus))) == Normal(Selected(next, MOf(c, bus)))
      ensures pins == old(pins) && cycle == old(cycle) && index == old(index) && pipeline == old(pipeline)
    {
      match e
      case IndirectYAddr => next := EvalIndirectY(c, bus);
      case AbsIndexedAddr(r) => next := EvalAbsIndexed(r, c, bus);
      case CrossedLoad => next := EvalCrossedLoad(c, bus);
      case ZeroPageIndexedAddr(r) => next := EvalZeroPageIndexed(r, c, bus);
      case StoreIndirectYAddr => next := EvalStoreIndirectY(c, bus);
      case StoreAbsIndexedAddr(r) => next := EvalStoreAbsIndexed(r, c, bus);
      case StoreZeroPageIndexedAddr(r, f) => next := EvalStoreZeroPageIndexed(r, f, c, bus);
      case LoadStoreAbsXAddr => next := EvalLoadStoreAbsX(c, bus);
      case JumpIndirectHigh => next := EvalJumpIndirect(c, bus);
      case BranchTarget => next := EvalBranchTarget(c, bus);
      case BranchFinish => next := EvalBranchFinish(c, bus);
    }

    /** `MicroOp::execute` of a micro-op other than `Evaluate`. */
    method ExecBasicOp(op: MicroOp, c: Context, bus: Bus) returns (cost: nat)
      requires Instructions.Fits(registers, c) && bus.Valid()
      requires !op.Evaluate? && ExecBasic(op, MOf(c, bus)).Normal?
      modifies this, registers.Repr, c, c.stack, c.temp, bus
      ensures Instructions.Fits(registers, c) && bus.Valid()
      ensures ExecBasic(op, old(MOf(c, bus))) == Normal(Effect(MOf(c, bus), cost))
      ensures pins == old(pins) && cycle == old(cycle) && index == old(index) && pipeline == old(pipeline)
    {
      match op
      case EmptyCycle | EmptyNoCycle | LoadIncrPC | StoreDecrSP | IncrLoadSP =>
        cost := ExecStepping(op, c, bus);
      case PushAcc | PushZero | PushPCL | PushPCH | PushTemp =>
        cost := ExecPush(op, c, bus);
      case PopJump | PopLoadAddress =>
        cost := ExecPopAddress(op, c, bus);
      case PeekLoadAddress | PopStoreAddress =>
        cost := ExecPeekStore(op, c, bus);
      case PopTemp | IncrTemp | AddTempX =>
        cost := ExecTemp(op, c, bus);
      case Execute(f) =>
        ExecFunction(f, c, bus);
        cost := 0;
    }

    /**
     * `MicroOp::execute`: runs `op` on the registers, the status, the
     * context `c` and the bus, and returns the cycles it takes.
     */
    method Execute(op: MicroOp, c: Context, bus: Bus) returns (cost: nat)
      requires Instructions.Fits(registers, c) && bus.Valid()
      requires ExecOp(op, MOf(c, bus)).Normal?
      modifies this, registers.Repr, c, c.stack, c.temp, bus
      ensures Instructions.Fits(registers, c) && bus.Valid()
      ensures ExecOp(op, old(MOf(c, bus))) == Normal(Effect(MOf(c, bus), cost))
      ensures pins == old(pins) && cycle == old(cycle) && index == old(index) && pipeline == old(pipeline)
    {
      if op.Evaluate? {
        var next := EvalClosure(op.e, c, bus);
        cost := ExecBasicOp(next, c, bus);
      } else {
        cost := ExecBasicOp(op, c, bus);
      }
    }

    /** `reset(bus)` */
    method Reset(bus: Bus)
      requires Valid() && bus.Valid()
      modifies this, registers.Repr, ctx, ctx.stack, ctx.temp, bus
      ensures Valid() && bus.Valid()
      ensures ResetSpec(ExecStep, old(State(bus))) == Normal(State(bus))
    {
      ResetLoadsVector(State(bus));
      ResetWith(bus, ExecStep);
    }

    /** The body of `reset`, for a `step` that behaves as `MicroOp::execute`. */
    method ResetWith(bus: Bus, ghost step: (MicroOp, MState) -> Outcome<Effect>)
      requires Valid() && bus.Valid() && IsExecute(step)
      requires ResetSpec(step, State(bus)).Normal?
      modifies this, registers.Repr, ctx, ctx.stack, ctx.temp, bus
      ensures Valid() && bus.Valid()
      ensures ResetSpec(step, old(State(bus))) == Normal(State(bus))
    {
      ghost var m0 := MOf(ctx, bus).(ctx := NewCtx());
      ghost var e := Run(step, ResetOps, m0).value;
      ClearSchedule(bus);
      var local := new Context();
      assert MOf(local, bus) == m0;
      ExecuteAll(ResetOps, local, bus, step);
      assert MOf(ctx, bus) == e.m.(ctx := NewCtx());
    }

    /** The start of `reset`: cycle, index and pipeline go, the context is cleared. */
    method ClearSchedule(bus: Bus)
      requires Valid() && bus.Valid()
      modifies this, ctx, ctx.stack, ctx.temp
      ensures Valid() && State(bus) == old(State(bus)).(m := old(MOf(ctx, bus)).(ctx := NewCtx()),
        cycle := 0, index := 0, pipeline := None)
    {
      cycle := 0;
      index := 0;
      ctx.Clear();
      pipeline := None;
    }

    /** `for op in ops { self.cycle += op.execute(self, &mut ctx, bus) }` */
    method ExecuteAll(ops: seq<MicroOp>, c: Context, bus: Bus, ghost step: (MicroOp, MState) -> Outcome<Effect>)
      requires Instructions.Fits(registers, c) && bus.Valid() && IsExecute(step)
      requires Run(step, ops, MOf(c, bus)).Normal?
      modifies this, registers.Repr, c, c.stack, c.temp, bus
      ensures Instructions.Fits(registers, c) && bus.Valid() && cycle >= old(cycle)
      ensures pins == old(pins) && index == old(index) && pipeline == old(pipeline)
      ensures Run(step, ops, old(MOf(c, bus))) == Normal(Effect(MOf(c, bus), cycle - old(cycle)))
    {
      ghost var e := Run(step, ops, MOf(c, bus)).value;
      ghost var cycle0 := cycle;
      for i := 0 to |ops|
        invariant Instructions.Fits(registers, c) && bus.Valid()
        invariant pins == old(pins) && index == old(index) && pipeline == old(pipeline)
        invariant cycle0 <= cycle <= cycle0 + e.cost
        invariant Run(step, ops[i..], MOf(c, bus)) == Normal(Effect(e.m, e.cost - (cycle - cycle0)))
      {
        RunStepThenRest(step, ops, i, MOf(c, bus));
        ExecuteCounted(ops[i], c, bus, step);
      }
      assert ops[|ops|..] == [];
    }

    /** `self.cycle += op.execute(self, ctx, bus)` */
    method ExecuteCounted(op: MicroOp, c: Context, bus: Bus, ghost step: (MicroOp, MState) -> Outcome<Effect>)
      requires Instructions.Fits(registers, c) && bus.Valid() && IsExecute(step)
      requires step(op, MOf(c, bus)).Normal?
      modifies this, registers.Repr, c, c.stack, c.temp, bus
      ensures Instructions.Fits(registers, c) && bus.Valid() && cycle >= old(cycle)
      ensures pins == old(pins) && index == old(index) && pipeline == old(pipeline)
      ensures step(op, old(MOf(c, bus))) == Normal(Effect(MOf(c, bus), cycle - old(cycle)))
    {
      assert step(op, MOf(c, bus)) == ExecStep(op, MOf(c, bus));
      var k := Execute(op, c, bus);
      cycle := cycle + k;
    }

    /**
     * `step_cycle(bus)`, which runs the private `cycle`: with no pipeline it
     * fetches and decodes the opcode at PC; otherwise it runs micro-ops up
     * to and including the first that takes a cycle.
     */
    method StepCycle(bus: Bus)
      requires Valid() && bus.Valid()
      requires CycleSpec(ExecStep, State(bus)).Normal?
      modifies this, registers.Repr, ctx, ctx.stack, ctx.temp, bus
      ensures Valid() && bus.Valid()
      ensures State(bus) == CycleSpec(ExecStep, old(State(bus))).value
    {
      if pipeline.None? {
        FetchCycle(bus);
        return;
      }
      ExecutePipeline(bus, ExecStep);
    }

    /** The fetch half of `cycle`: reads and decodes the opcode at PC and installs its micro-ops. */
    method FetchCycle(bus: Bus)
      requires Valid() && bus.Valid() && pipeline.None?
      requires Fetch(State(bus)).Normal?
      modifies this, registers.Repr, ctx, ctx.stack, ctx.temp
      ensures Valid() && bus.Valid()
      ensures State(bus) == Fetch(old(State(bus))).value
    {
      var pc := registers.pc.Get();
      var op := bus.Read(pc);
      var ucode := DecodeInstruction(op).value;
      Install(bus, ucode);
    }

    /** The writes of the fetch: PC steps, the context is renewed, `ucode` is installed and one cycle counts. */
    method Install(bus: Bus, ucode: seq<MicroOp>)
      requires Valid() && bus.Valid() && pipeline.None? && registers.Val().pc < 0xFFFF && ucode != []
      modifies this, registers.Repr, ctx, ctx.stack, ctx.temp
      ensures Valid() && bus.Valid()
      ensures var m := old(MOf(ctx, bus));
        State(bus) == CpuVal(m.(regs := m.regs.(pc := m.regs.pc + 1), ctx := NewCtx()), old(pins), old(cycle) + 1, 0, Some(ucode))
    {
      var pc := registers.pc.Get();
      registers.pc.Set(pc + 1);
      ctx.Clear();
      index := 0;
      pipeline := Some(ucode);
      cycle := cycle + 1;
    }

    /** The execute half of `cycle`: the loop over the pending micro-ops. */
    method ExecutePipeline(bus: Bus, ghost step: (MicroOp, MState) -> Outcome<Effect>)
      requires Valid() && bus.Valid() && pipeline.Some? && IsExecute(step)
      requires ExecuteCycle(step, State(bus)).Normal?
      modifies this, registers.Repr, ctx, ctx.stack, ctx.temp, bus
      ensures Valid() && bus.Valid()
      ensures State(bus) == ExecuteCycle(step, old(State(bus))).value
    {
      var ops := pipeline.value;
      ghost var s0 := State(bus);
      ghost var r := RunOps(step, ops, index, MOf(ctx, bus)).value;
      ghost var cycle0 := cycle;
      var done := false;
      while !done
        invariant Valid() && bus.Valid() && index <= |ops| && pins == s0.pins
        invariant !done ==> (pipeline == Some(ops) && cycle == cycle0 &&
          RunOps(step, ops, index, MOf(ctx, bus)) == Normal(r))
        invariant done ==> (MOf(ctx, bus) == r.m && index == r.index && cycle == cycle0 + r.cost &&
          pipeline == (if index >= |ops| then None else Some(ops)))
        decreases |ops| - index + (if done then 0 else 1)
      {
        done := ExecuteStep(ops, bus, step, r, cycle0);
      }
      assert ExecuteCycle(step, s0) == Normal(CpuVal(r.m, pins, cycle, index, pipeline));
    }

    /**
     * One pass of the execute loop: runs the next micro-op, drops the
     * pipeline after its last one, and stops at the first that takes a
     * cycle.  `r` is where the run from the current index stops.
     */
    method ExecuteStep(ops: seq<MicroOp>, bus: Bus, ghost step: (MicroOp, MState) -> Outcome<Effect>, ghost r: Ran, ghost cycle0: nat)
      returns (done: bool)
      requires Valid() && bus.Valid() && IsExecute(step)
      requires pipeline == Some(ops) && cycle == cycle0 && RunOps(step, ops, index, MOf(ctx, bus)) == Normal(r)
      modifies this, registers.Repr, ctx, ctx.stack, ctx.temp, bus
      ensures Valid() && bus.Valid() && index == old(index) + 1 && index <= |ops| && pins == old(pins)
      ensures !done ==> (pipeline == Some(ops) && cycle == cycle0 &&
        RunOps(step, ops, index, MOf(ctx, bus)) == Normal(r))
      ensures done ==> (MOf(ctx, bus) == r.m && index == r.index && cycle == cycle0 + r.cost &&
        pipeline == (if index >= |ops| then None else Some(ops)))
    {
      RunOpsStep(step, ops, index, MOf(ctx, bus));
      var k := ExecuteNext(ops, bus, step);
      if index >= |ops| {
        pipeline := None;
      }
      done := false;
      if k != 0 {
        cycle := cycle + k;
        done := true;
      } else if pipeline.None? {
        done := true;
      }
    }

    /** `let uop = pipeline[self.index]; self.index += 1; uop.execute(..)` */
    method ExecuteNext(ops: seq<MicroOp>, bus: Bus, ghost step: (MicroOp, MState) -> Outcome<Effect>) returns (k: nat)
      requires Instructions.Fits(registers, ctx) && bus.Valid() && index < |ops| && IsExecute(step)
      requires step(ops[index], MOf(ctx, bus)).Normal?
      modifies this, registers.Repr, ctx, ctx.stack, ctx.temp, bus
      ensures Instructions.Fits(registers, ctx) && bus.Valid()
      ensures index == old(index) + 1 && pins == old(pins) && cycle == old(cycle) && pipeline == old(pipeline)
      ensures step(ops[old(index)], old(MOf(ctx, bus))) == Normal(Effect(MOf(ctx, bus), k))
    {
      var uop := ops[index];
      assert step(uop, MOf(ctx, bus)) == ExecStep(uop, MOf(ctx, bus));
      index := index + 1;
      k := Execute(uop, ctx, bus);
    }

    /**
     * `step_instruction(bus)`: fetches when no pipeline is pending, then
     * cycles until the pipeline is done.
     */
    method StepInstruction(bus: Bus)
      requires Valid() && bus.Valid()
      requires StepInstructionSpec(ExecStep, State(bus)).Normal?
      modifies this, registers.Repr, ctx, ctx.stack, ctx.temp, bus
      ensures Valid() && bus.Valid()
      ensures State(bus) == StepInstructionSpec(ExecStep, old(State(bus))).value
    {
      ghost var target := StepInstructionSpec(ExecStep, State(bus)).value;
      if pipeline.None? {
        StepCycle(bus);
      }
      while pipeline.Some?
        invariant Valid() && bus.Valid()
        invariant Finish(ExecStep, State(bus)) == Normal(target)
        decreases if pipeline.Some? then |pipeline.value| - index + 1 else 0
      {
        StepCycle(bus);
      }
    }
  }
}
