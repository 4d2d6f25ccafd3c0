/**
 * src/cpu.rs: the first emulator's `CPU`, the older twin of
 * cpu/src/cpu.rs.  It holds its registers, status, pins and context by
 * value and a reference to the flat `Memory` of src/memory.rs (65535
 * bytes) instead of a bus; it fetches with `memory.read8(pc)`.
 *
 * The twin runs the micro-ops of a `microcode` module of its own, which
 * is not part of this model.  Its methods therefore take the behaviour
 * of one micro-op as a parameter `exec`, of the same shape as the model
 * of `MicroOp::execute` in cpu/src/microcode.rs.  The pipeline itself is
 * specified by the same functions as the newer CPU (`Cpu.ExecuteCycle`,
 * `Cpu.Finish`, `Cpu.ResetSpec`); only the fetch differs.
 */
module LegacyCpu {
  import opened Bytes
  import opened Wrappers
  import opened Utility
  import opened Registers
  import opened Microcode
  import opened MicroExec
  import opened OpcodeTable
  import Memory
  import Cpu

  /**
   * The fetch cycle of the twin: `pc + 1` panics at 0xFFFF and
   * `memory.read8(pc)` asserts that `pc` lies inside the memory; an
   * opcode without microcode panics in `decode_instruction`.  Otherwise
   * the opcode's micro-ops are installed with a fresh context and one
   * cycle is counted.
   */
  function LegacyFetch(s: Cpu.CpuVal): (r: Outcome<Cpu.CpuVal>)
    requires s.pipeline.None?
    ensures r.Normal? <==> (s.m.regs.pc < 0xFFFF && (s.m.regs.pc as nat) < |s.m.mem| &&
      DecodeInstruction(s.m.mem[s.m.regs.pc]).Some?)
    ensures r.Normal? ==> (r.value.Inv() && r.value.index == 0 && r.value.cycle == s.cycle + 1 &&
      r.value.pipeline == DecodeInstruction(s.m.mem[s.m.regs.pc]) &&
      r.value.m == s.m.(regs := s.m.regs.(pc := s.m.regs.pc + 1), ctx := NewCtx()) &&
      r.value.pins == s.pins)
  {
    var pc := s.m.regs.pc;
    if pc == 0xFFFF || pc as nat >= |s.m.mem| then Panic
    else
      match DecodeInstruction(s.m.mem[pc])
      case None => Panic
      case Some(ops) =>
        Normal(Cpu.CpuVal(s.m.(regs := s.m.regs.(pc := pc + 1), ctx := NewCtx()), s.pins, s.cycle + 1, 0, Some(ops)))
  }

  /** `cycle`: a fetch with no pipeline, otherwise the execute half shared with the newer CPU. */
  function LegacyCycleSpec(exec: (MicroOp, MState) -> Outcome<Effect>, s: Cpu.CpuVal): (r: Outcome<Cpu.CpuVal>)
    requires s.Inv()
    ensures r.Normal? ==> r.value.Inv()
  {
    if s.pipeline.None? then LegacyFetch(s) else Cpu.ExecuteCycle(exec, s)
  }

  /** `step_instruction`: a fetch when no pipeline is pending, then cycles until none is. */
  function LegacyStepInstructionSpec(exec: (MicroOp, MState) -> Outcome<Effect>, s: Cpu.CpuVal): (r: Outcome<Cpu.CpuVal>)
    requires s.Inv()
    ensures r.Normal? ==> r.value.Inv() && r.value.pipeline.None?
  {
    if s.pipeline.None? then
      match LegacyFetch(s)
      case Panic => Panic
      case Normal(s1) => Cpu.Finish(exec, s1)
    else Cpu.Finish(exec, s)
  }

  /**
   * The twin over a 65535-byte memory fetches exactly as the newer CPU
   * does over a 64 KiB bus holding the same bytes below 0xFFFF: both
   * panic together, and otherwise they install the same micro-ops at the
   * same PC and cycle count.  The byte at 0xFFFF is never fetched, as
   * `pc + 1` panics there first.
   */
  lemma {:induction false} FetchAgrees(s: Cpu.CpuVal, top: u8)
    requires s.pipeline.None? && s.m.ctx.Valid() && |s.m.mem| == Memory.SIZE
    ensures var bus := s.(m := s.m.(mem := s.m.mem + [top]));
      (LegacyFetch(s).Normal? <==> Cpu.Fetch(bus).Normal?) &&
      (LegacyFetch(s).Normal? ==>
        Cpu.Fetch(bus).value == LegacyFetch(s).value.(m := LegacyFetch(s).value.m.(mem := s.m.mem + [top])))
  {
    var bus := s.(m := s.m.(mem := s.m.mem + [top]));
    assert bus.m.Valid();
    var pc := s.m.regs.pc;
    if pc < 0xFFFF {
      assert bus.m.mem[pc] == s.m.mem[pc];
    }
  }

  /**
   * A whole instruction of the twin: `step_instruction` with no pipeline
   * pending fetches the opcode at PC and runs all of its micro-ops in
   * order; the cycle count grows by one plus the cycles they report.
   */
  lemma LegacyInstructionRuns(exec: (MicroOp, MState) -> Outcome<Effect>, s: Cpu.CpuVal)
    requires s.pipeline.None? && s.m.regs.pc < 0xFFFF && (s.m.regs.pc as nat) < |s.m.mem|
    requires DecodeInstruction(s.m.mem[s.m.regs.pc]).Some?
    ensures var ops := DecodeInstruction(s.m.mem[s.m.regs.pc]).value;
      var m1 := s.m.(regs := s.m.regs.(pc := s.m.regs.pc + 1), ctx := NewCtx());
      LegacyStepInstructionSpec(exec, s) == (match Run(exec, ops, m1)
        case Panic => Panic
        case Normal(e) => Normal(Cpu.CpuVal(e.m, s.pins, s.cycle + 1 + e.cost, |ops|, None)))
  {
    var ops := DecodeInstruction(s.m.mem[s.m.regs.pc]).value;
    var m1 := s.m.(regs := s.m.regs.(pc := s.m.regs.pc + 1), ctx := NewCtx());
    var s1 := Cpu.CpuVal(m1, s.pins, s.cycle + 1, 0, Some(ops));
    assert LegacyFetch(s) == Normal(s1);
    assert LegacyStepInstructionSpec(exec, s) == Cpu.Finish(exec, s1);
    Cpu.FinishFromStart(exec, s1);
  }

  /**
   * `exec` is a micro-op semantics the twin can run: from a state with a
   * well-formed context and a full memory it leaves both well-formed.
   */
  ghost predicate Runnable(exec: (MicroOp, MState) -> Outcome<Effect>)
  {
    forall op: MicroOp, m: MState ::
      m.ctx.Valid() && |m.mem| == Memory.SIZE && exec(op, m).Normal? ==>
        exec(op, m).value.m.ctx.Valid() && |exec(op, m).value.m.mem| == Memory.SIZE
  }

  /** `CPU` */
  class CPU {
    var registers: RegsVal
    var status: Bitset
    var pins: Bitset
    const memory: Memory.Memory
    var cycle: nat
    var index: nat
    var ctx: CtxVal
    var pipeline: Option<seq<MicroOp>>

    ghost predicate Valid()
      reads this, memory
    {
      memory.Valid() && ctx.Valid() && (pipeline.Some? ==> index < |pipeline.value|)
    }

    /** What a micro-op running on context `c` sees. */
    function MOf(c: CtxVal): (m: MState)
      reads this, memory
    {
      MState(registers, status, c, memory.data)
    }

    /** The whole state, with the CPU's own context. */
    function State(): (s: Cpu.CpuVal)
      reads this, memory
    {
      Cpu.CpuVal(MOf(ctx), pins, cycle, index, pipeline)
    }

    /** `CPU::new(memory)` */
    constructor (memory: Memory.Memory)
      requires memory.Valid()
      ensures Valid() && this.memory == memory
      ensures registers == RegsVal(0, 0, 0, 0, 0) && status == New() && pins == Cpu.InitialPins()
      ensures cycle == 0 && index == 0 && ctx == NewCtx() && pipeline.None?
    {
      registers := RegsVal(0, 0, 0, 0, 0);
      status := New();
      pins := Cpu.InitialPins();
      this.memory := memory;
      cycle := 0;
      index := 0;
      ctx := NewCtx();
      pipeline := None;
    }

    /** `op.execute(self, c)`: the new context and the cycles `op` reports. */
    method Execute(exec: (MicroOp, MState) -> Outcome<Effect>, op: MicroOp, c: CtxVal) returns (c': CtxVal, k: nat)
      requires memory.Valid() && c.Valid() && Runnable(exec)
      requires exec(op, MOf(c)).Normal?
      modifies this, memory
      ensures memory.Valid() && c'.Valid()
      ensures exec(op, old(MOf(c))) == Normal(Effect(MOf(c'), k))
      ensures pins == old(pins) && cycle == old(cycle) && index == old(index) &&
        pipeline == old(pipeline) && ctx == old(ctx)
    {
      var e := exec(op, MOf(c)).value;
      registers := e.m.regs;
      status := e.m.status;
      memory.data := e.m.mem;
      c', k := e.m.ctx, e.cost;
    }

    /**
     * `reset()`: clears the cycle count, the index, the context and the
     * pipeline, then runs `ucode_reset()` on a context of its own and
     * adds up the cycles it reports.
     */
    method Reset(exec: (MicroOp, MState) -> Outcome<Effect>)
      requires Valid() && Runnable(exec)
      requires Cpu.ResetSpec(exec, State()).Normal?
      modifies this, memory
      ensures Valid()
      ensures State() == Cpu.ResetSpec(exec, old(State())).value
    {
      cycle := 0;
      index := 0;
      ctx := NewCtx();
      pipeline := None;
      var local := ExecuteAll(exec, ResetOps, NewCtx());
    }

    /** `for op in ops { self.cycle += op.execute(self, &mut ctx) }` on the context `c`. */
    method ExecuteAll(exec: (MicroOp, MState) -> Outcome<Effect>, ops: seq<MicroOp>, c: CtxVal) returns (c': CtxVal)
      requires memory.Valid() && c.Valid() && Runnable(exec)
      requires Run(exec, ops, MOf(c)).Normal?
      modifies this, memory
      ensures memory.Valid() && c'.Valid() && cycle >= old(cycle)
      ensures pins == old(pins) && index == old(index) && pipeline == old(pipeline) && ctx == old(ctx)
      ensures Run(exec, ops, old(MOf(c))) == Normal(Effect(MOf(c'), cycle - old(cycle)))
    {
      ghost var e := Run(exec, ops, MOf(c)).value;
      ghost var cycle0 := cycle;
      c' := c;
      for i := 0 to |ops|
        invariant memory.Valid() && c'.Valid()
        invariant pins == old(pins) && index == old(index) && pipeline == old(pipeline) && ctx == old(ctx)
        invariant cycle0 <= cycle <= cycle0 + e.cost
        invariant Run(exec, ops[i..], MOf(c')) == Normal(Effect(e.m, e.cost - (cycle - cycle0)))
      {
        RunStepThenRest(exec, ops, i, MOf(c'));
        var k;
        c', k := Execute(exec, ops[i], c');
        cycle := cycle + k;
      }
      assert ops[|ops|..] == [];
    }

    /**
     * `step_cycle()`, which runs the private `cycle`: with no pipeline it
     * fetches and decodes `memory.read8(pc)`; otherwise it runs micro-ops
     * up to and including the first that takes a cycle.
     */
    method StepCycle(exec: (MicroOp, MState) -> Outcome<Effect>)
      requires Valid() && Runnable(exec)
      requires LegacyCycleSpec(exec, State()).Normal?
      modifies this, memory
      ensures Valid()
      ensures State() == LegacyCycleSpec(exec, old(State())).value
    {
      if pipeline.None? {
        Fetch();
      } else {
        ExecutePipeline(exec);
      }
    }

    /** The fetch half of `cycle`. */
    method Fetch()
      requires Valid() && pipeline.None? && LegacyFetch(State()).Normal?
      modifies this
      ensures Valid() && State() == LegacyFetch(old(State())).value
    {
      var pc := registers.pc;
      registers := registers.(pc := pc + 1);
      var op := memory.Read8(pc);
      var ucode := DecodeInstruction(op).value;
      ctx := NewCtx();
      index := 0;
      pipeline := Some(ucode);
      cycle := cycle + 1;
    }

    /** The execute half of `cycle`: the loop over the pending micro-ops. */
    method ExecutePipeline(exec: (MicroOp, MState) -> Outcome<Effect>)
      requires Valid() && Runnable(exec) && pipeline.Some?
      requires Cpu.ExecuteCycle(exec, State()).Normal?
      modifies this, memory
      ensures Valid() && State() == Cpu.ExecuteCycle(exec, old(State())).value
    {
      var ops := pipeline.value;
      ghost var s0 := State();
      ghost var r := Cpu.RunOps(exec, ops, index, MOf(ctx)).value;
      ghost var cycle0 := cycle;
      var done := false;
      while !done
        invariant Valid() && index <= |ops| && pins == s0.pins
        invariant !done ==> (pipeline == Some(ops) && cycle == cycle0 &&
          Cpu.RunOps(exec, ops, index, MOf(ctx)) == Normal(r))
        invariant done ==> (MOf(ctx) == r.m && index == r.index && cycle == cycle0 + r.cost &&
          pipeline == (if index >= |ops| then None else Some(ops)))
        decreases |ops| - index + (if done then 0 else 1)
      {
        Cpu.RunOpsStep(exec, ops, index, MOf(ctx));
        var uop := ops[index];
        index := index + 1;
        var k;
        ctx, k := Execute(exec, uop, ctx);
        if index >= |ops| {
          pipeline := None;
        }
        if k != 0 {
          cycle := cycle + k;
          done := true;
        } else if pipeline.None? {
          done := true;
        }
      }
      assert Cpu.ExecuteCycle(exec, s0) == Normal(Cpu.CpuVal(r.m, pins, cycle, index, pipeline));
    }

    /**
     * `step_instruction()`: fetches when no pipeline is pending, then
     * cycles until the pipeline is done.
     */
    method StepInstruction(exec: (MicroOp, MState) -> Outcome<Effect>)
      requires Valid() && Runnable(exec)
      requires LegacyStepInstructionSpec(exec, State()).Normal?
      modifies this, memory
      ensures Valid() && pipeline.None?
      ensures State() == LegacyStepInstructionSpec(exec, old(State())).value
    {
      ghost var target := LegacyStepInstructionSpec(exec, State()).value;
      if pipeline.None? {
        StepCycle(exec);
      }
      while pipeline.Some?
        invariant Valid()
        invariant Cpu.Finish(exec, State()) == Normal(target)
        decreases if pipeline.Some? then |pipeline.value| - index + 1 else 0
      {
        StepCycle(exec);
      }
    }
  }
}
