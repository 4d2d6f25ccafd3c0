/**
 * cpu/src/microcode.rs, data part: the four-byte context stack that the
 * micro-ops of one instruction share, the micro-op enumeration, and the
 * constant micro-op sequences of the addressing modes and of reset.
 *
 * The Rust `Execute(fn)` and `Evaluate(fn -> MicroOp)` variants carry
 * function pointers and closures.  Here they carry a name for the function
 * they call: `Impl(i)` for the `*_impl` instruction `i`, and one `EvalFn`
 * constructor per closure body (closures with the same body, e.g. the
 * page-cross check shared by two macros, share a constructor).  Their
 * meaning is given in the Cpu module.
 */
module Microcode {
  import opened Bytes
  import opened Registers

  /** `Context::SIZE` */
  const SIZE: nat := 4

  /** The value of a context: `temp`, the `stack` array and `ptr`. */
  datatype CtxVal = CtxVal(temp: u8, stack: seq<u8>, ptr: nat)
  {
    predicate Valid()
    {
      |stack| == SIZE && ptr <= SIZE
    }

    /** `size()`: the number of bytes pushed and not yet popped. */
    function Size(): nat
      requires Valid()
    {
      SIZE - ptr
    }

    /** The live bytes, most recently pushed first. */
    function Items(): seq<u8>
      requires Valid()
    {
      stack[ptr..]
    }

    /** `push(b)`, defined when `ptr > 0`. */
    function Push(b: u8): (c: CtxVal)
      requires Valid() && ptr > 0
      ensures c.Valid()
    {
      CtxVal(temp, stack[ptr - 1 := b], ptr - 1)
    }

    /** `pop()`, defined when `ptr < SIZE`: the byte and the new context. */
    function Pop(): (r: (u8, CtxVal))
      requires Valid() && ptr < SIZE
      ensures r.1.Valid()
    {
      (stack[ptr], CtxVal(temp, stack, ptr + 1))
    }

    /** `peek(rel)`, defined when `ptr + rel < SIZE`. */
    function Peek(rel: nat): u8
      requires Valid() && ptr + rel < SIZE
    {
      stack[ptr + rel]
    }

    /** `temp.set(v)` */
    function SetTemp(v: u8): (c: CtxVal)
      requires Valid()
      ensures c.Valid()
    {
      CtxVal(v, stack, ptr)
    }
  }

  /** `Context::new()` */
  function NewCtx(): (c: CtxVal)
    ensures c.Valid() && c.Size() == 0 && c.ptr == SIZE
  {
    CtxVal(0, [0, 0, 0, 0], SIZE)
  }

  /** A push puts the byte on top of the live bytes. */
  lemma PushItems(c: CtxVal, b: u8)
    requires c.Valid() && c.ptr > 0
    ensures c.Push(b).Items() == [b] + c.Items()
    ensures c.Push(b).Size() == c.Size() + 1
  {
    var p := c.Push(b);
    assert p.Items()[0] == b;
    assert forall i | 0 < i < |p.Items()| :: p.Items()[i] == c.Items()[i - 1];
  }

  /** A pop returns the most recently pushed byte and removes it. */
  lemma PopItems(c: CtxVal)
    requires c.Valid() && c.ptr < SIZE
    ensures c.Pop().0 == c.Items()[0]
    ensures c.Pop().1.Items() == c.Items()[1..]
    ensures c.Pop().1.Size() == c.Size() - 1
  {
  }

  /** LIFO: popping right after pushing `b` yields `b` and restores `ptr`. */
  lemma PushThenPop(c: CtxVal, b: u8)
    requires c.Valid() && c.ptr > 0
    ensures c.Push(b).Pop().0 == b
    ensures c.Push(b).Pop().1.ptr == c.ptr
    ensures c.Push(b).Pop().1.Items() == c.Items()
  {
    PushItems(c, b);
  }

  /** `peek(rel)` reads the rel-th live byte from the top. */
  lemma PeekItems(c: CtxVal, rel: nat)
    requires c.Valid() && c.ptr + rel < SIZE
    ensures c.Peek(rel) == c.Items()[rel]
  {
  }

  /** `Context`: the byte stack that micro-ops pass values through. */
  class Context {
    const temp: Register
    const stack: array<u8>
    var ptr: nat

    ghost predicate Valid()
      reads this, temp
    {
      temp.modulus == 256 && temp.Valid() && stack.Length == SIZE && ptr <= SIZE
    }

    function Val(): (c: CtxVal)
      requires Valid()
      reads this, temp, stack
      ensures c.Valid()
    {
      CtxVal(temp.value, stack[..], ptr)
    }

    /** `Context::new()`: an empty context. */
    constructor ()
      ensures Valid() && fresh(temp) && fresh(stack)
      ensures Val() == NewCtx()
    {
      temp := new Register(256, 0);
      var s := new u8[SIZE];
      s[0], s[1], s[2], s[3] := 0, 0, 0, 0;
      stack := s;
      ptr := SIZE;
      new;
      assert stack[..] == [0, 0, 0, 0];
    }

    /** Assigning `Context::new()` to an existing context. */
    method Clear()
      requires Valid()
      modifies this, temp, stack
      ensures Valid() && Val() == NewCtx()
    {
      temp.Set(0);
      stack[0], stack[1], stack[2], stack[3] := 0, 0, 0, 0;
      ptr := SIZE;
      assert stack[..] == [0, 0, 0, 0];
    }

    /** `size()` */
    function Size(): (n: nat)
      requires Valid()
      reads this, temp, stack
      ensures n == |Val().Items()|
    {
      SIZE - ptr
    }

    /** `peek(rel)`: the rel-th byte from the top, asserting it exists. */
    function Peek(rel: nat): (b: u8)
      requires Valid() && ptr + rel < SIZE
      reads this, temp, stack
      ensures b == Val().Items()[rel]
    {
      stack[ptr + rel]
    }

    /** `push(byte)`: asserts `ptr > 0`, then stores below the old top. */
    method Push(b: u8)
      requires Valid() && ptr > 0
      modifies this, stack
      ensures Valid() && Val() == old(Val()).Push(b)
    {
      ptr := ptr - 1;
      stack[ptr] := b;
    }

    /** `pop()`: asserts `ptr < SIZE`, then returns the top byte. */
    method Pop() returns (b: u8)
      requires Valid() && ptr < SIZE
      modifies this
      ensures Valid() && (b, Val()) == old(Val()).Pop()
    {
      b := stack[ptr];
      ptr := ptr + 1;
    }
  }

  /**
   * The `*_impl` functions of src/instructions.rs, grouped by the shape of
   * their effect on the registers, the status and the context.
   */
  datatype Instr =
    | Acc(a: AccInstr)
    | Modify(m: ModifyInstr)
    | Branch(b: BranchInstr)
    | FlagWrite(f: FlagInstr)
    | Compare(k: CompareInstr)
    | Step(s: StepInstr)
    | Load(l: LoadInstr)
    | Store(st: StoreInstr)
    | Transfer(t: TransferInstr)
    | Plp | Rti | Brk | Jmp | Jsr | Nop | Rts

  /** Pop an operand and combine it with A. */
  datatype AccInstr = Adc | And | Eor | Ora | Sbc

  /** Pop an operand and push the result back. */
  datatype ModifyInstr = Asl | Lsr | Rol | Ror | Bit | Dec | Inc

  /** Push whether the branch is taken. */
  datatype BranchInstr = Bcc | Bcs | Beq | Bmi | Bne | Bpl | Bvc | Bvs

  /** Write one status flag. */
  datatype FlagInstr = Clc | Cld | Cli | Clv | Sec | Sed | Sei

  /** Pop an operand and compare a register with it. */
  datatype CompareInstr = Cmp | Cpx | Cpy

  /** Step X or Y by one. */
  datatype StepInstr = Dex | Dey | Inx | Iny

  /** Pop an operand into a register. */
  datatype LoadInstr = Lda | Ldx | Ldy | Pla

  /** Push a register or the status. */
  datatype StoreInstr = Pha | Php | Sta | Stx | Sty

  /** Copy one register into another. */
  datatype TransferInstr = Tax | Tay | Tsx | Txa | Txs | Tya

  /** The index register named by an indexed addressing macro. */
  datatype IndexReg = X | Y

  /** The function an `Execute` micro-op calls. */
  datatype ExecFn =
    | Impl(i: Instr)
    /** reset: `status.set(0)`, then set I and B */
    | ResetFlags
    /** reset: push the low, then the high byte of `addr` */
    | PushVector(addr: u16)
    /** reset: pop hi, pop lo, set PC */
    | ResetJump

  /** The closure an `Evaluate` micro-op calls. */
  datatype EvalFn =
    /** load_indirect_y: add Y to the fetched base, detect a page cross */
    | IndirectYAddr
    /** load_absolute_indexed: add the index to the base, detect a page cross */
    | AbsIndexedAddr(r: IndexReg)
    /** load_indirect_y / load_absolute_indexed: fetch from the next page if crossed */
    | CrossedLoad
    /** load_zero_page_indexed: zero-page address plus index, wrapping */
    | ZeroPageIndexedAddr(r: IndexReg)
    /** store_indirect_y: add Y to the fetched base */
    | StoreIndirectYAddr
    /** store_absolute_indexed: add the index to the base */
    | StoreAbsIndexedAddr(r: IndexReg)
    /** store_zero_page_indexed: address, then run the instruction */
    | StoreZeroPageIndexedAddr(r: IndexReg, f: Instr)
    /** load_store_absolute_x: add X to the base */
    | LoadStoreAbsXAddr
    /** jump_indirect: address of the high byte of the target */
    | JumpIndirectHigh
    /** branch_relative: compute the target of a taken branch */
    | BranchTarget
    /** branch_relative: finish a taken branch that crossed a page */
    | BranchFinish

  /** `MicroOp` */
  datatype MicroOp =
    | Unimplemented
    | EmptyCycle
    | EmptyNoCycle
    | LoadIncrPC
    | StoreDecrSP
    | IncrLoadSP
    | PushAcc
    | PushZero
    | PushPCL
    | PushPCH
    | PopJump
    | PopLoadAddress
    | PeekLoadAddress
    | PopStoreAddress
    | PopTemp
    | PushTemp
    | IncrTemp
    | AddTempX
    | Execute(f: ExecFn)
    | Evaluate(e: EvalFn)

  function Exec(i: Instr): MicroOp { Execute(Impl(i)) }

  /** `Cpu::RES_VECTOR` */
  const RES_VECTOR: u16 := 0xFFFC

  /** `ucode_reset()` */
  const ResetOps: seq<MicroOp> := [
    Execute(ResetFlags),
    Execute(PushVector(RES_VECTOR)),
    PopLoadAddress,
    Execute(PushVector(RES_VECTOR + 1)),
    PopLoadAddress,
    Execute(ResetJump)
  ]

  // The addressing-mode sequences, one function per macro.

  function SingleByteImplied(f: Instr): seq<MicroOp> { [EmptyCycle, Exec(f)] }

  function SingleByteAccumulator(f: Instr): seq<MicroOp> { [EmptyCycle, PushAcc, Exec(f)] }

  function LoadImmediate(f: Instr): seq<MicroOp> { [LoadIncrPC, Exec(f)] }

  function LoadZeroPage(f: Instr): seq<MicroOp>
  {
    [LoadIncrPC, PushZero, PopLoadAddress, Exec(f)]
  }

  function LoadAbsolute(f: Instr): seq<MicroOp>
  {
    [LoadIncrPC, LoadIncrPC, PopLoadAddress, Exec(f)]
  }

  function LoadIndirectX(f: Instr): seq<MicroOp>
  {
    [LoadIncrPC, PopTemp, EmptyCycle,
     AddTempX, PushTemp, PushZero, PopLoadAddress,
     IncrTemp, PushTemp, PushZero, PopLoadAddress,
     PopLoadAddress, Exec(f)]
  }

  function LoadIndirectY(f: Instr): seq<MicroOp>
  {
    [LoadIncrPC, PopTemp,
     PushTemp, PushZero, PopLoadAddress,
     IncrTemp, PushTemp, PushZero, PopLoadAddress,
     Evaluate(IndirectYAddr), Evaluate(CrossedLoad),
     Exec(f)]
  }

  function LoadAbsoluteIndexed(f: Instr, r: IndexReg): seq<MicroOp>
  {
    [LoadIncrPC, LoadIncrPC, Evaluate(AbsIndexedAddr(r)), Evaluate(CrossedLoad), Exec(f)]
  }

  function LoadZeroPageIndexed(f: Instr, r: IndexReg): seq<MicroOp>
  {
    [LoadIncrPC, EmptyCycle, Evaluate(ZeroPageIndexedAddr(r)), Exec(f)]
  }

  function StoreZeroPage(f: Instr): seq<MicroOp>
  {
    [LoadIncrPC, PushZero, Exec(f), PopStoreAddress]
  }

  function StoreAbsolute(f: Instr): seq<MicroOp>
  {
    [LoadIncrPC, LoadIncrPC, Exec(f), PopStoreAddress]
  }

  function StoreIndirectX(f: Instr): seq<MicroOp>
  {
    [LoadIncrPC, PopTemp, EmptyCycle,
     AddTempX, PushTemp, PushZero, PopLoadAddress,
     IncrTemp, PushTemp, PushZero, PopLoadAddress,
     Exec(f), PopStoreAddress]
  }

  function StoreIndirectY(f: Instr): seq<MicroOp>
  {
    [LoadIncrPC, PopTemp,
     PushTemp, PushZero, PopLoadAddress,
     IncrTemp, PushTemp, PushZero, PopLoadAddress,
     Evaluate(StoreIndirectYAddr),
     Exec(f), PopStoreAddress]
  }

  function StoreAbsoluteIndexed(f: Instr, r: IndexReg): seq<MicroOp>
  {
    [LoadIncrPC, LoadIncrPC, Evaluate(StoreAbsIndexedAddr(r)), Exec(f), PopStoreAddress]
  }

  function StoreZeroPageIndexed(f: Instr, r: IndexReg): seq<MicroOp>
  {
    [LoadIncrPC, EmptyCycle, Evaluate(StoreZeroPageIndexedAddr(r, f))]
  }

  function LoadStoreZeroPage(f: Instr): seq<MicroOp>
  {
    [LoadIncrPC, PushTemp, PopTemp, PushZero, PeekLoadAddress, Exec(f), PopStoreAddress]
  }

  function LoadStoreAbsolute(f: Instr): seq<MicroOp>
  {
    [LoadIncrPC, LoadIncrPC, PeekLoadAddress, Exec(f), PopStoreAddress]
  }

  function LoadStoreZeroPageX(f: Instr): seq<MicroOp>
  {
    [LoadIncrPC, EmptyCycle, PopTemp, AddTempX, PushTemp, PushZero, EmptyCycle,
     PeekLoadAddress, Exec(f), PopStoreAddress]
  }

  function LoadStoreAbsoluteX(f: Instr): seq<MicroOp>
  {
    [LoadIncrPC, LoadIncrPC, EmptyCycle, Evaluate(LoadStoreAbsXAddr), EmptyCycle, PopStoreAddress,
     PopTemp, AddTempX, PushTemp, PushZero, EmptyCycle, PeekLoadAddress, Exec(f), PopLoadAddress]
  }

  function PushImplied(f: Instr): seq<MicroOp> { [EmptyCycle, Exec(f), StoreDecrSP] }

  function PullImplied(f: Instr): seq<MicroOp> { [EmptyCycle, EmptyCycle, IncrLoadSP, Exec(f)] }

  function BreakImplied(f: Instr): seq<MicroOp> { [Unimplemented] }

  function JumpToSubroutineAbsolute(f: Instr): seq<MicroOp>
  {
    [LoadIncrPC, EmptyCycle, PushPCH, StoreDecrSP, PushPCL, StoreDecrSP, LoadIncrPC, Exec(f), PopJump]
  }

  function ReturnFromSubroutineImplied(f: Instr): seq<MicroOp>
  {
    [EmptyCycle, EmptyCycle, IncrLoadSP, PopTemp, IncrTemp, PushTemp, IncrLoadSP, Exec(f), EmptyCycle, PopJump]
  }

  function ReturnFromInterruptImplied(f: Instr): seq<MicroOp>
  {
    [EmptyCycle, EmptyCycle, IncrLoadSP, IncrLoadSP, IncrLoadSP, Exec(f), PopJump]
  }

  function JumpAbsolute(f: Instr): seq<MicroOp> { [LoadIncrPC, LoadIncrPC, Exec(f), PopJump] }

  function JumpIndirect(f: Instr): seq<MicroOp>
  {
    [LoadIncrPC, LoadIncrPC, PeekLoadAddress, Evaluate(JumpIndirectHigh), Exec(f), PopJump]
  }

  function BranchRelative(f: Instr): seq<MicroOp>
  {
    [LoadIncrPC, Exec(f), Evaluate(BranchTarget), Evaluate(BranchFinish)]
  }
}
