/**
 * core/src/opcode.rs: the 256-entry decode table and the two lookups.
 *
 * Each entry's `ucode` names the addressing-mode sequence of
 * microcode.dfy applied to the instruction the Rust macro is given, so
 * `load_indirect_x!(ora_impl)` is `LoadIndirectX(Acc(Ora))`.  A `panic!`
 * of the lookups is a `None` result here.
 */
module OpcodeTable {
  import opened Bytes
  import opened Wrappers
  import opened Microcode

  /** `AddressMode` */
  datatype AddressMode =
    | Accumulator | Absolute | AbsoluteX | AbsoluteY | Immediate | Implied | Indirect
    | IndirectX | IndirectY | Relative | ZeroPage | ZeroPageX | ZeroPageY

  /** `Opcode` */
  datatype Opcode = Opcode(
    value: u8, mnemonic: string, mode: AddressMode, bytes: u8, cycles: u8, ucode: Option<seq<MicroOp>>)

  /** The one-argument arm of `opcode!`: an unused opcode. */
  function Placeholder(value: u8): Opcode
  {
    Opcode(value, "", Implied, 0, 0, None)
  }

  /** The instruction length each addressing mode implies. */
  function ModeBytes(m: AddressMode): nat
  {
    match m
    case Accumulator | Implied => 1
    case Immediate | ZeroPage | ZeroPageX | ZeroPageY | IndirectX | IndirectY | Relative => 2
    case Absolute | AbsoluteX | AbsoluteY | Indirect => 3
  }

  /**
   * The shape every table entry has: its `value` is its index, an entry
   * without microcode is the placeholder, and a defined entry has a
   * three-letter mnemonic, the length of its mode, at least two cycles and
   * a non-empty micro-op sequence.
   */
  ghost predicate WellFormed(o: Opcode, index: nat)
  {
    o.value == index &&
    (o.ucode.None? <==> o.mnemonic == "") &&
    (o.ucode.None? ==> o == Placeholder(o.value)) &&
    (o.ucode.Some? ==>
      |o.mnemonic| == 3 && o.bytes == ModeBytes(o.mode) && 2 <= o.cycles <= 7 && |o.ucode.value| > 0)
  }

  /** Entries 0x00 - 0x0F (core/src/opcode.rs:59-74). */
  const Row0: seq<Opcode> := [
    Opcode(0x00, "BRK", Implied, 1, 7, Some(BreakImplied(Brk))),
    Opcode(0x01, "ORA", IndirectX, 2, 5, Some(LoadIndirectX(Acc(Ora)))),
    Placeholder(0x02),
    Placeholder(0x03),
    Placeholder(0x04),
    Opcode(0x05, "ORA", ZeroPage, 2, 3, Some(LoadZeroPage(Acc(Ora)))),
    Opcode(0x06, "ASL", ZeroPage, 2, 5, Some(LoadStoreZeroPage(Modify(Asl)))),
    Placeholder(0x07),
    Opcode(0x08, "PHP", Implied, 1, 3, Some(PushImplied(Store(Php)))),
    Opcode(0x09, "ORA", Immediate, 2, 2, Some(LoadImmediate(Acc(Ora)))),
    Opcode(0x0A, "ASL", Accumulator, 1, 2, Some(SingleByteAccumulator(Modify(Asl)))),
    Placeholder(0x0B),
    Placeholder(0x0C),
    Opcode(0x0D, "ORA", Absolute, 3, 4, Some(LoadZeroPage(Acc(Ora)))),
    Opcode(0x0E, "ASL", Absolute, 3, 6, Some(LoadStoreAbsolute(Modify(Asl)))),
    Placeholder(0x0F)
  ]

  /** Entries 0x10 - 0x1F (core/src/opcode.rs:76-91). */
  const Row1: seq<Opcode> := [
    Opcode(0x10, "BPL", Relative, 2, 2, Some(BranchRelative(Branch(Bpl)))),
    Opcode(0x11, "ORA", IndirectY, 2, 5, Some(LoadIndirectY(Acc(Ora)))),
    Placeholder(0x12),
    Placeholder(0x13),
    Placeholder(0x14),
    Opcode(0x15, "ORA", ZeroPageX, 2, 4, Some(LoadZeroPageIndexed(Acc(Ora), X))),
    Opcode(0x16, "ASL", ZeroPageX, 2, 6, Some(LoadStoreZeroPageX(Modify(Asl)))),
    Placeholder(0x17),
    Opcode(0x18, "CLC", Implied, 1, 2, Some(SingleByteImplied(FlagWrite(Clc)))),
    Opcode(0x19, "ORA", AbsoluteY, 3, 4, Some(LoadAbsoluteIndexed(Acc(Ora), Y))),
    Placeholder(0x1A),
    Placeholder(0x1B),
    Placeholder(0x1C),
    Opcode(0x1D, "ORA", AbsoluteX, 3, 4, Some(LoadAbsoluteIndexed(Acc(Ora), X))),
    Opcode(0x1E, "ASL", AbsoluteX, 3, 7, Some(LoadStoreAbsoluteX(Modify(Asl)))),
    Placeholder(0x1F)
  ]

  /** Entries 0x20 - 0x2F (core/src/opcode.rs:93-108). */
  const Row2: seq<Opcode> := [
    Opcode(0x20, "JSR", Absolute, 3, 6, Some(JumpToSubroutineAbsolute(Jsr))),
    Opcode(0x21, "AND", IndirectX, 2, 6, Some(LoadIndirectX(Acc(And)))),
    Placeholder(0x22),
    Placeholder(0x23),
    Opcode(0x24, "BIT", ZeroPage, 2, 3, Some(LoadZeroPage(Modify(Bit)))),
    Opcode(0x25, "AND", ZeroPage, 2, 3, Some(LoadZeroPage(Acc(And)))),
    Opcode(0x26, "ROL", ZeroPage, 2, 5, Some(LoadZeroPage(Modify(Rol)))),
    Placeholder(0x27),
    Opcode(0x28, "PLP", Implied, 1, 4, Some(PullImplied(Plp))),
    Opcode(0x29, "AND", Immediate, 2, 2, Some(LoadImmediate(Acc(And)))),
    Opcode(0x2A, "ROL", Accumulator, 1, 2, Some(SingleByteAccumulator(Modify(Rol)))),
    Placeholder(0x2B),
    Opcode(0x2C, "BIT", Absolute, 3, 4, Some(LoadAbsolute(Modify(Bit)))),
    Opcode(0x2D, "AND", Absolute, 3, 4, Some(LoadAbsolute(Acc(And)))),
    Opcode(0x2E, "ROL", Absolute, 3, 6, Some(LoadStoreAbsolute(Modify(Rol)))),
    Placeholder(0x2F)
  ]

  /** Entries 0x30 - 0x3F (core/src/opcode.rs:110-125). */
  const Row3: seq<Opcode> := [
    Opcode(0x30, "BMI", Relative, 2, 2, Some(BranchRelative(Branch(Bmi)))),
    Opcode(0x31, "AND", IndirectY, 2, 5, Some(LoadIndirectY(Acc(And)))),
    Placeholder(0x32),
    Placeholder(0x33),
    Placeholder(0x34),
    Opcode(0x35, "AND", ZeroPageX, 2, 4, Some(LoadZeroPageIndexed(Acc(And), X))),
    Opcode(0x36, "ROL", ZeroPageX, 2, 6, Some(LoadStoreZeroPageX(Modify(Rol)))),
    Placeholder(0x37),
    Opcode(0x38, "SEC", Implied, 1, 2, Some(SingleByteImplied(FlagWrite(Sec)))),
    Opcode(0x39, "AND", AbsoluteY, 3, 4, Some(LoadAbsoluteIndexed(Acc(And), Y))),
    Placeholder(0x3A),
    Placeholder(0x3B),
    Placeholder(0x3C),
    Opcode(0x3D, "AND", AbsoluteX, 3, 4, Some(LoadAbsoluteIndexed(Acc(And), X))),
    Opcode(0x3E, "ROL", AbsoluteX, 3, 7, Some(LoadStoreAbsoluteX(Modify(Rol)))),
    Placeholder(0x3F)
  ]

  /** Entries 0x40 - 0x4F (core/src/opcode.rs:127-142). */
  const Row4: seq<Opcode> := [
    Opcode(0x40, "RTI", Implied, 1, 6, Some(ReturnFromInterruptImplied(Rti))),
    Opcode(0x41, "EOR", IndirectX, 2, 6, Some(LoadIndirectX(Acc(Eor)))),
    Placeholder(0x42),
    Placeholder(0x43),
    Placeholder(0x44),
    Opcode(0x45, "EOR", ZeroPage, 2, 3, Some(LoadZeroPage(Acc(Eor)))),
    Opcode(0x46, "LSR", ZeroPage, 2, 5, Some(LoadStoreZeroPage(Modify(Lsr)))),
    Placeholder(0x47),
    Opcode(0x48, "PHA", Implied, 1, 3, Some(PushImplied(Store(Pha)))),
    Opcode(0x49, "EOR", Immediate, 2, 2, Some(LoadImmediate(Acc(Eor)))),
    Opcode(0x4A, "LSR", Accumulator, 1, 2, Some(SingleByteAccumulator(Modify(Lsr)))),
    Placeholder(0x4B),
    Opcode(0x4C, "JMP", Absolute, 3, 3, Some(JumpAbsolute(Jmp))),
    Opcode(0x4D, "EOR", Absolute, 3, 4, Some(LoadAbsolute(Acc(Eor)))),
    Opcode(0x4E, "LSR", Absolute, 3, 6, Some(LoadStoreAbsolute(Modify(Lsr)))),
    Placeholder(0x4F)
  ]

  /** Entries 0x50 - 0x5F (core/src/opcode.rs:144-159). */
  const Row5: seq<Opcode> := [
    Opcode(0x50, "BVC", Relative, 2, 2, Some(BranchRelative(Branch(Bvc)))),
    Opcode(0x51, "EOR", IndirectY, 2, 5, Some(LoadIndirectY(Acc(Eor)))),
    Placeholder(0x52),
    Placeholder(0x53),
    Placeholder(0x54),
    Opcode(0x55, "EOR", ZeroPageX, 2, 4, Some(LoadZeroPageIndexed(Acc(Eor), X))),
    Opcode(0x56, "LSR", ZeroPageX, 2, 6, Some(LoadStoreZeroPageX(Modify(Lsr)))),
    Placeholder(0x57),
    Opcode(0x58, "CLI", Implied, 1, 2, Some(SingleByteImplied(FlagWrite(Cli)))),
    Opcode(0x59, "EOR", AbsoluteY, 3, 4, Some(LoadAbsoluteIndexed(Acc(Eor), Y))),
    Placeholder(0x5A),
    Placeholder(0x5B),
    Placeholder(0x5C),
    Opcode(0x5D, "EOR", AbsoluteX, 3, 4, Some(LoadAbsoluteIndexed(Acc(Eor), X))),
    Opcode(0x5E, "LSR", AbsoluteX, 3, 7, Some(LoadStoreAbsoluteX(Modify(Lsr)))),
    Placeholder(0x5F)
  ]

  /** Entries 0x60 - 0x6F (core/src/opcode.rs:161-176). */
  const Row6: seq<Opcode> := [
    Opcode(0x60, "RTS", Implied, 1, 6, Some(ReturnFromSubroutineImplied(Rts))),
    Opcode(0x61, "ADC", IndirectX, 2, 6, Some(LoadIndirectX(Acc(Adc)))),
    Placeholder(0x62),
    Placeholder(0x63),
    Placeholder(0x64),
    Opcode(0x65, "ADC", ZeroPage, 2, 3, Some(LoadZeroPage(Acc(Adc)))),
    Opcode(0x66, "ROR", ZeroPage, 2, 5, Some(LoadStoreZeroPage(Modify(Ror)))),
    Placeholder(0x67),
    Opcode(0x68, "PLA", Implied, 1, 4, Some(PullImplied(Load(Pla)))),
    Opcode(0x69, "ADC", Immediate, 2, 2, Some(LoadImmediate(Acc(Adc)))),
    Opcode(0x6A, "ROR", Accumulator, 1, 2, Some(SingleByteAccumulator(Modify(Ror)))),
    Placeholder(0x6B),
    Opcode(0x6C, "JMP", Indirect, 3, 5, Some(JumpIndirect(Jmp))),
    Opcode(0x6D, "ADC", Absolute, 3, 4, Some(LoadAbsolute(Acc(Adc)))),
    Opcode(0x6E, "ROR", Absolute, 3, 6, Some(LoadStoreAbsolute(Modify(Ror)))),
    Placeholder(0x6F)
  ]

  /** Entries 0x70 - 0x7F (core/src/opcode.rs:178-193). */
  const Row7: seq<Opcode> := [
    Opcode(0x70, "BVS", Relative, 2, 2, Some(BranchRelative(Branch(Bvs)))),
    Opcode(0x71, "ADC", IndirectY, 2, 5, Some(LoadIndirectY(Acc(Adc)))),
    Placeholder(0x72),
    Placeholder(0x73),
    Placeholder(0x74),
    Opcode(0x75, "ADC", ZeroPageX, 2, 4, Some(LoadZeroPageIndexed(Acc(Adc), X))),
    Opcode(0x76, "ROR", ZeroPageX, 2, 6, Some(LoadStoreZeroPageX(Modify(Ror)))),
    Placeholder(0x77),
    Opcode(0x78, "SEI", Implied, 1, 2, Some(SingleByteImplied(FlagWrite(Sei)))),
    Opcode(0x79, "ADC", AbsoluteY, 3, 4, Some(LoadAbsoluteIndexed(Acc(Adc), Y))),
    Placeholder(0x7A),
    Placeholder(0x7B),
    Placeholder(0x7C),
    Opcode(0x7D, "ADC", AbsoluteX, 3, 4, Some(LoadAbsoluteIndexed(Acc(Adc), X))),
    Opcode(0x7E, "ROR", AbsoluteX, 3, 7, Some(LoadStoreAbsoluteX(Modify(Ror)))),
    Placeholder(0x7F)
  ]

  /** Entries 0x80 - 0x8F (core/src/opcode.rs:195-210). */
  const Row8: seq<Opcode> := [
    Placeholder(0x80),
    Opcode(0x81, "STA", IndirectX, 2, 6, Some(StoreIndirectX(Store(Sta)))),
    Placeholder(0x82),
    Placeholder(0x83),
    Opcode(0x84, "STY", ZeroPage, 2, 3, Some(StoreZeroPage(Store(Sty)))),
    Opcode(0x85, "STA", ZeroPage, 2, 3, Some(StoreZeroPage(Store(Sta)))),
    Opcode(0x86, "STX", ZeroPage, 2, 3, Some(StoreZeroPage(Store(Stx)))),
    Placeholder(0x87),
    Opcode(0x88, "DEY", Implied, 1, 2, Some(SingleByteImplied(Step(Dey)))),
    Placeholder(0x89),
    Opcode(0x8A, "TXA", Implied, 1, 2, Some(SingleByteImplied(Transfer(Txa)))),
    Placeholder(0x8B),
    Opcode(0x8C, "STY", Absolute, 3, 4, Some(StoreAbsolute(Store(Sty)))),
    Opcode(0x8D, "STA", Absolute, 3, 4, Some(StoreAbsolute(Store(Sta)))),
    Opcode(0x8E, "STX", Absolute, 3, 4, Some(StoreAbsolute(Store(Stx)))),
    Placeholder(0x8F)
  ]

  /** Entries 0x90 - 0x9F (core/src/opcode.rs:212-227). */
  const Row9: seq<Opcode> := [
    Opcode(0x90, "BCC", Relative, 2, 2, Some(BranchRelative(Branch(Bcc)))),
    Opcode(0x91, "STA", IndirectY, 2, 6, Some(StoreIndirectY(Store(Sta)))),
    Placeholder(0x92),
    Placeholder(0x93),
    Opcode(0x94, "STY", ZeroPageX, 2, 4, Some(Microcode.StoreZeroPageIndexed(Store(Sty), X))),
    Opcode(0x95, "STA", ZeroPageX, 2, 4, Some(Microcode.StoreZeroPageIndexed(Store(Sta), X))),
    Opcode(0x96, "STX", ZeroPageY, 2, 4, Some(Microcode.StoreZeroPageIndexed(Store(Stx), Y))),
    Placeholder(0x97),
    Opcode(0x98, "TYA", Implied, 1, 2, Some(SingleByteImplied(Transfer(Tya)))),
    Opcode(0x99, "STA", AbsoluteY, 3, 5, Some(StoreAbsoluteIndexed(Store(Sta), Y))),
    Opcode(0x9A, "TXS", Implied, 1, 2, Some(SingleByteImplied(Transfer(Txs)))),
    Placeholder(0x9B),
    Placeholder(0x9C),
    Opcode(0x9D, "STA", AbsoluteX, 3, 5, Some(StoreAbsoluteIndexed(Store(Sta), X))),
    Placeholder(0x9E),
    Placeholder(0x9F)
  ]

  /** Entries 0xA0 - 0xAF (core/src/opcode.rs:229-244). */
  const RowA: seq<Opcode> := [
    Opcode(0xA0, "LDY", Immediate, 2, 2, Some(LoadImmediate(Load(Ldy)))),
    Opcode(0xA1, "LDA", IndirectX, 2, 6, Some(LoadIndirectX(Load(Lda)))),
    Opcode(0xA2, "LDX", Immediate, 2, 2, Some(LoadImmediate(Load(Ldx)))),
    Placeholder(0xA3),
    Opcode(0xA4, "LDY", ZeroPage, 2, 3, Some(LoadZeroPage(Load(Ldy)))),
    Opcode(0xA5, "LDA", ZeroPage, 2, 3, Some(LoadZeroPage(Load(Lda)))),
    Opcode(0xA6, "LDX", ZeroPage, 2, 3, Some(LoadZeroPage(Load(Ldx)))),
    Placeholder(0xA7),
    Opcode(0xA8, "TAY", Implied, 1, 2, Some(SingleByteImplied(Transfer(Tay)))),
    Opcode(0xA9, "LDA", Immediate, 2, 2, Some(LoadImmediate(Load(Lda)))),
    Opcode(0xAA, "TAX", Implied, 1, 2, Some(SingleByteImplied(Transfer(Tax)))),
    Placeholder(0xAB),
    Opcode(0xAC, "LDY", Absolute, 3, 4, Some(LoadAbsolute(Load(Ldy)))),
    Opcode(0xAD, "LDA", Absolute, 3, 4, Some(LoadAbsolute(Load(Lda)))),
    Opcode(0xAE, "LDX", Absolute, 3, 4, Some(LoadAbsolute(Load(Ldx)))),
    Placeholder(0xAF)
  ]

  /** Entries 0xB0 - 0xBF (core/src/opcode.rs:246-261). */
  const RowB: seq<Opcode> := [
    Opcode(0xB0, "BCS", Relative, 2, 2, Some(BranchRelative(Branch(Bcs)))),
    Opcode(0xB1, "LDA", IndirectY, 2, 5, Some(LoadIndirectY(Load(Lda)))),
    Placeholder(0xB2),
    Placeholder(0xB3),
    Opcode(0xB4, "LDY", ZeroPageX, 2, 4, Some(LoadZeroPageIndexed(Load(Ldy), X))),
    Opcode(0xB5, "LDA", ZeroPageX, 2, 4, Some(LoadZeroPageIndexed(Load(Lda), X))),
    Opcode(0xB6, "LDX", ZeroPageY, 2, 4, Some(LoadZeroPageIndexed(Load(Ldx), Y))),
    Placeholder(0xB7),
    Opcode(0xB8, "CLV", Implied, 1, 2, Some(SingleByteImplied(FlagWrite(Clv)))),
    Opcode(0xB9, "LDA", AbsoluteY, 3, 4, Some(LoadAbsoluteIndexed(Load(Lda), Y))),
    Opcode(0xBA, "TSX", Implied, 1, 2, Some(SingleByteImplied(Transfer(Tsx)))),
    Placeholder(0xBB),
    Opcode(0xBC, "LDY", AbsoluteX, 3, 4, Some(LoadAbsoluteIndexed(Load(Ldy), X))),
    Opcode(0xBD, "LDA", AbsoluteX, 3, 4, Some(LoadAbsoluteIndexed(Load(Lda), X))),
    Opcode(0xBE, "LDX", AbsoluteY, 3, 4, Some(LoadAbsoluteIndexed(Load(Ldx), Y))),
    Placeholder(0xBF)
  ]

  /** Entries 0xC0 - 0xCF (core/src/opcode.rs:263-278). */
  const RowC: seq<Opcode> := [
    Opcode(0xC0, "CPY", ZeroPage, 2, 3, Some(LoadZeroPage(Compare(Cpy)))),
    Opcode(0xC1, "CMP", IndirectX, 2, 6, Some(LoadIndirectX(Compare(Cmp)))),
    Placeholder(0xC2),
    Placeholder(0xC3),
    Opcode(0xC4, "CPY", Immediate, 2, 2, Some(LoadImmediate(Compare(Cpy)))),
    Opcode(0xC5, "CMP", ZeroPage, 2, 3, Some(LoadZeroPage(Compare(Cmp)))),
    Opcode(0xC6, "DEC", ZeroPage, 2, 5, Some(LoadStoreZeroPage(Modify(Dec)))),
    Placeholder(0xC7),
    Opcode(0xC8, "INY", Implied, 1, 2, Some(SingleByteImplied(Step(Iny)))),
    Opcode(0xC9, "CMP", Immediate, 2, 2, Some(LoadImmediate(Compare(Cmp)))),
    Opcode(0xCA, "DEX", Implied, 1, 2, Some(SingleByteImplied(Step(Dex)))),
    Placeholder(0xCB),
    Opcode(0xCC, "CPY", Absolute, 3, 4, Some(LoadAbsolute(Compare(Cpy)))),
    Opcode(0xCD, "CMP", Absolute, 3, 4, Some(LoadAbsolute(Compare(Cmp)))),
    Opcode(0xCE, "DEC", Absolute, 3, 6, Some(LoadStoreAbsolute(Modify(Dec)))),
    Placeholder(0xCF)
  ]

  /** Entries 0xD0 - 0xDF (core/src/opcode.rs:280-295). */
  const RowD: seq<Opcode> := [
    Opcode(0xD0, "BNE", Relative, 2, 2, Some(BranchRelative(Branch(Bne)))),
    Opcode(0xD1, "CMP", IndirectY, 2, 5, Some(LoadIndirectY(Compare(Cmp)))),
    Placeholder(0xD2),
    Placeholder(0xD3),
    Placeholder(0xD4),
    Opcode(0xD5, "CMP", ZeroPageX, 2, 4, Some(LoadZeroPageIndexed(Compare(Cmp), X))),
    Opcode(0xD6, "DEC", ZeroPageX, 2, 6, Some(LoadStoreZeroPageX(Modify(Dec)))),
    Placeholder(0xD7),
    Opcode(0xD8, "CLD", Implied, 1, 2, Some(SingleByteImplied(FlagWrite(Cld)))),
    Opcode(0xD9, "CMP", AbsoluteY, 3, 4, Some(LoadAbsoluteIndexed(Compare(Cmp), Y))),
    Placeholder(0xDA),
    Placeholder(0xDB),
    Placeholder(0xDC),
    Opcode(0xDD, "CMP", AbsoluteX, 3, 4, Some(LoadAbsoluteIndexed(Compare(Cmp), X))),
    Opcode(0xDE, "DEC", AbsoluteX, 3, 7, Some(LoadStoreAbsoluteX(Modify(Dec)))),
    Placeholder(0xDF)
  ]

  /** Entries 0xE0 - 0xEF (core/src/opcode.rs:297-312). */
  const RowE: seq<Opcode> := [
    Opcode(0xE0, "CPX", Immediate, 2, 2, Some(LoadImmediate(Compare(Cpx)))),
    Opcode(0xE1, "SBC", IndirectX, 2, 6, Some(LoadIndirectX(Acc(Sbc)))),
    Placeholder(0xE2),
    Placeholder(0xE3),
    Opcode(0xE4, "CPX", ZeroPage, 2, 3, Some(LoadZeroPage(Compare(Cpx)))),
    Opcode(0xE5, "SBC", ZeroPage, 2, 3, Some(LoadZeroPage(Acc(Sbc)))),
    Opcode(0xE6, "INC", ZeroPage, 2, 5, Some(LoadStoreZeroPage(Modify(Inc)))),
    Placeholder(0xE7),
    Opcode(0xE8, "INX", Implied, 1, 2, Some(SingleByteImplied(Step(Inx)))),
    Opcode(0xE9, "SBC", Immediate, 2, 2, Some(LoadImmediate(Acc(Sbc)))),
    Opcode(0xEA, "NOP", Implied, 1, 2, Some(SingleByteImplied(Nop))),
    Placeholder(0xEB),
    Opcode(0xEC, "CPX", Absolute, 3, 4, Some(LoadAbsolute(Compare(Cpx)))),
    Opcode(0xED, "SBC", Absolute, 3, 4, Some(LoadAbsolute(Acc(Sbc)))),
    Opcode(0xEE, "INC", Absolute, 3, 6, Some(LoadStoreAbsolute(Modify(Inc)))),
    Placeholder(0xEF)
  ]

  /** Entries 0xF0 - 0xFF (core/src/opcode.rs:314-329). */
  const RowF: seq<Opcode> := [
    Opcode(0xF0, "BEQ", Relative, 2, 2, Some(BranchRelative(Branch(Beq)))),
    Opcode(0xF1, "SBC", IndirectY, 2, 5, Some(LoadIndirectY(Acc(Sbc)))),
    Placeholder(0xF2),
    Placeholder(0xF3),
    Placeholder(0xF4),
    Opcode(0xF5, "SBC", ZeroPageX, 2, 4, Some(LoadZeroPageIndexed(Acc(Sbc), X))),
    Opcode(0xF6, "INC", ZeroPageX, 2, 6, Some(LoadStoreZeroPageX(Modify(Inc)))),
    Placeholder(0xF7),
    Opcode(0xF8, "SED", Implied, 1, 2, Some(SingleByteImplied(FlagWrite(Sed)))),
    Opcode(0xF9, "SBC", AbsoluteY, 3, 4, Some(LoadAbsoluteIndexed(Acc(Sbc), Y))),
    Placeholder(0xFA),
    Placeholder(0xFB),
    Placeholder(0xFC),
    Opcode(0xFD, "SBC", AbsoluteX, 3, 4, Some(LoadAbsoluteIndexed(Acc(Sbc), X))),
    Opcode(0xFE, "INC", AbsoluteX, 3, 7, Some(LoadStoreAbsoluteX(Modify(Inc)))),
    Placeholder(0xFF)
  ]

  /** Row k of the table: entries 16k to 16k + 15. */
  function Row(k: nat): (r: seq<Opcode>)
    requires k < 16
    ensures |r| == 16
  {
    match k
    case 0 => Row0
    case 1 => Row1
    case 2 => Row2
    case 3 => Row3
    case 4 => Row4
    case 5 => Row5
    case 6 => Row6
    case 7 => Row7
    case 8 => Row8
    case 9 => Row9
    case 10 => RowA
    case 11 => RowB
    case 12 => RowC
    case 13 => RowD
    case 14 => RowE
    case _ => RowF
  }

  /** `OPCODES`: the sixteen rows laid end to end. */
  function Opcodes(): (t: seq<Opcode>)
    ensures |t| == 256
  {
    seq(256, i requires 0 <= i < 256 => Row(i / 16)[i % 16])
  }

  /** A row of 16 well-formed entries starting at index `base`. */
  ghost predicate RowOk(r: seq<Opcode>, base: nat)
  {
    |r| == 16 && forall j | 0 <= j < 16 :: WellFormed(r[j], base + j)
  }

  // `Row0Shape` to `RowFShape` check the table's data row by row: they
  // hold by evaluating the constant rows and are collected by `RowShape`
  // and `TableShape`, which state the property for every index.

  lemma Row0Shape()
    ensures RowOk(Row0, 0)
  {
    forall j | 0 <= j < 8
      ensures WellFormed(Row0[j], 0 + j)
    {
    }
    forall j | 8 <= j < 16
      ensures WellFormed(Row0[j], 0 + j)
    {
    }
  }

  lemma Row1Shape()
    ensures RowOk(Row1, 16)
  {
    forall j | 0 <= j < 8
      ensures WellFormed(Row1[j], 16 + j)
    {
    }
    forall j | 8 <= j < 16
      ensures WellFormed(Row1[j], 16 + j)
    {
    }
  }

  lemma Row2Shape()
    ensures RowOk(Row2, 32)
  {
    forall j | 0 <= j < 8
      ensures WellFormed(Row2[j], 32 + j)
    {
    }
    forall j | 8 <= j < 16
      ensures WellFormed(Row2[j], 32 + j)
    {
    }
  }

  lemma Row3Shape()
    ensures RowOk(Row3, 48)
  {
    forall j | 0 <= j < 8
      ensures WellFormed(Row3[j], 48 + j)
    {
    }
    forall j | 8 <= j < 16
      ensures WellFormed(Row3[j], 48 + j)
    {
    }
  }

  lemma Row4Shape()
    ensures RowOk(Row4, 64)
  {
    forall j | 0 <= j < 8
      ensures WellFormed(Row4[j], 64 + j)
    {
    }
    forall j | 8 <= j < 16
      ensures WellFormed(Row4[j], 64 + j)
    {
    }
  }

  lemma Row5Shape()
    ensures RowOk(Row5, 80)
  {
    forall j | 0 <= j < 8
      ensures WellFormed(Row5[j], 80 + j)
    {
    }
    forall j | 8 <= j < 16
      ensures WellFormed(Row5[j], 80 + j)
    {
    }
  }

  lemma Row6Shape()
    ensures RowOk(Row6, 96)
  {
    forall j | 0 <= j < 8
      ensures WellFormed(Row6[j], 96 + j)
    {
    }
    forall j | 8 <= j < 16
      ensures WellFormed(Row6[j], 96 + j)
    {
    }
  }

  lemma Row7Shape()
    ensures RowOk(Row7, 112)
  {
    forall j | 0 <= j < 8
      ensures WellFormed(Row7[j], 112 + j)
    {
    }
    forall j | 8 <= j < 16
      ensures WellFormed(Row7[j], 112 + j)
    {
    }
  }

  lemma Row8Shape()
    ensures RowOk(Row8, 128)
  {
    forall j | 0 <= j < 8
      ensures WellFormed(Row8[j], 128 + j)
    {
    }
    forall j | 8 <= j < 16
      ensures WellFormed(Row8[j], 128 + j)
    {
    }
  }

  lemma Row9Shape()
    ensures RowOk(Row9, 144)
  {
    forall j | 0 <= j < 8
      ensures WellFormed(Row9[j], 144 + j)
    {
    }
    forall j | 8 <= j < 16
      ensures WellFormed(Row9[j], 144 + j)
    {
    }
  }

  lemma RowAShape()
    ensures RowOk(RowA, 160)
  {
  }

  lemma RowBShape()
    ensures RowOk(RowB, 176)
  {
  }

  lemma RowCShape()
    ensures RowOk(RowC, 192)
  {
  }

  lemma RowDShape()
    ensures RowOk(RowD, 208)
  {
  }

  lemma RowEShape()
    ensures RowOk(RowE, 224)
  {
  }

  lemma RowFShape()
    ensures RowOk(RowF, 240)
  {
  }

  lemma RowShape(k: nat)
    requires k < 16
    ensures RowOk(Row(k), 16 * k)
  {
    match k
    case 0 => Row0Shape();
    case 1 => Row1Shape();
    case 2 => Row2Shape();
    case 3 => Row3Shape();
    case 4 => Row4Shape();
    case 5 => Row5Shape();
    case 6 => Row6Shape();
    case 7 => Row7Shape();
    case 8 => Row8Shape();
    case 9 => Row9Shape();
    case 10 => RowAShape();
    case 11 => RowBShape();
    case 12 => RowCShape();
    case 13 => RowDShape();
    case 14 => RowEShape();
    case _ => RowFShape();
  }

  /** Every entry of the table is well formed and sits at its own index. */
  lemma TableShape()
    ensures |Opcodes()| == 256
    ensures forall i | 0 <= i < 256 :: WellFormed(Opcodes()[i], i)
  {
    forall i | 0 <= i < 256
      ensures WellFormed(Opcodes()[i], i)
    {
      RowShape(i / 16);
      assert Opcodes()[i] == Row(i / 16)[i % 16];
    }
  }

  /**
   * `decode_instruction(op)`: the entry's micro-op sequence.  `None` stands
   * for the `panic!` on an entry without microcode, which happens exactly
   * for the placeholder entries; a sequence it returns is never empty.
   */
  function DecodeInstruction(op: u8): (r: Option<seq<MicroOp>>)
    ensures r.None? <==> Opcodes()[op] == Placeholder(op)
    ensures r.None? <==> Opcodes()[op].mnemonic == ""
    ensures r.Some? ==> r == Opcodes()[op].ucode && |r.value| > 0
  {
    TableShape();
    if Opcodes()[op].ucode.None? then None else Opcodes()[op].ucode
  }

  /**
   * `decode_instruction_to_string(op)`: the entry's mnemonic, failing under
   * the same condition as `decode_instruction`.
   */
  function DecodeInstructionToString(op: u8): (r: Option<string>)
    ensures r.None? <==> DecodeInstruction(op).None?
    ensures r.Some? ==> r.value == Opcodes()[op].mnemonic && |r.value| == 3
  {
    TableShape();
    if Opcodes()[op].ucode.None? then None else Some(Opcodes()[op].mnemonic)
  }
}
