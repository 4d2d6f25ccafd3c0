/**
 * asm/src/instruction.rs: the assembler's table from mnemonics to the
 * opcodes of each addressing mode, and `Instruction::find_by_name`.  The
 * file declares its own `AddressMode` enum with the same thirteen variants
 * as the decode table of core/src/opcode.rs; the model shares that one.
 */
module AsmInstruction {
  import opened Bytes
  import opened Wrappers
  import OT = OpcodeTable

  type AddressMode = OT.AddressMode

  /** `Opcode`: one addressing mode of an instruction. */
  datatype Opcode = Opcode(value: u8, mode: AddressMode, bytes: u8, cycles: u8)

  /** `Instruction`: a mnemonic and its opcodes. */
  datatype Instruction = Instruction(name: string, opcodes: seq<Opcode>)

  /** asm/src/instruction.rs:40-52 */
  const ADC: seq<Opcode> := [
    Opcode(0x69, OT.Immediate, 2, 2),
    Opcode(0x65, OT.ZeroPage, 2, 3),
    Opcode(0x75, OT.ZeroPageX, 2, 4),
    Opcode(0x6D, OT.Absolute, 3, 4),
    Opcode(0x7D, OT.AbsoluteX, 3, 4),
    Opcode(0x79, OT.AbsoluteY, 3, 4),
    Opcode(0x61, OT.IndirectX, 2, 6),
    Opcode(0x71, OT.IndirectY, 2, 5)
  ]

  /** asm/src/instruction.rs:53-65 */
  const AND: seq<Opcode> := [
    Opcode(0x29, OT.Immediate, 2, 2),
    Opcode(0x25, OT.ZeroPage, 2, 3),
    Opcode(0x35, OT.ZeroPageX, 2, 4),
    Opcode(0x2D, OT.Absolute, 3, 4),
    Opcode(0x3D, OT.AbsoluteX, 3, 4),
    Opcode(0x39, OT.AbsoluteY, 3, 4),
    Opcode(0x21, OT.IndirectX, 2, 6),
    Opcode(0x31, OT.IndirectY, 2, 5)
  ]

  /** asm/src/instruction.rs:66-75 */
  const ASL: seq<Opcode> := [
    Opcode(0x0A, OT.Accumulator, 1, 2),
    Opcode(0x06, OT.ZeroPage, 2, 5),
    Opcode(0x16, OT.ZeroPageX, 2, 6),
    Opcode(0x0E, OT.Absolute, 3, 6),
    Opcode(0x1E, OT.AbsoluteX, 3, 7)
  ]

  /** asm/src/instruction.rs:76-81 */
  const BCC: seq<Opcode> := [
    Opcode(0x90, OT.Relative, 2, 2)
  ]

  /** asm/src/instruction.rs:82-87 */
  const BCS: seq<Opcode> := [
    Opcode(0xB0, OT.Relative, 2, 2)
  ]

  /** asm/src/instruction.rs:88-93 */
  const BEQ: seq<Opcode> := [
    Opcode(0xF0, OT.Relative, 2, 2)
  ]

  /** asm/src/instruction.rs:94-100 */
  const BIT: seq<Opcode> := [
    Opcode(0x24, OT.ZeroPage, 2, 3),
    Opcode(0x2C, OT.Absolute, 3, 4)
  ]

  /** asm/src/instruction.rs:101-106 */
  const BMI: seq<Opcode> := [
    Opcode(0x30, OT.Relative, 2, 2)
  ]

  /** asm/src/instruction.rs:107-112 */
  const BNE: seq<Opcode> := [
    Opcode(0xD0, OT.Relative, 2, 2)
  ]

  /** asm/src/instruction.rs:113-118 */
  const BPL: seq<Opcode> := [
    Opcode(0x10, OT.Relative, 2, 2)
  ]

  /** asm/src/instruction.rs:119-124 */
  const BRK: seq<Opcode> := [
    Opcode(0x00, OT.Implied, 1, 7)
  ]

  /** asm/src/instruction.rs:125-130 */
  const BVC: seq<Opcode> := [
    Opcode(0x50, OT.Relative, 2, 2)
  ]

  /** asm/src/instruction.rs:131-136 */
  const BVS: seq<Opcode> := [
    Opcode(0x70, OT.Relative, 2, 2)
  ]

  /** asm/src/instruction.rs:137-142 */
  const CLC: seq<Opcode> := [
    Opcode(0x18, OT.Implied, 1, 2)
  ]

  /** asm/src/instruction.rs:143-148 */
  const CLD: seq<Opcode> := [
    Opcode(0xD8, OT.Implied, 1, 2)
  ]

  /** asm/src/instruction.rs:149-154 */
  const CLI: seq<Opcode> := [
    Opcode(0x58, OT.Implied, 1, 2)
  ]

  /** asm/src/instruction.rs:155-160 */
  const CLV: seq<Opcode> := [
    Opcode(0xB8, OT.Implied, 1, 2)
  ]

  /** asm/src/instruction.rs:161-173 */
  const CMP: seq<Opcode> := [
    Opcode(0xC9, OT.Immediate, 2, 2),
    Opcode(0xC5, OT.ZeroPage, 2, 3),
    Opcode(0xD5, OT.ZeroPageX, 2, 4),
    Opcode(0xCD, OT.Absolute, 3, 4),
    Opcode(0xDD, OT.AbsoluteX, 3, 4),
    Opcode(0xD9, OT.AbsoluteY, 3, 4),
    Opcode(0xC1, OT.IndirectX, 2, 6),
    Opcode(0xD1, OT.IndirectY, 2, 5)
  ]

  /** asm/src/instruction.rs:174-181 */
  const CPX: seq<Opcode> := [
    Opcode(0xE0, OT.Immediate, 2, 2),
    Opcode(0xE4, OT.ZeroPage, 2, 3),
    Opcode(0xEC, OT.Absolute, 3, 4)
  ]

  /** asm/src/instruction.rs:182-189 */
  const CPY: seq<Opcode> := [
    Opcode(0xC0, OT.Immediate, 2, 2),
    Opcode(0xC4, OT.ZeroPage, 2, 3),
    Opcode(0xCC, OT.Absolute, 3, 4)
  ]

  /** asm/src/instruction.rs:190-198 */
  const DEC: seq<Opcode> := [
    Opcode(0xC6, OT.ZeroPage, 2, 5),
    Opcode(0xD6, OT.ZeroPageX, 2, 6),
    Opcode(0xCE, OT.Absolute, 3, 6),
    Opcode(0xDE, OT.AbsoluteX, 3, 7)
  ]

  /** asm/src/instruction.rs:199-204 */
  const DEX: seq<Opcode> := [
    Opcode(0xCA, OT.Implied, 1, 2)
  ]

  /** asm/src/instruction.rs:205-210 */
  const DEY: seq<Opcode> := [
    Opcode(0x88, OT.Implied, 1, 2)
  ]

  /** asm/src/instruction.rs:211-223 */
  const EOR: seq<Opcode> := [
    Opcode(0x49, OT.Immediate, 2, 2),
    Opcode(0x45, OT.ZeroPage, 2, 3),
    Opcode(0x55, OT.ZeroPageX, 2, 4),
    Opcode(0x4D, OT.Absolute, 3, 4),
    Opcode(0x5D, OT.AbsoluteX, 3, 4),
    Opcode(0x59, OT.AbsoluteY, 3, 4),
    Opcode(0x41, OT.IndirectX, 2, 6),
    Opcode(0x51, OT.IndirectY, 2, 5)
  ]

  /** asm/src/instruction.rs:224-232 */
  const INC: seq<Opcode> := [
    Opcode(0xE6, OT.ZeroPage, 2, 5),
    Opcode(0xF6, OT.ZeroPageX, 2, 6),
    Opcode(0xEE, OT.Absolute, 3, 6),
    Opcode(0xFE, OT.AbsoluteX, 3, 7)
  ]

  /** asm/src/instruction.rs:233-238 */
  const INX: seq<Opcode> := [
    Opcode(0xE8, OT.Implied, 1, 2)
  ]

  /** asm/src/instruction.rs:239-244 */
  const INY: seq<Opcode> := [
    Opcode(0xC8, OT.Implied, 1, 2)
  ]

  /** asm/src/instruction.rs:245-251 */
  const JMP: seq<Opcode> := [
    Opcode(0x4C, OT.Absolute, 3, 3),
    Opcode(0x6C, OT.Indirect, 3, 5)
  ]

  /** asm/src/instruction.rs:252-257 */
  const JSR: seq<Opcode> := [
    Opcode(0x20, OT.Absolute, 3, 6)
  ]

  /** asm/src/instruction.rs:258-270 */
  const LDA: seq<Opcode> := [
    Opcode(0xA9, OT.Immediate, 2, 2),
    Opcode(0xA5, OT.ZeroPage, 2, 3),
    Opcode(0xB5, OT.ZeroPageX, 2, 4),
    Opcode(0xAD, OT.Absolute, 3, 4),
    Opcode(0xBD, OT.AbsoluteX, 3, 4),
    Opcode(0xB9, OT.AbsoluteY, 3, 4),
    Opcode(0xA1, OT.IndirectX, 2, 6),
    Opcode(0xB1, OT.IndirectY, 2, 5)
  ]

  /** asm/src/instruction.rs:271-280 */
  const LDX: seq<Opcode> := [
    Opcode(0xA2, OT.Immediate, 2, 2),
    Opcode(0xA6, OT.ZeroPage, 2, 3),
    Opcode(0xB6, OT.ZeroPageY, 2, 4),
    Opcode(0xAE, OT.Absolute, 3, 4),
    Opcode(0xBE, OT.AbsoluteY, 3, 4)
  ]

  /** asm/src/instruction.rs:281-290 */
  const LDY: seq<Opcode> := [
    Opcode(0xA0, OT.Immediate, 2, 2),
    Opcode(0xA4, OT.ZeroPage, 2, 3),
    Opcode(0xB4, OT.ZeroPageX, 2, 4),
    Opcode(0xAC, OT.Absolute, 3, 4),
    Opcode(0xBC, OT.AbsoluteX, 3, 4)
  ]

  /** asm/src/instruction.rs:291-300 */
  const LSR: seq<Opcode> := [
    Opcode(0x4A, OT.Accumulator, 1, 2),
    Opcode(0x46, OT.ZeroPage, 2, 5),
    Opcode(0x56, OT.ZeroPageX, 2, 6),
    Opcode(0x4E, OT.Absolute, 3, 6),
    Opcode(0x5E, OT.AbsoluteX, 3, 7)
  ]

  /** asm/src/instruction.rs:301-306 */
  const NOP: seq<Opcode> := [
    Opcode(0xEA, OT.Implied, 1, 2)
  ]

  /** asm/src/instruction.rs:307-319 */
  const ORA: seq<Opcode> := [
    Opcode(0x09, OT.Immediate, 2, 2),
    Opcode(0x05, OT.ZeroPage, 2, 3),
    Opcode(0x15, OT.ZeroPageX, 2, 4),
    Opcode(0x0D, OT.Absolute, 3, 4),
    Opcode(0x1D, OT.AbsoluteX, 3, 4),
    Opcode(0x19, OT.AbsoluteY, 3, 4),
    Opcode(0x01, OT.IndirectX, 2, 6),
    Opcode(0x11, OT.IndirectY, 2, 5)
  ]

  /** asm/src/instruction.rs:320-325 */
  const PHA: seq<Opcode> := [
    Opcode(0x48, OT.Implied, 1, 3)
  ]

  /** asm/src/instruction.rs:326-331 */
  const PHP: seq<Opcode> := [
    Opcode(0x08, OT.Implied, 1, 3)
  ]

  /** asm/src/instruction.rs:332-337 */
  const PLA: seq<Opcode> := [
    Opcode(0x68, OT.Implied, 1, 4)
  ]

  /** asm/src/instruction.rs:338-343 */
  const PLP: seq<Opcode> := [
    Opcode(0x28, OT.Implied, 1, 4)
  ]

  /** asm/src/instruction.rs:344-353 */
  const ROL: seq<Opcode> := [
    Opcode(0x2A, OT.Accumulator, 1, 2),
    Opcode(0x26, OT.ZeroPage, 2, 5),
    Opcode(0x36, OT.ZeroPageX, 2, 6),
    Opcode(0x2E, OT.Absolute, 3, 6),
    Opcode(0x3E, OT.AbsoluteX, 3, 7)
  ]

  /** asm/src/instruction.rs:354-363 */
  const ROR: seq<Opcode> := [
    Opcode(0x6A, OT.Accumulator, 1, 2),
    Opcode(0x66, OT.ZeroPage, 2, 5),
    Opcode(0x76, OT.ZeroPageX, 2, 6),
    Opcode(0x6E, OT.Absolute, 3, 6),
    Opcode(0x7E, OT.AbsoluteX, 3, 7)
  ]

  /** asm/src/instruction.rs:364-369 */
  const RTI: seq<Opcode> := [
    Opcode(0x40, OT.Implied, 1, 6)
  ]

  /** asm/src/instruction.rs:370-375 */
  const RTS: seq<Opcode> := [
    Opcode(0x60, OT.Implied, 1, 6)
  ]

  /** asm/src/instruction.rs:376-388 */
  const SBC: seq<Opcode> := [
    Opcode(0xE9, OT.Immediate, 2, 2),
    Opcode(0xE5, OT.ZeroPage, 2, 3),
    Opcode(0xF5, OT.ZeroPageX, 2, 4),
    Opcode(0xED, OT.Absolute, 3, 4),
    Opcode(0xFD, OT.AbsoluteX, 3, 4),
    Opcode(0xF9, OT.AbsoluteY, 3, 4),
    Opcode(0xE1, OT.IndirectX, 2, 6),
    Opcode(0xF1, OT.IndirectY, 2, 5)
  ]

  /** asm/src/instruction.rs:389-394 */
  const SEC: seq<Opcode> := [
    Opcode(0x38, OT.Implied, 1, 2)
  ]

  /** asm/src/instruction.rs:395-400 */
  const SED: seq<Opcode> := [
    Opcode(0xF8, OT.Implied, 1, 2)
  ]

  /** asm/src/instruction.rs:401-406 */
  const SEI: seq<Opcode> := [
    Opcode(0x78, OT.Implied, 1, 2)
  ]

  /** asm/src/instruction.rs:407-418 */
  const STA: seq<Opcode> := [
    Opcode(0x85, OT.ZeroPage, 2, 3),
    Opcode(0x95, OT.ZeroPageX, 2, 4),
    Opcode(0x8D, OT.Absolute, 3, 4),
    Opcode(0x9D, OT.AbsoluteX, 3, 5),
    Opcode(0x99, OT.AbsoluteY, 3, 5),
    Opcode(0x81, OT.IndirectX, 2, 6),
    Opcode(0x91, OT.IndirectY, 2, 6)
  ]

  /** asm/src/instruction.rs:419-426 */
  const STX: seq<Opcode> := [
    Opcode(0x86, OT.ZeroPage, 2, 3),
    Opcode(0x96, OT.ZeroPageY, 2, 4),
    Opcode(0x8E, OT.Absolute, 3, 4)
  ]

  /** asm/src/instruction.rs:427-434 */
  const STY: seq<Opcode> := [
    Opcode(0x84, OT.ZeroPage, 2, 3),
    Opcode(0x94, OT.ZeroPageX, 2, 4),
    Opcode(0x8C, OT.Absolute, 3, 4)
  ]

  /** asm/src/instruction.rs:435-440 */
  const TAX: seq<Opcode> := [
    Opcode(0xAA, OT.Implied, 1, 2)
  ]

  /** asm/src/instruction.rs:441-446 */
  const TAY: seq<Opcode> := [
    Opcode(0xA8, OT.Implied, 1, 2)
  ]

  /** asm/src/instruction.rs:447-452 */
  const TSX: seq<Opcode> := [
    Opcode(0xBA, OT.Implied, 1, 2)
  ]

  /** asm/src/instruction.rs:453-458 */
  const TXA: seq<Opcode> := [
    Opcode(0x8A, OT.Implied, 1, 2)
  ]

  /** asm/src/instruction.rs:459-464 */
  const TXS: seq<Opcode> := [
    Opcode(0x9A, OT.Implied, 1, 2)
  ]

  /** asm/src/instruction.rs:465-470 */
  const TYA: seq<Opcode> := [
    Opcode(0x98, OT.Implied, 1, 2)
  ]

  /** Entries `8g` to `8g + 7` of `INSTRUCTIONS`, in the order of its source, which is alphabetical. */
  function Group(g: nat): (r: seq<Instruction>)
    requires g < 7
    ensures |r| == 8
  {
    match g
    case 0 =>
      [Instruction("adc", ADC), Instruction("and", AND), Instruction("asl", ASL), Instruction("bcc", BCC),
       Instruction("bcs", BCS), Instruction("beq", BEQ), Instruction("bit", BIT), Instruction("bmi", BMI)]
    case 1 =>
      [Instruction("bne", BNE), Instruction("bpl", BPL), Instruction("brk", BRK), Instruction("bvc", BVC),
       Instruction("bvs", BVS), Instruction("clc", CLC), Instruction("cld", CLD), Instruction("cli", CLI)]
    case 2 =>
      [Instruction("clv", CLV), Instruction("cmp", CMP), Instruction("cpx", CPX), Instruction("cpy", CPY),
       Instruction("dec", DEC), Instruction("dex", DEX), Instruction("dey", DEY), Instruction("eor", EOR)]
    case 3 =>
      [Instruction("inc", INC), Instruction("inx", INX), Instruction("iny", INY), Instruction("jmp", JMP),
       Instruction("jsr", JSR), Instruction("lda", LDA), Instruction("ldx", LDX), Instruction("ldy", LDY)]
    case 4 =>
      [Instruction("lsr", LSR), Instruction("nop", NOP), Instruction("ora", ORA), Instruction("pha", PHA),
       Instruction("php", PHP), Instruction("pla", PLA), Instruction("plp", PLP), Instruction("rol", ROL)]
    case 5 =>
      [Instruction("ror", ROR), Instruction("rti", RTI), Instruction("rts", RTS), Instruction("sbc", SBC),
       Instruction("sec", SEC), Instruction("sed", SED), Instruction("sei", SEI), Instruction("sta", STA)]
    case _ =>
      [Instruction("stx", STX), Instruction("sty", STY), Instruction("tax", TAX), Instruction("tay", TAY),
       Instruction("tsx", TSX), Instruction("txa", TXA), Instruction("txs", TXS), Instruction("tya", TYA)]
  }

  /** Entry `i` of `INSTRUCTIONS`. */
  function Entry(i: nat): Instruction
    requires i < 56
  {
    Group(i / 8)[i % 8]
  }

  /** `INSTRUCTIONS`: a `phf::Map` keyed by each entry's own `name`. */
  function Instructions(): (t: seq<Instruction>)
    ensures |t| == 56 && forall i | 0 <= i < 56 :: t[i] == Entry(i)
  {
    seq(56, i requires 0 <= i < 56 => Entry(i))
  }

  /** The names of the entries of `t`. */
  ghost function NameSet(t: seq<Instruction>): set<string>
  {
    set i | 0 <= i < |t| :: t[i].name
  }

  /** The keys of the map. */
  ghost function Keys(): set<string>
  {
    NameSet(Instructions())
  }

  /** The first instruction of `t` named `name`. */
  function Find(t: seq<Instruction>, name: string): (r: Option<Instruction>)
    ensures r.Some? <==> exists i | 0 <= i < |t| :: t[i].name == name
    ensures r.Some? ==> r.value.name == name && r.value in t
  {
    if |t| == 0 then None
    else if t[0].name == name then Some(t[0])
    else
      var r := Find(t[1..], name);
      assert forall i | 1 <= i < |t| :: t[i] == t[1..][i - 1];
      r
  }

  /** `Instruction::find_by_name(name)`: the entry under the key `name`, if there is one. */
  function FindByName(name: string): (r: Option<Instruction>)
    ensures r.Some? <==> name in Keys()
    ensures r.Some? ==> r.value.name == name && r.value in Instructions()
  {
    Find(Instructions(), name)
  }

  /** The eight conditional branches. */
  predicate IsBranch(name: string)
  {
    name in {"bcc", "bcs", "beq", "bmi", "bne", "bpl", "bvc", "bvs"}
  }

  /** A mnemonic as the table spells it: three lower-case letters. */
  predicate IsMnemonic(name: string)
  {
    |name| == 3 && 'a' <= name[0] <= 'z' && 'a' <= name[1] <= 'z' && 'a' <= name[2] <= 'z'
  }

  /** The sort key of a three-letter name. */
  function Key(name: string): int
    requires |name| == 3
  {
    name[0] as int * 0x1_0000 + name[1] as int * 0x100 + name[2] as int
  }

  /**
   * What every entry of the table satisfies: a lower-case mnemonic, at
   * least one opcode, each opcode as long as its mode says, no mode and no
   * opcode byte twice, and relative addressing exactly for the branches,
   * which have that one 2-byte, 2-cycle form.
   */
  ghost predicate EntryOk(ins: Instruction)
  {
    var ops := ins.opcodes;
    IsMnemonic(ins.name) && |ops| > 0 &&
    (forall j | 0 <= j < |ops| :: ops[j].bytes == OT.ModeBytes(ops[j].mode)) &&
    (forall j, k | 0 <= j < k < |ops| :: ops[j].mode != ops[k].mode && ops[j].value != ops[k].value) &&
    (IsBranch(ins.name) ==> |ops| == 1 && ops[0].mode == OT.Relative && ops[0].bytes == 2 && ops[0].cycles == 2) &&
    (!IsBranch(ins.name) ==> forall j | 0 <= j < |ops| :: ops[j].mode != OT.Relative)
  }

  /** The mnemonic each opcode byte of the table belongs to, looked up by its high and low nibble. */
  function OwnerOf(value: u8): Option<string>
  {
    OwnerInRow(value / 16, value % 16)
  }

  function OwnerInRow(hi: nat, lo: nat): Option<string>
  {
    match hi
    case 0 => (
      match lo
      case 0 => Some("brk")
      case 1 => Some("ora")
      case 5 => Some("ora")
      case 6 => Some("asl")
      case 8 => Some("php")
      case 9 => Some("ora")
      case 10 => Some("asl")
      case 13 => Some("ora")
      case 14 => Some("asl")
      case _ => None)
    case 1 => (
      match lo
      case 0 => Some("bpl")
      case 1 => Some("ora")
      case 5 => Some("ora")
      case 6 => Some("asl")
      case 8 => Some("clc")
      case 9 => Some("ora")
      case 13 => Some("ora")
      case 14 => Some("asl")
      case _ => None)
    case 2 => (
      match lo
      case 0 => Some("jsr")
      case 1 => Some("and")
      case 4 => Some("bit")
      case 5 => Some("and")
      case 6 => Some("rol")
      case 8 => Some("plp")
      case 9 => Some("and")
      case 10 => Some("rol")
      case 12 => Some("bit")
      case 13 => Some("and")
      case 14 => Some("rol")
      case _ => None)
    case 3 => (
      match lo
      case 0 => Some("bmi")
      case 1 => Some("and")
      case 5 => Some("and")
      case 6 => Some("rol")
      case 8 => Some("sec")
      case 9 => Some("and")
      case 13 => Some("and")
      case 14 => Some("rol")
      case _ => None)
    case 4 => (
      match lo
      case 0 => Some("rti")
      case 1 => Some("eor")
      case 5 => Some("eor")
      case 6 => Some("lsr")
      case 8 => Some("pha")
      case 9 => Some("eor")
      case 10 => Some("lsr")
      case 12 => Some("jmp")
      case 13 => Some("eor")
      case 14 => Some("lsr")
      case _ => None)
    case 5 => (
      match lo
      case 0 => Some("bvc")
      case 1 => Some("eor")
      case 5 => Some("eor")
      case 6 => Some("lsr")
      case 8 => Some("cli")
      case 9 => Some("eor")
      case 13 => Some("eor")
      case 14 => Some("lsr")
      case _ => None)
    case 6 => (
      match lo
      case 0 => Some("rts")
      case 1 => Some("adc")
      case 5 => Some("adc")
      case 6 => Some("ror")
      case 8 => Some("pla")
      case 9 => Some("adc")
      case 10 => Some("ror")
      case 12 => Some("jmp")
      case 13 => Some("adc")
      case 14 => Some("ror")
      case _ => None)
    case 7 => (
      match lo
      case 0 => Some("bvs")
      case 1 => Some("adc")
      case 5 => Some("adc")
      case 6 => Some("ror")
      case 8 => Some("sei")
      case 9 => Some("adc")
      case 13 => Some("adc")
      case 14 => Some("ror")
      case _ => None)
    case 8 => (
      match lo
      case 1 => Some("sta")
      case 4 => Some("sty")
      case 5 => Some("sta")
      case 6 => Some("stx")
      case 8 => Some("dey")
      case 10 => Some("txa")
      case 12 => Some("sty")
      case 13 => Some("sta")
      case 14 => Some("stx")
      case _ => None)
    case 9 => (
      match lo
      case 0 => Some("bcc")
      case 1 => Some("sta")
      case 4 => Some("sty")
      case 5 => Some("sta")
      case 6 => Some("stx")
      case 8 => Some("tya")
      case 9 => Some("sta")
      case 10 => Some("txs")
      case 13 => Some("sta")
      case _ => None)
    case 10 => (
      match lo
      case 0 => Some("ldy")
      case 1 => Some("lda")
      case 2 => Some("ldx")
      case 4 => Some("ldy")
      case 5 => Some("lda")
      case 6 => Some("ldx")
      case 8 => Some("tay")
      case 9 => Some("lda")
      case 10 => Some("tax")
      case 12 => Some("ldy")
      case 13 => Some("lda")
      case 14 => Some("ldx")
      case _ => None)
    case 11 => (
      match lo
      case 0 => Some("bcs")
      case 1 => Some("lda")
      case 4 => Some("ldy")
      case 5 => Some("lda")
      case 6 => Some("ldx")
      case 8 => Some("clv")
      case 9 => Some("lda")
      case 10 => Some("tsx")
      case 12 => Some("ldy")
      case 13 => Some("lda")
      case 14 => Some("ldx")
      case _ => None)
    case 12 => (
      match lo
      case 0 => Some("cpy")
      case 1 => Some("cmp")
      case 4 => Some("cpy")
      case 5 => Some("cmp")
      case 6 => Some("dec")
      case 8 => Some("iny")
      case 9 => Some("cmp")
      case 10 => Some("dex")
      case 12 => Some("cpy")
      case 13 => Some("cmp")
      case 14 => Some("dec")
      case _ => None)
    case 13 => (
      match lo
      case 0 => Some("bne")
      case 1 => Some("cmp")
      case 5 => Some("cmp")
      case 6 => Some("dec")
      case 8 => Some("cld")
      case 9 => Some("cmp")
      case 13 => Some("cmp")
      case 14 => Some("dec")
      case _ => None)
    case 14 => (
      match lo
      case 0 => Some("cpx")
      case 1 => Some("sbc")
      case 4 => Some("cpx")
      case 5 => Some("sbc")
      case 6 => Some("inc")
      case 8 => Some("inx")
      case 9 => Some("sbc")
      case 10 => Some("nop")
      case 12 => Some("cpx")
      case 13 => Some("sbc")
      case 14 => Some("inc")
      case _ => None)
    case _ => (
      match lo
      case 0 => Some("beq")
      case 1 => Some("sbc")
      case 5 => Some("sbc")
      case 6 => Some("inc")
      case 8 => Some("sed")
      case 9 => Some("sbc")
      case 13 => Some("sbc")
      case 14 => Some("inc")
      case _ => None)
  }

  /** Each opcode byte of `ins` belongs to it. */
  predicate Owns(ins: Instruction)
  {
    AllOwned(ins.name, ins.opcodes)
  }

  predicate AllOwned(name: string, ops: seq<Opcode>)
    decreases |ops|
  {
    |ops| == 0 || (OwnerOf(ops[0].value) == Some(name) && AllOwned(name, ops[1..]))
  }

  lemma {:induction false} AllOwnedMeans(name: string, ops: seq<Opcode>)
    requires AllOwned(name, ops)
    ensures forall j | 0 <= j < |ops| :: OwnerOf(ops[j].value) == Some(name)
    decreases |ops|
  {
    if |ops| > 0 {
      AllOwnedMeans(name, ops[1..]);
      assert forall j | 1 <= j < |ops| :: ops[j] == ops[1..][j - 1];
    }
  }

  // The `<Name>Shape`, `<Name>Owns` and `<Name>Ok` lemmas below, and
  // `Entries0` to `Entries3`, check the table's data one entry at a time:
  // they hold by evaluating constants and state nothing beyond
  // `TableWellFormed`, which collects them.  They are split per entry only
  // to keep each check small.

  lemma AdcShape()
    ensures EntryOk(Instruction("adc", ADC))
  {
  }

  lemma AdcOwns()
    ensures AllOwned("adc", ADC)
  {
  }

  lemma AndShape()
    ensures EntryOk(Instruction("and", AND))
  {
  }

  lemma AndOwns()
    ensures AllOwned("and", AND)
  {
  }

  lemma AslShape()
    ensures EntryOk(Instruction("asl", ASL))
  {
  }

  lemma AslOwns()
    ensures AllOwned("asl", ASL)
  {
  }

  lemma BccShape()
    ensures EntryOk(Instruction("bcc", BCC))
  {
  }

  lemma BccOwns()
    ensures AllOwned("bcc", BCC)
  {
  }

  lemma BcsShape()
    ensures EntryOk(Instruction("bcs", BCS))
  {
  }

  lemma BcsOwns()
    ensures AllOwned("bcs", BCS)
  {
  }

  lemma BeqShape()
    ensures EntryOk(Instruction("beq", BEQ))
  {
  }

  lemma BeqOwns()
    ensures AllOwned("beq", BEQ)
  {
  }

  lemma BitShape()
    ensures EntryOk(Instruction("bit", BIT))
  {
  }

  lemma BitOwns()
    ensures AllOwned("bit", BIT)
  {
  }

  lemma BmiShape()
    ensures EntryOk(Instruction("bmi", BMI))
  {
  }

  lemma BmiOwns()
    ensures AllOwned("bmi", BMI)
  {
  }

  lemma BneShape()
    ensures EntryOk(Instruction("bne", BNE))
  {
  }

  lemma BneOwns()
    ensures AllOwned("bne", BNE)
  {
  }

  lemma BplShape()
    ensures EntryOk(Instruction("bpl", BPL))
  {
  }

  lemma BplOwns()
    ensures AllOwned("bpl", BPL)
  {
  }

  lemma BrkShape()
    ensures EntryOk(Instruction("brk", BRK))
  {
  }

  lemma BrkOwns()
    ensures AllOwned("brk", BRK)
  {
  }

  lemma BvcShape()
    ensures EntryOk(Instruction("bvc", BVC))
  {
  }

  lemma BvcOwns()
    ensures AllOwned("bvc", BVC)
  {
  }

  lemma BvsShape()
    ensures EntryOk(Instruction("bvs", BVS))
  {
  }

  lemma BvsOwns()
    ensures AllOwned("bvs", BVS)
  {
  }

  lemma ClcShape()
    ensures EntryOk(Instruction("clc", CLC))
  {
  }

  lemma ClcOwns()
    ensures AllOwned("clc", CLC)
  {
  }

  lemma CldShape()
    ensures EntryOk(Instruction("cld", CLD))
  {
  }

  lemma CldOwns()
    ensures AllOwned("cld", CLD)
  {
  }

  lemma CliShape()
    ensures EntryOk(Instruction("cli", CLI))
  {
  }

  lemma CliOwns()
    ensures AllOwned("cli", CLI)
  {
  }

  lemma ClvShape()
    ensures EntryOk(Instruction("clv", CLV))
  {
  }

  lemma ClvOwns()
    ensures AllOwned("clv", CLV)
  {
  }

  lemma CmpShape()
    ensures EntryOk(Instruction("cmp", CMP))
  {
  }

  lemma CmpOwns()
    ensures AllOwned("cmp", CMP)
  {
  }

  lemma CpxShape()
    ensures EntryOk(Instruction("cpx", CPX))
  {
  }

  lemma CpxOwns()
    ensures AllOwned("cpx", CPX)
  {
  }

  lemma CpyShape()
    ensures EntryOk(Instruction("cpy", CPY))
  {
  }

  lemma CpyOwns()
    ensures AllOwned("cpy", CPY)
  {
  }

  lemma DecShape()
    ensures EntryOk(Instruction("dec", DEC))
  {
  }

  lemma DecOwns()
    ensures AllOwned("dec", DEC)
  {
  }

  lemma DexShape()
    ensures EntryOk(Instruction("dex", DEX))
  {
  }

  lemma DexOwns()
    ensures AllOwned("dex", DEX)
  {
  }

  lemma DeyShape()
    ensures EntryOk(Instruction("dey", DEY))
  {
  }

  lemma DeyOwns()
    ensures AllOwned("dey", DEY)
  {
  }

  lemma EorShape()
    ensures EntryOk(Instruction("eor", EOR))
  {
  }

  lemma EorOwns()
    ensures AllOwned("eor", EOR)
  {
  }

  lemma IncShape()
    ensures EntryOk(Instruction("inc", INC))
  {
  }

  lemma IncOwns()
    ensures AllOwned("inc", INC)
  {
  }

  lemma InxShape()
    ensures EntryOk(Instruction("inx", INX))
  {
  }

  lemma InxOwns()
    ensures AllOwned("inx", INX)
  {
  }

  lemma InyShape()
    ensures EntryOk(Instruction("iny", INY))
  {
  }

  lemma InyOwns()
    ensures AllOwned("iny", INY)
  {
  }

  lemma JmpShape()
    ensures EntryOk(Instruction("jmp", JMP))
  {
  }

  lemma JmpOwns()
    ensures AllOwned("jmp", JMP)
  {
  }

  lemma JsrShape()
    ensures EntryOk(Instruction("jsr", JSR))
  {
  }

  lemma JsrOwns()
    ensures AllOwned("jsr", JSR)
  {
  }

  lemma LdaShape()
    ensures EntryOk(Instruction("lda", LDA))
  {
  }

  lemma LdaOwns()
    ensures AllOwned("lda", LDA)
  {
  }

  lemma LdxShape()
    ensures EntryOk(Instruction("ldx", LDX))
  {
  }

  lemma LdxOwns()
    ensures AllOwned("ldx", LDX)
  {
  }

  lemma LdyShape()
    ensures EntryOk(Instruction("ldy", LDY))
  {
  }

  lemma LdyOwns()
    ensures AllOwned("ldy", LDY)
  {
  }

  lemma LsrShape()
    ensures EntryOk(Instruction("lsr", LSR))
  {
  }

  lemma LsrOwns()
    ensures AllOwned("lsr", LSR)
  {
  }

  lemma NopShape()
    ensures EntryOk(Instruction("nop", NOP))
  {
  }

  lemma NopOwns()
    ensures AllOwned("nop", NOP)
  {
  }

  lemma OraShape()
    ensures EntryOk(Instruction("ora", ORA))
  {
  }

  lemma OraOwns()
    ensures AllOwned("ora", ORA)
  {
  }

  lemma PhaShape()
    ensures EntryOk(Instruction("pha", PHA))
  {
  }

  lemma PhaOwns()
    ensures AllOwned("pha", PHA)
  {
  }

  lemma PhpShape()
    ensures EntryOk(Instruction("php", PHP))
  {
  }

  lemma PhpOwns()
    ensures AllOwned("php", PHP)
  {
  }

  lemma PlaShape()
    ensures EntryOk(Instruction("pla", PLA))
  {
  }

  lemma PlaOwns()
    ensures AllOwned("pla", PLA)
  {
  }

  lemma PlpShape()
    ensures EntryOk(Instruction("plp", PLP))
  {
  }

  lemma PlpOwns()
    ensures AllOwned("plp", PLP)
  {
  }

  lemma RolShape()
    ensures EntryOk(Instruction("rol", ROL))
  {
  }

  lemma RolOwns()
    ensures AllOwned("rol", ROL)
  {
  }

  lemma RorShape()
    ensures EntryOk(Instruction("ror", ROR))
  {
  }

  lemma RorOwns()
    ensures AllOwned("ror", ROR)
  {
  }

  lemma RtiShape()
    ensures EntryOk(Instruction("rti", RTI))
  {
  }

  lemma RtiOwns()
    ensures AllOwned("rti", RTI)
  {
  }

  lemma RtsShape()
    ensures EntryOk(Instruction("rts", RTS))
  {
  }

  lemma RtsOwns()
    ensures AllOwned("rts", RTS)
  {
  }

  lemma SbcShape()
    ensures EntryOk(Instruction("sbc", SBC))
  {
  }

  lemma SbcOwns()
    ensures AllOwned("sbc", SBC)
  {
  }

  lemma SecShape()
    ensures EntryOk(Instruction("sec", SEC))
  {
  }

  lemma SecOwns()
    ensures AllOwned("sec", SEC)
  {
  }

  lemma SedShape()
    ensures EntryOk(Instruction("sed", SED))
  {
  }

  lemma SedOwns()
    ensures AllOwned("sed", SED)
  {
  }

  lemma SeiShape()
    ensures EntryOk(Instruction("sei", SEI))
  {
  }

  lemma SeiOwns()
    ensures AllOwned("sei", SEI)
  {
  }

  lemma StaShape()
    ensures EntryOk(Instruction("sta", STA))
  {
  }

  lemma StaOwns()
    ensures AllOwned("sta", STA)
  {
  }

  lemma StxShape()
    ensures EntryOk(Instruction("stx", STX))
  {
  }

  lemma StxOwns()
    ensures AllOwned("stx", STX)
  {
  }

  lemma StyShape()
    ensures EntryOk(Instruction("sty", STY))
  {
  }

  lemma StyOwns()
    ensures AllOwned("sty", STY)
  {
  }

  lemma TaxShape()
    ensures EntryOk(Instruction("tax", TAX))
  {
  }

  lemma TaxOwns()
    ensures AllOwned("tax", TAX)
  {
  }

  lemma TayShape()
    ensures EntryOk(Instruction("tay", TAY))
  {
  }

  lemma TayOwns()
    ensures AllOwned("tay", TAY)
  {
  }

  lemma TsxShape()
    ensures EntryOk(Instruction("tsx", TSX))
  {
  }

  lemma TsxOwns()
    ensures AllOwned("tsx", TSX)
  {
  }

  lemma TxaShape()
    ensures EntryOk(Instruction("txa", TXA))
  {
  }

  lemma TxaOwns()
    ensures AllOwned("txa", TXA)
  {
  }

  lemma TxsShape()
    ensures EntryOk(Instruction("txs", TXS))
  {
  }

  lemma TxsOwns()
    ensures AllOwned("txs", TXS)
  {
  }

  lemma TyaShape()
    ensures EntryOk(Instruction("tya", TYA))
  {
  }

  lemma TyaOwns()
    ensures AllOwned("tya", TYA)
  {
  }

  lemma AdcOk()
    ensures EntryOk(Entry(0)) && Owns(Entry(0))
  {
    assert Entry(0) == Instruction("adc", ADC);
    AdcShape();
    AdcOwns();
  }

  lemma AndOk()
    ensures EntryOk(Entry(1)) && Owns(Entry(1))
  {
    assert Entry(1) == Instruction("and", AND);
    AndShape();
    AndOwns();
  }

  lemma AslOk()
    ensures EntryOk(Entry(2)) && Owns(Entry(2))
  {
    assert Entry(2) == Instruction("asl", ASL);
    AslShape();
    AslOwns();
  }

  lemma BccOk()
    ensures EntryOk(Entry(3)) && Owns(Entry(3))
  {
    assert Entry(3) == Instruction("bcc", BCC);
    BccShape();
    BccOwns();
  }

  lemma BcsOk()
    ensures EntryOk(Entry(4)) && Owns(Entry(4))
  {
    assert Entry(4) == Instruction("bcs", BCS);
    BcsShape();
    BcsOwns();
  }

  lemma BeqOk()
    ensures EntryOk(Entry(5)) && Owns(Entry(5))
  {
    assert Entry(5) == Instruction("beq", BEQ);
    BeqShape();
    BeqOwns();
  }

  lemma BitOk()
    ensures EntryOk(Entry(6)) && Owns(Entry(6))
  {
    assert Entry(6) == Instruction("bit", BIT);
    BitShape();
    BitOwns();
  }

  lemma BmiOk()
    ensures EntryOk(Entry(7)) && Owns(Entry(7))
  {
    assert Entry(7) == Instruction("bmi", BMI);
    BmiShape();
    BmiOwns();
  }

  lemma BneOk()
    ensures EntryOk(Entry(8)) && Owns(Entry(8))
  {
    assert Entry(8) == Instruction("bne", BNE);
    BneShape();
    BneOwns();
  }

  lemma BplOk()
    ensures EntryOk(Entry(9)) && Owns(Entry(9))
  {
    assert Entry(9) == Instruction("bpl", BPL);
    BplShape();
    BplOwns();
  }

  lemma BrkOk()
    ensures EntryOk(Entry(10)) && Owns(Entry(10))
  {
    assert Entry(10) == Instruction("brk", BRK);
    BrkShape();
    BrkOwns();
  }

  lemma BvcOk()
    ensures EntryOk(Entry(11)) && Owns(Entry(11))
  {
    assert Entry(11) == Instruction("bvc", BVC);
    BvcShape();
    BvcOwns();
  }

  lemma BvsOk()
    ensures EntryOk(Entry(12)) && Owns(Entry(12))
  {
    assert Entry(12) == Instruction("bvs", BVS);
    BvsShape();
    BvsOwns();
  }

  lemma ClcOk()
    ensures EntryOk(Entry(13)) && Owns(Entry(13))
  {
    assert Entry(13) == Instruction("clc", CLC);
    ClcShape();
    ClcOwns();
  }

  lemma CldOk()
    ensures EntryOk(Entry(14)) && Owns(Entry(14))
  {
    assert Entry(14) == Instruction("cld", CLD);
    CldShape();
    CldOwns();
  }

  lemma CliOk()
    ensures EntryOk(Entry(15)) && Owns(Entry(15))
  {
    assert Entry(15) == Instruction("cli", CLI);
    CliShape();
    CliOwns();
  }

  lemma ClvOk()
    ensures EntryOk(Entry(16)) && Owns(Entry(16))
  {
    assert Entry(16) == Instruction("clv", CLV);
    ClvShape();
    ClvOwns();
  }

  lemma CmpOk()
    ensures EntryOk(Entry(17)) && Owns(Entry(17))
  {
    assert Entry(17) == Instruction("cmp", CMP);
    CmpShape();
    CmpOwns();
  }

  lemma CpxOk()
    ensures EntryOk(Entry(18)) && Owns(Entry(18))
  {
    assert Entry(18) == Instruction("cpx", CPX);
    CpxShape();
    CpxOwns();
  }

  lemma CpyOk()
    ensures EntryOk(Entry(19)) && Owns(Entry(19))
  {
    assert Entry(19) == Instruction("cpy", CPY);
    CpyShape();
    CpyOwns();
  }

  lemma DecOk()
    ensures EntryOk(Entry(20)) && Owns(Entry(20))
  {
    assert Entry(20) == Instruction("dec", DEC);
    DecShape();
    DecOwns();
  }

  lemma DexOk()
    ensures EntryOk(Entry(21)) && Owns(Entry(21))
  {
    assert Entry(21) == Instruction("dex", DEX);
    DexShape();
    DexOwns();
  }

  lemma DeyOk()
    ensures EntryOk(Entry(22)) && Owns(Entry(22))
  {
    assert Entry(22) == Instruction("dey", DEY);
    DeyShape();
    DeyOwns();
  }

  lemma EorOk()
    ensures EntryOk(Entry(23)) && Owns(Entry(23))
  {
    assert Entry(23) == Instruction("eor", EOR);
    EorShape();
    EorOwns();
  }

  lemma IncOk()
    ensures EntryOk(Entry(24)) && Owns(Entry(24))
  {
    assert Entry(24) == Instruction("inc", INC);
    IncShape();
    IncOwns();
  }

  lemma InxOk()
    ensures EntryOk(Entry(25)) && Owns(Entry(25))
  {
    assert Entry(25) == Instruction("inx", INX);
    InxShape();
    InxOwns();
  }

  lemma InyOk()
    ensures EntryOk(Entry(26)) && Owns(Entry(26))
  {
    assert Entry(26) == Instruction("iny", INY);
    InyShape();
    InyOwns();
  }

  lemma JmpOk()
    ensures EntryOk(Entry(27)) && Owns(Entry(27))
  {
    assert Entry(27) == Instruction("jmp", JMP);
    JmpShape();
    JmpOwns();
  }

  lemma JsrOk()
    ensures EntryOk(Entry(28)) && Owns(Entry(28))
  {
    assert Entry(28) == Instruction("jsr", JSR);
    JsrShape();
    JsrOwns();
  }

  lemma LdaOk()
    ensures EntryOk(Entry(29)) && Owns(Entry(29))
  {
    assert Entry(29) == Instruction("lda", LDA);
    LdaShape();
    LdaOwns();
  }

  lemma LdxOk()
    ensures EntryOk(Entry(30)) && Owns(Entry(30))
  {
    assert Entry(30) == Instruction("ldx", LDX);
    LdxShape();
    LdxOwns();
  }

  lemma LdyOk()
    ensures EntryOk(Entry(31)) && Owns(Entry(31))
  {
    assert Entry(31) == Instruction("ldy", LDY);
    LdyShape();
    LdyOwns();
  }

  lemma LsrOk()
    ensures EntryOk(Entry(32)) && Owns(Entry(32))
  {
    assert Entry(32) == Instruction("lsr", LSR);
    LsrShape();
    LsrOwns();
  }

  lemma NopOk()
    ensures EntryOk(Entry(33)) && Owns(Entry(33))
  {
    assert Entry(33) == Instruction("nop", NOP);
    NopShape();
    NopOwns();
  }

  lemma OraOk()
    ensures EntryOk(Entry(34)) && Owns(Entry(34))
  {
    assert Entry(34) == Instruction("ora", ORA);
    OraShape();
    OraOwns();
  }

  lemma PhaOk()
    ensures EntryOk(Entry(35)) && Owns(Entry(35))
  {
    assert Entry(35) == Instruction("pha", PHA);
    PhaShape();
    PhaOwns();
  }

  lemma PhpOk()
    ensures EntryOk(Entry(36)) && Owns(Entry(36))
  {
    assert Entry(36) == Instruction("php", PHP);
    PhpShape();
    PhpOwns();
  }

  lemma PlaOk()
    ensures EntryOk(Entry(37)) && Owns(Entry(37))
  {
    assert Entry(37) == Instruction("pla", PLA);
    PlaShape();
    PlaOwns();
  }

  lemma PlpOk()
    ensures EntryOk(Entry(38)) && Owns(Entry(38))
  {
    assert Entry(38) == Instruction("plp", PLP);
    PlpShape();
    PlpOwns();
  }

  lemma RolOk()
    ensures EntryOk(Entry(39)) && Owns(Entry(39))
  {
    assert Entry(39) == Instruction("rol", ROL);
    RolShape();
    RolOwns();
  }

  lemma RorOk()
    ensures EntryOk(Entry(40)) && Owns(Entry(40))
  {
    assert Entry(40) == Instruction("ror", ROR);
    RorShape();
    RorOwns();
  }

  lemma RtiOk()
    ensures EntryOk(Entry(41)) && Owns(Entry(41))
  {
    assert Entry(41) == Instruction("rti", RTI);
    RtiShape();
    RtiOwns();
  }

  lemma RtsOk()
    ensures EntryOk(Entry(42)) && Owns(Entry(42))
  {
    assert Entry(42) == Instruction("rts", RTS);
    RtsShape();
    RtsOwns();
  }

  lemma SbcOk()
    ensures EntryOk(Entry(43)) && Owns(Entry(43))
  {
    assert Entry(43) == Instruction("sbc", SBC);
    SbcShape();
    SbcOwns();
  }

  lemma SecOk()
    ensures EntryOk(Entry(44)) && Owns(Entry(44))
  {
    assert Entry(44) == Instruction("sec", SEC);
    SecShape();
    SecOwns();
  }

  lemma SedOk()
    ensures EntryOk(Entry(45)) && Owns(Entry(45))
  {
    assert Entry(45) == Instruction("sed", SED);
    SedShape();
    SedOwns();
  }

  lemma SeiOk()
    ensures EntryOk(Entry(46)) && Owns(Entry(46))
  {
    assert Entry(46) == Instruction("sei", SEI);
    SeiShape();
    SeiOwns();
  }

  lemma StaOk()
    ensures EntryOk(Entry(47)) && Owns(Entry(47))
  {
    assert Entry(47) == Instruction("sta", STA);
    StaShape();
    StaOwns();
  }

  lemma StxOk()
    ensures EntryOk(Entry(48)) && Owns(Entry(48))
  {
    assert Entry(48) == Instruction("stx", STX);
    StxShape();
    StxOwns();
  }

  lemma StyOk()
    ensures EntryOk(Entry(49)) && Owns(Entry(49))
  {
    assert Entry(49) == Instruction("sty", STY);
    StyShape();
    StyOwns();
  }

  lemma TaxOk()
    ensures EntryOk(Entry(50)) && Owns(Entry(50))
  {
    assert Entry(50) == Instruction("tax", TAX);
    TaxShape();
    TaxOwns();
  }

  lemma TayOk()
    ensures EntryOk(Entry(51)) && Owns(Entry(51))
  {
    assert Entry(51) == Instruction("tay", TAY);
    TayShape();
    TayOwns();
  }

  lemma TsxOk()
    ensures EntryOk(Entry(52)) && Owns(Entry(52))
  {
    assert Entry(52) == Instruction("tsx", TSX);
    TsxShape();
    TsxOwns();
  }

  lemma TxaOk()
    ensures EntryOk(Entry(53)) && Owns(Entry(53))
  {
    assert Entry(53) == Instruction("txa", TXA);
    TxaShape();
    TxaOwns();
  }

  lemma TxsOk()
    ensures EntryOk(Entry(54)) && Owns(Entry(54))
  {
    assert Entry(54) == Instruction("txs", TXS);
    TxsShape();
    TxsOwns();
  }

  lemma TyaOk()
    ensures EntryOk(Entry(55)) && Owns(Entry(55))
  {
    assert Entry(55) == Instruction("tya", TYA);
    TyaShape();
    TyaOwns();
  }

  lemma Entries0()
    ensures forall i | 0 <= i < 14 :: EntryOk(Entry(i)) && Owns(Entry(i))
  {
    forall i | 0 <= i < 14
      ensures EntryOk(Entry(i)) && Owns(Entry(i))
    {
      match i
      case 0 => AdcOk();
      case 1 => AndOk();
      case 2 => AslOk();
      case 3 => BccOk();
      case 4 => BcsOk();
      case 5 => BeqOk();
      case 6 => BitOk();
      case 7 => BmiOk();
      case 8 => BneOk();
      case 9 => BplOk();
      case 10 => BrkOk();
      case 11 => BvcOk();
      case 12 => BvsOk();
      case _ => ClcOk();
    }
  }

  lemma Entries1()
    ensures forall i | 14 <= i < 28 :: EntryOk(Entry(i)) && Owns(Entry(i))
  {
    forall i | 14 <= i < 28
      ensures EntryOk(Entry(i)) && Owns(Entry(i))
    {
      match i
      case 14 => CldOk();
      case 15 => CliOk();
      case 16 => ClvOk();
      case 17 => CmpOk();
      case 18 => CpxOk();
      case 19 => CpyOk();
      case 20 => DecOk();
      case 21 => DexOk();
      case 22 => DeyOk();
      case 23 => EorOk();
      case 24 => IncOk();
      case 25 => InxOk();
      case 26 => InyOk();
      case _ => JmpOk();
    }
  }

  lemma Entries2()
    ensures forall i | 28 <= i < 42 :: EntryOk(Entry(i)) && Owns(Entry(i))
  {
    forall i | 28 <= i < 42
      ensures EntryOk(Entry(i)) && Owns(Entry(i))
    {
      match i
      case 28 => JsrOk();
      case 29 => LdaOk();
      case 30 => LdxOk();
      case 31 => LdyOk();
      case 32 => LsrOk();
      case 33 => NopOk();
      case 34 => OraOk();
      case 35 => PhaOk();
      case 36 => PhpOk();
      case 37 => PlaOk();
      case 38 => PlpOk();
      case 39 => RolOk();
      case 40 => RorOk();
      case _ => RtiOk();
    }
  }

  lemma Entries3()
    ensures forall i | 42 <= i < 56 :: EntryOk(Entry(i)) && Owns(Entry(i))
  {
    forall i | 42 <= i < 56
      ensures EntryOk(Entry(i)) && Owns(Entry(i))
    {
      match i
      case 42 => RtsOk();
      case 43 => SbcOk();
      case 44 => SecOk();
      case 45 => SedOk();
      case 46 => SeiOk();
      case 47 => StaOk();
      case 48 => StxOk();
      case 49 => StyOk();
      case 50 => TaxOk();
      case 51 => TayOk();
      case 52 => TsxOk();
      case 53 => TxaOk();
      case 54 => TxsOk();
      case _ => TyaOk();
    }
  }

  lemma NamesSorted0()
    ensures forall i | 0 <= i < 8 :: IsMnemonic(Entry(i).name) && Key(Entry(i).name) < Key(Entry(i + 1).name)
  {
    forall i | 0 <= i < 8
      ensures IsMnemonic(Entry(i).name) && Key(Entry(i).name) < Key(Entry(i + 1).name)
    {
      match i
      case 0 => assert Entry(0).name == "adc" && Entry(1).name == "and";
      case 1 => assert Entry(1).name == "and" && Entry(2).name == "asl";
      case 2 => assert Entry(2).name == "asl" && Entry(3).name == "bcc";
      case 3 => assert Entry(3).name == "bcc" && Entry(4).name == "bcs";
      case 4 => assert Entry(4).name == "bcs" && Entry(5).name == "beq";
      case 5 => assert Entry(5).name == "beq" && Entry(6).name == "bit";
      case 6 => assert Entry(6).name == "bit" && Entry(7).name == "bmi";
      case _ => assert Entry(7).name == "bmi" && Entry(8).name == "bne";
    }
  }

  lemma NamesSorted1()
    ensures forall i | 8 <= i < 16 :: IsMnemonic(Entry(i).name) && Key(Entry(i).name) < Key(Entry(i + 1).name)
  {
    forall i | 8 <= i < 16
      ensures IsMnemonic(Entry(i).name) && Key(Entry(i).name) < Key(Entry(i + 1).name)
    {
      match i
      case 8 => assert Entry(8).name == "bne" && Entry(9).name == "bpl";
      case 9 => assert Entry(9).name == "bpl" && Entry(10).name == "brk";
      case 10 => assert Entry(10).name == "brk" && Entry(11).name == "bvc";
      case 11 => assert Entry(11).name == "bvc" && Entry(12).name == "bvs";
      case 12 => assert Entry(12).name == "bvs" && Entry(13).name == "clc";
      case 13 => assert Entry(13).name == "clc" && Entry(14).name == "cld";
      case 14 => assert Entry(14).name == "cld" && Entry(15).name == "cli";
      case _ => assert Entry(15).name == "cli" && Entry(16).name == "clv";
    }
  }

  lemma NamesSorted2()
    ensures forall i | 16 <= i < 24 :: IsMnemonic(Entry(i).name) && Key(Entry(i).name) < Key(Entry(i + 1).name)
  {
    forall i | 16 <= i < 24
      ensures IsMnemonic(Entry(i).name) && Key(Entry(i).name) < Key(Entry(i + 1).name)
    {
      match i
      case 16 => assert Entry(16).name == "clv" && Entry(17).name == "cmp";
      case 17 => assert Entry(17).name == "cmp" && Entry(18).name == "cpx";
      case 18 => assert Entry(18).name == "cpx" && Entry(19).name == "cpy";
      case 19 => assert Entry(19).name == "cpy" && Entry(20).name == "dec";
      case 20 => assert Entry(20).name == "dec" && Entry(21).name == "dex";
      case 21 => assert Entry(21).name == "dex" && Entry(22).name == "dey";
      case 22 => assert Entry(22).name == "dey" && Entry(23).name == "eor";
      case _ => assert Entry(23).name == "eor" && Entry(24).name == "inc";
    }
  }

  lemma NamesSorted3()
    ensures forall i | 24 <= i < 32 :: IsMnemonic(Entry(i).name) && Key(Entry(i).name) < Key(Entry(i + 1).name)
  {
    forall i | 24 <= i < 32
      ensures IsMnemonic(Entry(i).name) && Key(Entry(i).name) < Key(Entry(i + 1).name)
    {
      match i
      case 24 => assert Entry(24).name == "inc" && Entry(25).name == "inx";
      case 25 => assert Entry(25).name == "inx" && Entry(26).name == "iny";
      case 26 => assert Entry(26).name == "iny" && Entry(27).name == "jmp";
      case 27 => assert Entry(27).name == "jmp" && Entry(28).name == "jsr";
      case 28 => assert Entry(28).name == "jsr" && Entry(29).name == "lda";
      case 29 => assert Entry(29).name == "lda" && Entry(30).name == "ldx";
      case 30 => assert Entry(30).name == "ldx" && Entry(31).name == "ldy";
      case _ => assert Entry(31).name == "ldy" && Entry(32).name == "lsr";
    }
  }

  lemma NamesSorted4()
    ensures forall i | 32 <= i < 40 :: IsMnemonic(Entry(i).name) && Key(Entry(i).name) < Key(Entry(i + 1).name)
  {
    forall i | 32 <= i < 40
      ensures IsMnemonic(Entry(i).name) && Key(Entry(i).name) < Key(Entry(i + 1).name)
    {
      match i
      case 32 => assert Entry(32).name == "lsr" && Entry(33).name == "nop";
      case 33 => assert Entry(33).name == "nop" && Entry(34).name == "ora";
      case 34 => assert Entry(34).name == "ora" && Entry(35).name == "pha";
      case 35 => assert Entry(35).name == "pha" && Entry(36).name == "php";
      case 36 => assert Entry(36).name == "php" && Entry(37).name == "pla";
      case 37 => assert Entry(37).name == "pla" && Entry(38).name == "plp";
      case 38 => assert Entry(38).name == "plp" && Entry(39).name == "rol";
      case _ => assert Entry(39).name == "rol" && Entry(40).name == "ror";
    }
  }

  lemma NamesSorted5()
    ensures forall i | 40 <= i < 48 :: IsMnemonic(Entry(i).name) && Key(Entry(i).name) < Key(Entry(i + 1).name)
  {
    forall i | 40 <= i < 48
      ensures IsMnemonic(Entry(i).name) && Key(Entry(i).name) < Key(Entry(i + 1).name)
    {
      match i
      case 40 => assert Entry(40).name == "ror" && Entry(41).name == "rti";
      case 41 => assert Entry(41).name == "rti" && Entry(42).name == "rts";
      case 42 => assert Entry(42).name == "rts" && Entry(43).name == "sbc";
      case 43 => assert Entry(43).name == "sbc" && Entry(44).name == "sec";
      case 44 => assert Entry(44).name == "sec" && Entry(45).name == "sed";
      case 45 => assert Entry(45).name == "sed" && Entry(46).name == "sei";
      case 46 => assert Entry(46).name == "sei" && Entry(47).name == "sta";
      case _ => assert Entry(47).name == "sta" && Entry(48).name == "stx";
    }
  }

  lemma NamesSorted6()
    ensures forall i | 48 <= i < 55 :: IsMnemonic(Entry(i).name) && Key(Entry(i).name) < Key(Entry(i + 1).name)
  {
    forall i | 48 <= i < 55
      ensures IsMnemonic(Entry(i).name) && Key(Entry(i).name) < Key(Entry(i + 1).name)
    {
      match i
      case 48 => assert Entry(48).name == "stx" && Entry(49).name == "sty";
      case 49 => assert Entry(49).name == "sty" && Entry(50).name == "tax";
      case 50 => assert Entry(50).name == "tax" && Entry(51).name == "tay";
      case 51 => assert Entry(51).name == "tay" && Entry(52).name == "tsx";
      case 52 => assert Entry(52).name == "tsx" && Entry(53).name == "txa";
      case 53 => assert Entry(53).name == "txa" && Entry(54).name == "txs";
      case _ => assert Entry(54).name == "txs" && Entry(55).name == "tya";
    }
  }

  // ---------------------------------------------------------------------
  // The table as a whole.

  /** Every entry is well formed and owns its opcode bytes. */
  lemma TableWellFormed()
    ensures forall i | 0 <= i < |Instructions()| :: EntryOk(Instructions()[i]) && Owns(Instructions()[i])
  {
    Entries0();
    Entries1();
    Entries2();
    Entries3();
  }

  lemma {:induction false} KeysIncrease(i: nat, j: nat)
    requires i < j < 56
    ensures Key(Entry(i).name) < Key(Entry(j).name)
    decreases j - i
  {
    NamesSorted0();
    NamesSorted1();
    NamesSorted2();
    NamesSorted3();
    NamesSorted4();
    NamesSorted5();
    NamesSorted6();
    if i + 1 < j {
      KeysIncrease(i + 1, j);
    }
  }

  /** No two entries share a name, and every name is a lower-case mnemonic. */
  lemma NamesUnique()
    ensures forall i | 0 <= i < |Instructions()| :: IsMnemonic(Instructions()[i].name)
    ensures forall i, j | 0 <= i < j < |Instructions()| :: Instructions()[i].name != Instructions()[j].name
  {
    TableWellFormed();
    forall i, j | 0 <= i < j < |Instructions()|
      ensures Instructions()[i].name != Instructions()[j].name
    {
      KeysIncrease(i, j);
    }
  }

  lemma {:induction false} NameSetSize(t: seq<Instruction>)
    requires forall i, j | 0 <= i < j < |t| :: t[i].name != t[j].name
    ensures |NameSet(t)| == |t|
  {
    if |t| > 0 {
      var u := t[..|t| - 1];
      assert forall i | 0 <= i < |u| :: u[i] == t[i];
      NameSetSize(u);
      assert NameSet(t) == NameSet(u) + {t[|t| - 1].name};
    }
  }

  /**
   * `find_by_name` answers for exactly 56 keys, all of them three
   * lower-case letters, so the lookup is case-sensitive; for each entry's
   * name it returns that entry.
   */
  lemma FindByNameKeys()
    ensures |Keys()| == 56
    ensures forall n | n in Keys() :: IsMnemonic(n)
    ensures forall name: string :: !IsMnemonic(name) ==> FindByName(name) == None
    ensures forall i | 0 <= i < |Instructions()| :: FindByName(Instructions()[i].name) == Some(Instructions()[i])
  {
    NamesUnique();
    NameSetSize(Instructions());
    forall i | 0 <= i < |Instructions()|
      ensures FindByName(Instructions()[i].name) == Some(Instructions()[i])
    {
      var r := FindByName(Instructions()[i].name);
      var k :| 0 <= k < |Instructions()| && Instructions()[k] == r.value;
      assert k == i;
    }
  }

  /** Each opcode is as long as its addressing mode says. */
  lemma BytesMatchMode(i: nat, j: nat)
    requires i < |Instructions()| && j < |Instructions()[i].opcodes|
    ensures Instructions()[i].opcodes[j].bytes == OT.ModeBytes(Instructions()[i].opcodes[j].mode)
  {
    TableWellFormed();
  }

  /** Within one instruction no addressing mode appears twice. */
  lemma ModesUnique(i: nat, j: nat, k: nat)
    requires i < |Instructions()| && j < k < |Instructions()[i].opcodes|
    ensures Instructions()[i].opcodes[j].mode != Instructions()[i].opcodes[k].mode
  {
    TableWellFormed();
  }

  /** No opcode byte appears twice anywhere in the table. */
  lemma OpcodeValuesUnique(i: nat, j: nat, i2: nat, j2: nat)
    requires i < |Instructions()| && j < |Instructions()[i].opcodes|
    requires i2 < |Instructions()| && j2 < |Instructions()[i2].opcodes|
    requires Instructions()[i].opcodes[j].value == Instructions()[i2].opcodes[j2].value
    ensures i == i2 && j == j2
  {
    var a, b := Instructions()[i], Instructions()[i2];
    TableWellFormed();
    NamesUnique();
    AllOwnedMeans(a.name, a.opcodes);
    AllOwnedMeans(b.name, b.opcodes);
    assert a.name == b.name;
  }

  /**
   * Relative addressing appears exactly in the eight branch instructions,
   * each of which has that single 2-byte, 2-cycle form.
   */
  lemma RelativeOnlyInBranches(i: nat, j: nat)
    requires i < |Instructions()| && j < |Instructions()[i].opcodes|
    ensures Instructions()[i].opcodes[j].mode == OT.Relative <==> IsBranch(Instructions()[i].name)
    ensures IsBranch(Instructions()[i].name) ==>
      |Instructions()[i].opcodes| == 1 && Instructions()[i].opcodes[0].bytes == 2 && Instructions()[i].opcodes[0].cycles == 2
  {
    TableWellFormed();
  }

  /**
   * All eight branches are keys of the table.  A check of the table's data:
   * the proof points at the eight entries by index.
   */
  lemma BranchesPresent()
    ensures forall n | IsBranch(n) :: n in Keys()
  {
    assert Entry(3).name == "bcc" && Entry(4).name == "bcs" && Entry(5).name == "beq" && Entry(7).name == "bmi";
    assert Entry(8).name == "bne" && Entry(9).name == "bpl" && Entry(11).name == "bvc" && Entry(12).name == "bvs";
    assert Instructions()[3].name in Keys() && Instructions()[4].name in Keys() && Instructions()[5].name in Keys();
    assert Instructions()[7].name in Keys() && Instructions()[8].name in Keys() && Instructions()[9].name in Keys();
    assert Instructions()[11].name in Keys() && Instructions()[12].name in Keys();
  }

  // ---------------------------------------------------------------------
  // Where the decode table of core/src/opcode.rs disagrees.

  /** The assembler emits 0xC0 for `cpy #imm`; the decode table decodes 0xC0 as zero-page CPY. */
  lemma CpyImmediateDisagrees()
    ensures Entry(19).name == "cpy" && Entry(19).opcodes[0] == Opcode(0xC0, OT.Immediate, 2, 2)
    ensures OT.Opcodes()[0xC0].mnemonic == "CPY" && OT.Opcodes()[0xC0].mode == OT.ZeroPage
  {
    assert Entry(19) == Group(2)[3];
    assert OT.Opcodes()[0xC0] == OT.RowC[0];
  }

  /** The assembler emits 0xC4 for zero-page `cpy`; the decode table decodes 0xC4 as immediate CPY. */
  lemma CpyZeroPageDisagrees()
    ensures Entry(19).name == "cpy" && Entry(19).opcodes[1] == Opcode(0xC4, OT.ZeroPage, 2, 3)
    ensures OT.Opcodes()[0xC4].mnemonic == "CPY" && OT.Opcodes()[0xC4].mode == OT.Immediate
  {
    assert Entry(19) == Group(2)[3];
    assert OT.Opcodes()[0xC4] == OT.RowC[4];
  }

  /** `ora (zp,x)` takes 6 cycles here and 5 in the decode table. */
  lemma OraIndirectXCyclesDisagree()
    ensures Entry(34).name == "ora" && Entry(34).opcodes[6] == Opcode(0x01, OT.IndirectX, 2, 6)
    ensures OT.Opcodes()[0x01].mnemonic == "ORA" && OT.Opcodes()[0x01].mode == OT.IndirectX
    ensures OT.Opcodes()[0x01].cycles == 5
  {
    assert OT.Opcodes()[0x01] == OT.Row(0)[1];
  }
}
