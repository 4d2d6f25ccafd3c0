# rs6502 in Dafny

A verified model of rs6502, a cycle-stepped MOS 6502 emulator written in Rust, and of
the front end of its unfinished assembler. The model follows the Rust code rather than
the chip: where the code departs from the 6502, the model does too, and the contracts
say so.

## What is modelled

The model covers the CPU, the memory and bus, and the assembler front end.

**CPU core**

- `utility.dfy` — the `bitset!` types (`Bitset`): raw byte, masks, and the per-flag getters
  and `with_<flag>` setters.
- `registers.dfy` — `Register<T>` as a class over a value below its width. It includes
  `safe_add`, the byte split and `Registers::new`. It also holds the `StatusFlags` layout.
- `instructions.dfy` — the `Value` helpers (`safe_add`, `safe_sub`, `carrying_add`,
  `borrowing_sub`, `update_*`) and every `*_impl` instruction function.
  - The instructions are grouped by what they do to the registers, the status and the
    4-byte micro-op context.
  - Each group has a specification function on values (`AccOp`, `ModifyOp`, ...).
  - Each `*_impl` is a method over the register objects and the `Context` object, proved
    against its group's function.
  - Per-instruction lemmas state the arithmetic and flag results.
- `microcode.dfy` — the 4-slot LIFO `Context` (a value `CtxVal` and a class `Context`), the
  `MicroOp` type and the addressing-mode micro-op sequences of `cpu/src/microcode.rs` as data.
- `execute.dfy` — `MicroOp::execute` as a total step on a machine state: registers, status,
  context and a 64 KiB memory.
  - A panic of the source (a failed `assert!`, a debug overflow, `Unimplemented`) is the
    `Panic` outcome. The one exception is the panic of every in-page abs,X / abs,Y / (ind),Y
    load: the machine runs the corrected page-cross step `CrossStep`, and the code as written
    is kept beside it as `CrossStepAsWritten` (see Findings).
  - Each `Evaluate` closure is a function of its own.
  - Lemmas state the effect and cycle cost of every micro-op, the reset sequence, the
    branch sequence, the indexed loads and the indexed stores.
- `opcode.dfy` — the 256-entry `OPCODES` table of `core/src/opcode.rs`, `decode_instruction`
  and `decode_instruction_to_string`.
- `cpu.dfy` — the pipeline state machine of `cpu/src/cpu.rs` (`new`, `reset`, `step_cycle`,
  `cycle`, `step_instruction`).
  - It is written as specification functions on a `CpuVal` value.
  - It is also written as a `Cpu` class whose methods are proved to reach exactly the state
    those functions give.
- `legacy_cpu.dfy` — the older `CPU` of `src/cpu.rs`, over the 65535-byte `Memory`. Its fetch
  is proved to agree with the newer CPU's.

**Memory and bus**

- `memory.dfy` — `src/memory.rs`: `new`, `write8`, `read16`, `write16` and the checks and
  copy of `load_rom`.
- `devices.dfy` — device ranges and the `get_device_or_none` query shared by both buses.
- `system_memory.dfy` — `system/src/memory.rs`: RAM plus devices.
- `bus.dfy` — `src/bus.rs`: `Memory` plus devices. Its `read_mem`/`write_mem` are the memory's
  own `read8`/`write8`, which the bus uses directly.

**Assembler front end**

- `token.dfy` — `asm/src/token.rs`: raw token kinds, `from_raw_token`, the kind predicates
  and the literal conversions.
- `cursor.dfy` — `asm/src/utils.rs`: `take_one`, `take_if` and `take_while` on a cursor over
  a slice. The identical private copies in `asm/src/preprocessor.rs` (lines 613-650) are the
  same class.
- `source.dfy` — `asm/src/source.rs`: `Span`, `File` with `parse_to_lines` and the lookups,
  and `SliceView`.
- `preprocessor.dfy` — `asm/src/preprocessor.rs`: `Macro`, `MacroSet` (overloads kept sorted
  by arity), `MacroTable`, `%define` parsing, argument collection, parameter substitution,
  expansion with its working stack and recursion limit, and `preprocess`.
  - Each routine is a specification function on token sequences.
  - A method on a `Cursor` is proved to return that function's result and to leave the
    cursor where it says.
- `asm_instruction.dfy` — the `INSTRUCTIONS` table of `asm/src/instruction.rs` and
  `find_by_name`.
- `bytes.dfy` and `wrappers.dfy` — byte arithmetic and the `Option`/`Result`/`Outcome` types.

### Where the code departs from the 6502

The model keeps these behaviours as written:

- ADC and AND set V from bit 7 of the result (`AdcSpec`, `LogicSpec`).
- TXA copies SP into A, and TYA copies Y into SP (`TransferSpec`).
- `StoreDecrSP`/`IncrLoadSP` address memory at `256 * SP` (`StoreDecrSPSpec`).
- Opcode 0x0D uses the zero-page sequence.
- Opcode 0x26 (ROL zp) uses the load-only zero-page sequence, so the rotated byte is never
  written back, unlike ASL, LSR and ROR zp (0x06, 0x46, 0x66), which write it back.
- The reset's `status.set(0)` clears nothing (`ResetRun`).
- A taken backward branch that leaves its page jumps to the next page
  (`BranchTakenCrossing`).
- load_indirect_y and store_indirect_y take the byte fetched from `ial + 1` as the low byte
  of the base (`IndirectYLoad`, `StoreIndirectYWrites`). `IndirectYLoad` itself runs the
  corrected page-cross step (see Findings).
- load_store_absolute_x panics on every run, on a `PopTemp` over an empty context
  (`LoadStoreAbsXPanics`). No intended behaviour can be read off the sequence, so it is not
  corrected.
- The assembler's table and the decode table disagree:
  - immediate and zero-page CPY have swapped opcodes (`CpyImmediateDisagrees`,
    `CpyZeroPageDisagrees`);
  - ORA (zp,X) has a different cycle count (`OraIndirectXCyclesDisagree`).

Members whose contracts rest on preconditions (`requires`) demand what the source asserts or
what would panic in a debug build. The imperative methods require that the specification step
they implement does not panic. In the source that panic would abort the program.

## Model

| member | source | states |
|---|---|---|
| Utility.Bitset.GetRaw | src/utility.rs:46-48 | returns the raw byte itself |
| Utility.Bitset.SetRaw | src/utility.rs:50-52 | `get_raw` afterwards returns exactly the byte stored |
| Utility.Bitset.Get | src/utility.rs:54-56 | bit n of the result is set iff it is set both in the value and in the mask (`raw & mask`) |
| Utility.Bitset.Set | src/utility.rs:58-60 | bit n of the new value is set iff it was set or is set in the mask (`raw \| mask`) |
| Utility.Bitset.Replace | src/utility.rs:62-64 | the new raw byte is the other bitset's raw byte |
| Utility.Bitset.GetFlag | src/utility.rs:7-9 | true iff the flag's bit is set in the raw byte |
| Utility.Bitset.WithFlag | src/utility.rs:11-17 | the flag's bit becomes `value`; every other bit keeps its value |
| Utility.New | src/utility.rs:36-38 | raw byte 0 and no flag set |
| Utility.From | src/utility.rs:40-42 | `get_raw` returns the byte it was built from |
| Utility.GetAfterWith | src/utility.rs:7-17 | reading a flag after `with_<flag>(v)` returns v |
| Utility.WithLeavesOthers | src/utility.rs:7-17 | `with_<flag>` leaves every other flag as it was |
| Utility.SetNeverClears | src/utility.rs:58-60 | `set(mask)` never clears a bit that was set |
| Utility.SetIdempotent | src/utility.rs:58-60 | `set(mask)` twice is `set(mask)` once |
| Utility.SetZero | src/utility.rs:58-60 | `set(0)` changes nothing |
| Registers.Register.constructor | cpu/src/registers.rs:12-14 | the register holds `value`, below its width (256 for `u8`, 65536 for `u16`) |
| Registers.Register.Set | cpu/src/registers.rs:20-22 | `get` afterwards returns the value set |
| Registers.Register.Update | cpu/src/registers.rs:24-27 | stores `updater(old value)` and returns that new value |
| Registers.Register.SafeAdd | cpu/src/registers.rs:37-41 | result is (value + b) mod the width; the carry is set iff value + b reaches the width |
| Registers.Register.GetBytes | cpu/src/registers.rs:45-57 | `[lo, hi]` with lo + 256 * hi == value, lo == `get_lo_byte()`, hi == `get_hi_byte()` |
| Registers.Registers.constructor | cpu/src/registers.rs:86-94 | A, X, Y, SP and PC are all zero |
| Registers.FlagBit | cpu/src/registers.rs:107-129 | each status flag sits at a bit below 8 other than the unused bit 5 (C=0, Z=1, I=2, D=3, B=4, V=6, N=7) |
| Registers.FlagBitsDistinct | cpu/src/registers.rs:118-129 | distinct flags occupy distinct bits |
| Registers.WithFSpec | cpu/src/registers.rs:118-129 | writing a status flag sets it to the value written and keeps every other flag |
| Instructions.SafeAdd | src/instructions.rs:27-32 | value (v + rhs) mod 256; C iff v + rhs >= 256; every other status bit unchanged |
| Instructions.SafeSub | src/instructions.rs:34-39 | value (v - rhs) mod 256; V iff the signed `i8` difference does not fit an `i8`; every other bit unchanged |
| Instructions.CarryingAdd | src/instructions.rs:41-49 | value (v + rhs + C) mod 256; C iff v + rhs + C >= 256; every other bit unchanged |
| Instructions.BorrowingSub | src/instructions.rs:51-59 | value (v - rhs - !C) mod 256; V iff one of the two signed steps overflows (the signed difference less the borrow is outside `i8`, or the difference is 128 and a borrow is taken); C and the other bits unchanged |
| Instructions.UpdateVFlag | src/instructions.rs:77-80 | value unchanged; V iff bit 7 is set; every other bit unchanged |
| Instructions.UpdateZFlag | src/instructions.rs:82-85 | value unchanged; Z iff the value is 0; every other bit unchanged |
| Instructions.UpdateZnFlags | src/instructions.rs:87-95 | value unchanged; Z iff 0, N iff bit 7 is set; every other bit unchanged |
| Instructions.UpdateZvFlags | src/instructions.rs:97-105 | value unchanged; Z iff 0, V iff bit 7 is set; every other bit unchanged |
| Instructions.AccOp | src/instructions.rs:135-146 | ADC, AND, EOR, ORA, SBC pop their operand: the context holds one byte less (values in `AdcSpec`, `SbcSpec`, `LogicSpec`) |
| Instructions.ModifyOp | src/instructions.rs:186-199 | ASL, LSR, ROL, ROR, BIT, DEC, INC pop a byte and push the result: the context keeps its size (values in the per-instruction lemmas) |
| Instructions.BranchOp | src/instructions.rs:208-319 | a branch impl pushes one byte (value in `BranchSpec`) |
| Instructions.FlagOp | src/instructions.rs:328-363 | a flag instruction leaves the context as it was (flag in `FlagInstrSpec`) |
| Instructions.CompareOp | src/instructions.rs:379-431 | CMP, CPX, CPY pop their operand: one byte less (flags in `CompareSpec`) |
| Instructions.StepOp | src/instructions.rs:464-497 | DEX, DEY, INX, INY leave the context as it was (values in `InxInySpec`, `DexDeySpec`) |
| Instructions.LoadOp | src/instructions.rs:628-663 | LDA, LDX, LDY, PLA pop one byte (register in `LoadSpec`) |
| Instructions.StoreOp | src/instructions.rs:926-957 | PHA, PHP, STA, STX, STY push one byte (value in `StoreSpec`, `PhpPlpRoundTrip`) |
| Instructions.PlpOp | src/instructions.rs:767-770 | PLP pops one byte (status in `PhpPlpRoundTrip`) |
| Instructions.RtiOp | src/instructions.rs:830-839 | RTI pops three bytes and pushes two: one byte less (contents in `RtiSpec`) |
| Instructions.TransferOp | src/instructions.rs:966-1029 | the transfers leave the context as it was (registers in `TransferSpec`) |
| Instructions.ImplStackEffect | src/instructions.rs:135-1029 | every `*_impl` changes the context's size by its pushes minus its pops, as `StackUse` counts them |
| Instructions.AdcValueSpec | src/instructions.rs:135-146 | ADC's value: A + M + C mod 256, C = carry-out, Z iff the result is 0, V = bit 7 of the result, all other bits (N included) unchanged |
| Instructions.SbcValueSpec | src/instructions.rs:866-878 | SBC's value: A - M - !C mod 256, Z and N of the result, V = bit 7 of the result, C and the rest unchanged |
| Instructions.IncrementSpec | src/instructions.rs:536-548 | increment: v + 1 mod 256, Z and N of the result, every other bit (C and V included) unchanged |
| Instructions.DecrementSpec | src/instructions.rs:443-455 | decrement: v - 1 mod 256, Z and N of the result, every other bit (V and C included) unchanged |
| Instructions.CompareValueSpec | src/instructions.rs:379-389 | compare: Z iff reg == M, N = bit 7 of reg - M mod 256, V = signed overflow of reg - M; C and the rest unchanged |
| Instructions.LsrValueSpec | src/instructions.rs:676-688 | LSR: M / 2, C = old bit 0, N cleared, Z iff the result is 0, the rest unchanged |
| Instructions.AslValueSpec | src/instructions.rs:186-199 | ASL: 2M mod 256, C = old bit 7, Z and N of the result, V = bit 7 of the result, the rest unchanged |
| Instructions.RolValueSpec | src/instructions.rs:783-795 | ROL: M rotated left (bit 7 into bit 0, C not used), C = old bit 7, Z and N of the result |
| Instructions.RorValueSpec | src/instructions.rs:808-820 | ROR: M rotated right (bit 0 into bit 7, C not used), C = old bit 0, Z and N of the result |
| Instructions.BitValueSpec | src/instructions.rs:242-257 | BIT: value A & M, N = bit 7 of M, V = bit 6 of M, Z iff A & M == 0, the rest unchanged |
| Instructions.AdcSpec | src/instructions.rs:135-146 | ADC pops M and sets A = A + M + C mod 256, C = carry-out, Z, V = bit 7 of A; N and the other flags kept; X, Y, SP, PC kept |
| Instructions.SbcSpec | src/instructions.rs:866-878 | SBC pops M and sets A = A - M - !C mod 256, Z and N, V = bit 7 of A; C and the rest kept |
| Instructions.LogicSpec | src/instructions.rs:162-173 | AND, EOR, ORA (also 513-524, 711-722) pop M and set A = A op M; Z iff 0; AND sets V from bit 7, EOR and ORA set N; nothing else changes |
| Instructions.IncSpec | src/instructions.rs:536-548 | INC pops M and pushes M + 1 mod 256 in its place; Z and N of the result; C kept; registers kept |
| Instructions.InxInySpec | src/instructions.rs:557-590 | INX / INY add 1 mod 256 to X / Y; Z and N of the result; C kept; context and other registers kept |
| Instructions.DecSpec | src/instructions.rs:443-455 | DEC pops M and pushes M - 1 mod 256 in its place; Z and N of the result; V kept; registers kept |
| Instructions.DexDeySpec | src/instructions.rs:464-497 | DEX / DEY subtract 1 mod 256 from X / Y; Z and N of the result; V kept; context and other registers kept |
| Instructions.CompareSpec | src/instructions.rs:379-431 | CMP / CPX / CPY pop M and change only the status: Z iff reg == M, N from bit 7 of reg - M, V from the signed overflow; A, X, Y and C unchanged |
| Instructions.LsrSpec | src/instructions.rs:676-688 | LSR pops M and pushes M >> 1; C = old bit 0, N cleared, Z iff the result is 0; registers kept |
| Instructions.AslSpec | src/instructions.rs:186-199 | ASL pops M and pushes M << 1 mod 256; C = old bit 7; Z, N and V from the result; registers kept |
| Instructions.RolSpec | src/instructions.rs:783-795 | ROL pops M and pushes M rotated left, carry not rotated in; C = old bit 7; Z and N of the result |
| Instructions.RorSpec | src/instructions.rs:808-820 | ROR pops M and pushes M rotated right, carry not rotated in; C = old bit 0; Z and N of the result |
| Instructions.BitSpec | src/instructions.rs:242-257 | BIT pops M and pushes A & M; N = bit 7 and V = bit 6 of M, Z iff A & M == 0; registers kept |
| Instructions.BranchSpec | src/instructions.rs:208-319 | each branch impl pushes exactly one byte, 1 iff its flag has the value it branches on (BCC: !C, BEQ: Z, ...), else 0; registers, status and temp unchanged |
| Instructions.FlagInstrSpec | src/instructions.rs:328-363 | CLC/CLD/CLI/CLV (and SEC/SED/SEI, 887-911) write exactly one flag: cleared by CL*, set by SE*; context and registers unchanged |
| Instructions.LoadSpec | src/instructions.rs:628-663 | LDA / LDX / LDY / PLA pop M into A / X / Y / A; no flag changes |
| Instructions.PhpPlpRoundTrip | src/instructions.rs:743-770 | PHP pushes the raw status and PLP pops it back: the pair restores the status and the context |
| Instructions.RtiSpec | src/instructions.rs:830-839 | RTI pops PCH, PCL and the status, loads the status, and pushes PCL then PCH back for the `PopJump` that follows |
| Instructions.StoreSpec | src/instructions.rs:926-957 | STA / STX / STY / PHA push A / X / Y / A; nothing else changes |
| Instructions.TransferSpec | src/instructions.rs:966-1029 | TAX, TAY, TSX, TXS copy as named; TXA copies SP into A and TYA copies Y into SP, as written; status and context unchanged |
| Instructions.RunAccOp | src/instructions.rs:135-173 | runs the impl of an ADC/AND/EOR/ORA/SBC; registers, status and context end as `AccOp` of the old state |
| Instructions.RunModifyOp | src/instructions.rs:186-199 | runs ASL/LSR/ROL/ROR/BIT/DEC/INC; the new state is `ModifyOp` of the old |
| Instructions.RunBranchOp | src/instructions.rs:208-319 | runs a branch impl; the new state is `BranchOp` of the old |
| Instructions.RunFlagOp | src/instructions.rs:328-363 | runs a flag impl; the new state is `FlagOp` of the old |
| Instructions.RunCompareOp | src/instructions.rs:379-431 | runs CMP/CPX/CPY; the new state is `CompareOp` of the old |
| Instructions.RunStepOp | src/instructions.rs:464-590 | runs DEX/DEY/INX/INY; the new state is `StepOp` of the old |
| Instructions.RunLoadOp | src/instructions.rs:628-663 | runs LDA/LDX/LDY/PLA; the new state is `LoadOp` of the old |
| Instructions.RunStoreOp | src/instructions.rs:926-957 | runs PHA/PHP/STA/STX/STY; the new state is `StoreOp` of the old |
| Instructions.RunTransferOp | src/instructions.rs:966-1029 | runs a transfer; the new state is `TransferOp` of the old |
| Instructions.RunImpl | cpu/src/microcode.rs:209-212 | the `Execute(function)` call of any `*_impl`: registers, status and context end as `ImplSpec` of the old state |
| Instructions.AdcImpl | src/instructions.rs:135-146 | pops M; A = A + M + C mod 256, C = carry-out, Z, V = bit 7 of A; N kept; the new registers, status and context are those of its group specification on the old state |
| Instructions.AndImpl | src/instructions.rs:162-173 | pops M; A = A & M, Z, V = bit 7 of A; N kept; the new registers, status and context are those of its group specification on the old state |
| Instructions.AslImpl | src/instructions.rs:186-199 | pops M, pushes M << 1; C = old bit 7; Z, N, V from the result; the new registers, status and context are those of its group specification on the old state |
| Instructions.BccImpl | src/instructions.rs:208-210 | pushes 1 iff C is clear, else 0; the new registers, status and context are those of its group specification on the old state |
| Instructions.BcsImpl | src/instructions.rs:219-221 | pushes 1 iff C is set, else 0; the new registers, status and context are those of its group specification on the old state |
| Instructions.BeqImpl | src/instructions.rs:230-232 | pushes 1 iff Z is set, else 0; the new registers, status and context are those of its group specification on the old state |
| Instructions.BitImpl | src/instructions.rs:242-257 | pops M, pushes A & M; N = bit 7, V = bit 6 of M, Z iff A & M == 0; the new registers, status and context are those of its group specification on the old state |
| Instructions.BmiImpl | src/instructions.rs:266-268 | pushes 1 iff N is set, else 0; the new registers, status and context are those of its group specification on the old state |
| Instructions.BneImpl | src/instructions.rs:277-279 | pushes 1 iff Z is clear, else 0; the new registers, status and context are those of its group specification on the old state |
| Instructions.BplImpl | src/instructions.rs:288-290 | pushes 1 iff N is clear, else 0; the new registers, status and context are those of its group specification on the old state |
| Instructions.BrkImpl | src/instructions.rs:297 | changes nothing (the body is empty); the new registers, status and context are those of its group specification on the old state |
| Instructions.BvcImpl | src/instructions.rs:306-308 | pushes 1 iff V is clear, else 0; the new registers, status and context are those of its group specification on the old state |
| Instructions.BvsImpl | src/instructions.rs:317-319 | pushes 1 iff V is set, else 0; the new registers, status and context are those of its group specification on the old state |
| Instructions.ClcImpl | src/instructions.rs:328-330 | clears C only; the new registers, status and context are those of its group specification on the old state |
| Instructions.CldImpl | src/instructions.rs:339-341 | clears D only; the new registers, status and context are those of its group specification on the old state |
| Instructions.CliImpl | src/instructions.rs:350-352 | clears I only; the new registers, status and context are those of its group specification on the old state |
| Instructions.ClvImpl | src/instructions.rs:361-363 | clears V only; the new registers, status and context are those of its group specification on the old state |
| Instructions.CmpImpl | src/instructions.rs:379-389 | pops M; Z iff A == M, N, V from A - M; registers and C kept; the new registers, status and context are those of its group specification on the old state |
| Instructions.CpxImpl | src/instructions.rs:400-410 | pops M; Z iff X == M, N, V from X - M; registers and C kept; the new registers, status and context are those of its group specification on the old state |
| Instructions.CpyImpl | src/instructions.rs:421-431 | pops M; Z iff Y == M, N, V from Y - M; registers and C kept; the new registers, status and context are those of its group specification on the old state |
| Instructions.DecImpl | src/instructions.rs:443-455 | pops M, pushes M - 1 mod 256; Z, N; V kept; the new registers, status and context are those of its group specification on the old state |
| Instructions.DexImpl | src/instructions.rs:464-476 | X = X - 1 mod 256; Z, N; V kept; the new registers, status and context are those of its group specification on the old state |
| Instructions.DeyImpl | src/instructions.rs:485-497 | Y = Y - 1 mod 256; Z, N; V kept; the new registers, status and context are those of its group specification on the old state |
| Instructions.EorImpl | src/instructions.rs:513-524 | pops M; A = A ^ M, Z, N; the new registers, status and context are those of its group specification on the old state |
| Instructions.IncImpl | src/instructions.rs:536-548 | pops M, pushes M + 1 mod 256; Z, N; C kept; the new registers, status and context are those of its group specification on the old state |
| Instructions.InxImpl | src/instructions.rs:557-569 | X = X + 1 mod 256; Z, N; C kept; the new registers, status and context are those of its group specification on the old state |
| Instructions.InyImpl | src/instructions.rs:578-590 | Y = Y + 1 mod 256; Z, N; C kept; the new registers, status and context are those of its group specification on the old state |
| Instructions.JmpImpl | src/instructions.rs:601 | changes nothing (the body is empty); the new registers, status and context are those of its group specification on the old state |
| Instructions.JsrImpl | src/instructions.rs:612 | changes nothing (the body is empty); the new registers, status and context are those of its group specification on the old state |
| Instructions.LdaImpl | src/instructions.rs:628-631 | pops M into A; flags kept; the new registers, status and context are those of its group specification on the old state |
| Instructions.LdxImpl | src/instructions.rs:644-647 | pops M into X; flags kept; the new registers, status and context are those of its group specification on the old state |
| Instructions.LdyImpl | src/instructions.rs:660-663 | pops M into Y; flags kept; the new registers, status and context are those of its group specification on the old state |
| Instructions.LsrImpl | src/instructions.rs:676-688 | pops M, pushes M >> 1; C = old bit 0, N cleared, Z; the new registers, status and context are those of its group specification on the old state |
| Instructions.NopImpl | src/instructions.rs:695 | changes nothing (the body is empty); the new registers, status and context are those of its group specification on the old state |
| Instructions.OraImpl | src/instructions.rs:711-722 | pops M; A = A \| M, Z, N; the new registers, status and context are those of its group specification on the old state |
| Instructions.PhaImpl | src/instructions.rs:731-734 | pushes A; the new registers, status and context are those of its group specification on the old state |
| Instructions.PhpImpl | src/instructions.rs:743-746 | pushes the raw status; the new registers, status and context are those of its group specification on the old state |
| Instructions.PlaImpl | src/instructions.rs:755-758 | pops a byte into A; flags kept; the new registers, status and context are those of its group specification on the old state |
| Instructions.PlpImpl | src/instructions.rs:767-770 | pops a byte into the raw status; the new registers, status and context are those of its group specification on the old state |
| Instructions.RolImpl | src/instructions.rs:783-795 | pops M, pushes M rotated left; C = old bit 7; Z, N; the new registers, status and context are those of its group specification on the old state |
| Instructions.RorImpl | src/instructions.rs:808-820 | pops M, pushes M rotated right; C = old bit 0; Z, N; the new registers, status and context are those of its group specification on the old state |
| Instructions.RtiImpl | src/instructions.rs:830-839 | pops PCH, PCL and the status byte, loads the status, pushes PCL then PCH; the new registers, status and context are those of its group specification on the old state |
| Instructions.RtsImpl | src/instructions.rs:848-850 | changes nothing (the body is empty); the new registers, status and context are those of its group specification on the old state |
| Instructions.SbcImpl | src/instructions.rs:866-878 | pops M; A = A - M - !C mod 256, Z, N, V = bit 7 of A; C kept; the new registers, status and context are those of its group specification on the old state |
| Instructions.SecImpl | src/instructions.rs:887-889 | sets C only; the new registers, status and context are those of its group specification on the old state |
| Instructions.SedImpl | src/instructions.rs:898-900 | sets D only; the new registers, status and context are those of its group specification on the old state |
| Instructions.SeiImpl | src/instructions.rs:909-911 | sets I only; the new registers, status and context are those of its group specification on the old state |
| Instructions.StaImpl | src/instructions.rs:926-929 | pushes A; the new registers, status and context are those of its group specification on the old state |
| Instructions.StxImpl | src/instructions.rs:940-943 | pushes X; the new registers, status and context are those of its group specification on the old state |
| Instructions.StyImpl | src/instructions.rs:954-957 | pushes Y; the new registers, status and context are those of its group specification on the old state |
| Instructions.TaxImpl | src/instructions.rs:966-969 | X = A; the new registers, status and context are those of its group specification on the old state |
| Instructions.TayImpl | src/instructions.rs:978-981 | Y = A; the new registers, status and context are those of its group specification on the old state |
| Instructions.TsxImpl | src/instructions.rs:990-993 | X = SP; the new registers, status and context are those of its group specification on the old state |
| Instructions.TxaImpl | src/instructions.rs:1002-1005 | A = SP, as written; the new registers, status and context are those of its group specification on the old state |
| Instructions.TxsImpl | src/instructions.rs:1014-1017 | SP = X; the new registers, status and context are those of its group specification on the old state |
| Instructions.TyaImpl | src/instructions.rs:1026-1029 | SP = Y, as written; the new registers, status and context are those of its group specification on the old state |
| Microcode.CtxVal.Push | cpu/src/microcode.rs:33-37 | `push` (allowed when ptr > 0) keeps the context well formed: four slots, ptr <= 4 |
| Microcode.CtxVal.Pop | cpu/src/microcode.rs:39-44 | `pop` (allowed when ptr < 4) keeps the context well formed |
| Microcode.NewCtx | cpu/src/microcode.rs:15-21 | a new context is empty: size 0 and ptr == SIZE == 4 |
| Microcode.PushItems | cpu/src/microcode.rs:33-37 | a push puts the byte on top of the live bytes and grows the size by one |
| Microcode.PopItems | cpu/src/microcode.rs:39-44 | a pop returns the most recently pushed byte and removes it; the size drops by one |
| Microcode.PushThenPop | cpu/src/microcode.rs:33-44 | LIFO: popping right after pushing b returns b and restores ptr and the live bytes |
| Microcode.PeekItems | cpu/src/microcode.rs:27-31 | `peek(rel)` (allowed when ptr + rel < 4) is the rel-th live byte from the top |
| Microcode.Context.constructor | cpu/src/microcode.rs:15-21 | a fresh context object whose value is the empty context |
| Microcode.Context.Clear | cpu/src/cpu.rs:39 | assigning `Context::new()`: the context becomes empty |
| Microcode.Context.Size | cpu/src/microcode.rs:23-25 | `size()` is the number of live bytes |
| Microcode.Context.Peek | cpu/src/microcode.rs:27-31 | `peek(rel)` returns the rel-th live byte from the top and changes nothing |
| Microcode.Context.Push | cpu/src/microcode.rs:33-37 | `push(b)`: the context's new value is the old one with b pushed |
| Microcode.Context.Pop | cpu/src/microcode.rs:39-44 | `pop()`: the byte returned and the new value are those of popping the old value |
| MicroExec.AddCarry | cpu/src/registers.rs:37-41 | `safe_add` on an 8-bit register as the addressing macros use it: sum + 256 * carry == reg + b |
| MicroExec.RunImplFn | cpu/src/microcode.rs:209-212 | an `Execute` of an `*_impl` keeps the state well formed and does not touch memory |
| MicroExec.RunFn | cpu/src/microcode.rs:209-212 | any `Execute` function (an impl or a reset step) keeps the state well formed and does not touch memory |
| MicroExec.PopTwo | cpu/src/microcode.rs:39-44 | two pops return the top byte and the one below it and leave the rest: [top, second] + rest == old bytes |
| MicroExec.CrossStepAsWritten | cpu/src/microcode.rs:340-388 | the page-cross step of the indexed loads as written keeps registers and memory (see Findings) |
| MicroExec.CrossStep | cpu/src/microcode.rs:340-388 | the corrected page-cross step keeps registers and memory (see Findings) |
| MicroExec.IndexedAddress | cpu/src/microcode.rs:391-429 | adding the index into the base address keeps registers and memory |
| MicroExec.ZeroPageIndexed | cpu/src/microcode.rs:432-451 | keeps the state well formed and registers, status and memory unchanged; what it pushes is `ZeroPageIndexedPushes` |
| MicroExec.ZeroPageIndexedPushes | cpu/src/microcode.rs:432-451 | the base on top of the context is replaced by (base + index) mod 256 under a zero high byte; the bytes below are kept |
| MicroExec.JumpIndirectStep | cpu/src/microcode.rs:768-790 | the indirect-jump step keeps registers and memory |
| MicroExec.BranchStep | cpu/src/microcode.rs:793-848 | computing a branch target keeps registers and memory |
| MicroExec.IndirectYClosure | cpu/src/microcode.rs:340-388 | corrected (runs `CrossStep`, see Findings): the closure of load_indirect_y keeps the state well formed, leaves memory alone and selects a non-`Evaluate` micro-op |
| MicroExec.AbsIndexedClosure | cpu/src/microcode.rs:391-429 | corrected (runs `CrossStep`, see Findings): the closure of load_absolute_indexed keeps the state well formed, leaves memory alone and selects a non-`Evaluate` micro-op |
| MicroExec.CrossedLoadClosure | cpu/src/microcode.rs:340-429 | the second closure of the indexed loads keeps the state well formed and leaves memory alone |
| MicroExec.ZeroPageIndexedClosure | cpu/src/microcode.rs:432-451 | the closure of load_zero_page_indexed keeps the state well formed and leaves memory alone |
| MicroExec.StoreIndirectYClosure | cpu/src/microcode.rs:506-537 | the closure of store_indirect_y keeps the state well formed and leaves memory alone |
| MicroExec.StoreAbsIndexedClosure | cpu/src/microcode.rs:540-562 | the closure of store_absolute_indexed keeps the state well formed and leaves memory alone |
| MicroExec.StoreZeroPageIndexedClosure | cpu/src/microcode.rs:565-585 | the closure of store_zero_page_indexed keeps the state well formed and leaves memory alone |
| MicroExec.LoadStoreAbsXClosure | cpu/src/microcode.rs:639-669 | the closure of load_store_absolute_x keeps the state well formed and leaves memory alone |
| MicroExec.JumpIndirectClosure | cpu/src/microcode.rs:768-790 | the closure of jump_indirect keeps the state well formed and leaves memory alone |
| MicroExec.BranchTargetClosure | cpu/src/microcode.rs:793-848 | the first closure of branch_relative keeps the state well formed and leaves memory alone |
| MicroExec.BranchFinishClosure | cpu/src/microcode.rs:793-848 | the second closure of branch_relative keeps the state well formed and leaves memory alone |
| MicroExec.Evaluate | cpu/src/microcode.rs:213-216 | an `Evaluate` closure keeps the state well formed, leaves memory alone and selects a micro-op that is not itself an `Evaluate` |
| MicroExec.ExecBasic | cpu/src/microcode.rs:94-212 | a micro-op other than `Evaluate` keeps the state well formed |
| MicroExec.ExecOp | cpu/src/microcode.rs:94-217 | `MicroOp::execute` keeps the state well formed |
| MicroExec.ExecStep | cpu/src/microcode.rs:94-217 | `execute` as a total step on any state keeps the state well formed |
| MicroExec.RunStepThenRest | cpu/src/cpu.rs:44-47 | running `ops[i..]` is the step of `ops[i]` then the run of the rest, costs added |
| MicroExec.RunValid | cpu/src/cpu.rs:44-47 | a run of micro-ops that does not panic ends in a well-formed state |
| MicroExec.RunSeq | cpu/src/cpu.rs:44-47 | the micro-ops of a sequence run in order keep the state well formed |
| MicroExec.ExecCost | cpu/src/microcode.rs:94-217 | `execute` returns the documented cycle count of each micro-op (1 for EmptyCycle, LoadIncrPC, StoreDecrSP, IncrLoadSP, PopLoadAddress, PeekLoadAddress, PopStoreAddress; 0 for the rest); an `Evaluate` costs what the op it selects costs; never more than 1 |
| MicroExec.LoadIncrPCSpec | cpu/src/microcode.rs:107-113 | pushes the byte at PC and steps PC, one cycle; panics iff the context is full or PC is 0xFFFF |
| MicroExec.PopJumpSpec | cpu/src/microcode.rs:150-158 | pops hi, then lo, and sets PC = lo + 256 * hi, no cycle; panics iff fewer than two bytes |
| MicroExec.StoreDecrSPSpec | cpu/src/microcode.rs:114-121 | pops a byte, writes it at 256 * SP (low byte 0, high byte SP), decrements SP, one cycle; panics iff the context is empty or SP is 0 |
| MicroExec.IncrLoadSPSpec | cpu/src/microcode.rs:122-130 | increments SP and pushes the byte at 256 * SP, one cycle; panics iff the context is full or SP is 255 |
| MicroExec.PushSpec | cpu/src/microcode.rs:131-197 | PushAcc, PushZero, PushPCL, PushPCH, PushTemp push their byte, cost nothing and change nothing else; panic iff the context is full |
| MicroExec.PopLoadAddressSpec | cpu/src/microcode.rs:159-167 | pops hi and lo and pushes the byte at lo + 256 * hi, one cycle; panics iff fewer than two bytes |
| MicroExec.PeekLoadAddressSpec | cpu/src/microcode.rs:168-176 | reads hi and lo in place and pushes the byte at lo + 256 * hi, one cycle; panics iff fewer than two bytes or a full context |
| MicroExec.PopStoreAddressSpec | cpu/src/microcode.rs:177-187 | pops a byte, then hi and lo, and writes the byte at lo + 256 * hi, one cycle; panics iff fewer than three bytes |
| MicroExec.TempSpec | cpu/src/microcode.rs:188-207 | PopTemp moves the top byte into temp (panics iff empty); IncrTemp adds 1 (panics at 255); AddTempX adds X mod 256; no cycle, nothing else changes |
| MicroExec.ResetFrom5 | cpu/src/microcode.rs:225-251 | the reset micro-ops from the 5th on, on the context the earlier ones leave, load PC from the vector bytes on it |
| MicroExec.ResetFrom4 | cpu/src/microcode.rs:225-251 | the reset micro-ops from the 4th on, on the context the earlier ones leave, load PC from the vector bytes on it |
| MicroExec.ResetFrom3 | cpu/src/microcode.rs:225-251 | the reset micro-ops from the 3th on, on the context the earlier ones leave, load PC from the vector bytes on it |
| MicroExec.ResetFrom2 | cpu/src/microcode.rs:225-251 | the reset micro-ops from the 2th on, on the context the earlier ones leave, load PC from the vector bytes on it |
| MicroExec.ResetFrom1 | cpu/src/microcode.rs:225-251 | the reset micro-ops from the 1th on, on the context the earlier ones leave, load PC from the vector bytes on it |
| MicroExec.ResetRun | cpu/src/microcode.rs:225-251 | `ucode_reset()` on a fresh context never panics, costs 2 cycles, sets PC = mem[0xFFFC] + 256 * mem[0xFFFD], sets I and B and keeps every other flag (`status.set(0)` clears nothing) |
| MicroExec.BranchNotTaken | cpu/src/microcode.rs:793-848 | a zero condition byte leaves PC and all registers unchanged and costs nothing |
| MicroExec.BranchTakenInPage | cpu/src/microcode.rs:793-848 | a taken branch whose low-byte sum stays in the page jumps to (PCH, PCL + offset) in the first `Evaluate`, at no cost |
| MicroExec.BranchTakenCrossing | cpu/src/microcode.rs:793-848 | a taken branch leaving the page pushes the target with high byte PCH + 1 (also for a backward branch, as written) and costs one cycle |
| MicroExec.BranchFinishSpec | cpu/src/microcode.rs:793-848 | the second `Evaluate` does nothing when the branch was not taken or already jumped, and otherwise pops the target and jumps there |
| MicroExec.BranchInPageThenFinish | cpu/src/microcode.rs:793-848 | after a taken in-page branch the second `Evaluate` costs 0 cycles and changes nothing |
| MicroExec.CrossStepAsWrittenPanics | cpu/src/microcode.rs:340-429 | as written, an in-page abs,X / abs,Y / (ind),Y load selects `PopLoadAddress` on an emptied context, which panics (see Findings) |
| MicroExec.CrossStepLoads | cpu/src/microcode.rs:391-429 | with the correction, the page-cross step and the load leave exactly the byte at base + index on the context, in 1 cycle in the page and 2 across it |
| MicroExec.AbsIndexedLoad | cpu/src/microcode.rs:391-429 | corrected (see Findings): load_absolute_indexed's closures load the byte at base + X/Y, with an extra cycle exactly on a page cross; as written the in-page case panics (`CrossStepAsWrittenPanics`) |
| MicroExec.IndirectYLoad | cpu/src/microcode.rs:340-388 | corrected page-cross step (see Findings): load_indirect_y's closures load the byte at (top + 256 * second) + Y, taking the byte fetched from ial + 1 as the low byte as the code does; as written the in-page case panics (`CrossStepAsWrittenPanics`) |
| MicroExec.LoadStoreAbsX6 | cpu/src/microcode.rs:639-669 | load_store_absolute_x from micro-op 6 (counting from 0) on panics on the context the earlier ones leave |
| MicroExec.LoadStoreAbsX5 | cpu/src/microcode.rs:639-669 | load_store_absolute_x from micro-op 5 (counting from 0) on panics on the context the earlier ones leave |
| MicroExec.LoadStoreAbsX4 | cpu/src/microcode.rs:639-669 | load_store_absolute_x from micro-op 4 (counting from 0) on panics on the context the earlier ones leave |
| MicroExec.LoadStoreAbsX3 | cpu/src/microcode.rs:639-669 | load_store_absolute_x from micro-op 3 (counting from 0) on panics on the context the earlier ones leave |
| MicroExec.LoadStoreAbsX2 | cpu/src/microcode.rs:639-669 | load_store_absolute_x from micro-op 2 (counting from 0) on panics on the context the earlier ones leave |
| MicroExec.LoadStoreAbsX1 | cpu/src/microcode.rs:639-669 | load_store_absolute_x from micro-op 1 (counting from 0) on panics on the context the earlier ones leave |
| MicroExec.ZeroPageIndexedLoad | cpu/src/microcode.rs:432-451 | load_zero_page_indexed's closure loads the zero-page byte at (base + index) mod 256 in one cycle; registers, status, memory kept |
| MicroExec.StoreThenPop | cpu/src/microcode.rs:177-185 | a store instruction then `PopStoreAddress` write the stored register (X for STX, Y for STY, A otherwise) at the address on the context, in one cycle, and empty the context |
| MicroExec.IndexedAddressStores | cpu/src/microcode.rs:506-562 | the indexed stores' address step panics exactly when base + index passes 0xFFFF; otherwise the store and `PopStoreAddress` write the register at base + index |
| MicroExec.StoreAbsIndexedWrites | cpu/src/microcode.rs:540-562 | store_absolute_indexed: the closure panics exactly when base + X/Y passes 0xFFFF, else costs one cycle, and the store writes the register at base + X/Y |
| MicroExec.StoreIndirectYWrites | cpu/src/microcode.rs:506-537 | store_indirect_y: the closure panics exactly when base + Y passes 0xFFFF, else the store writes the register at (top + 256 * second) + Y |
| MicroExec.StoreZeroPageIndexedWrites | cpu/src/microcode.rs:565-585 | store_zero_page_indexed: the closure writes the stored register at (base + index) mod 256 in one cycle and empties the context |
| MicroExec.LoadStoreAbsXPanics | cpu/src/microcode.rs:639-669 | load_store_absolute_x, as written, panics on every state a fetch leaves behind (`PopTemp` on an empty context) |
| OpcodeTable.Row | core/src/opcode.rs:57-330 | each row of the table has 16 entries |
| OpcodeTable.Opcodes | core/src/opcode.rs:57-330 | `OPCODES` has 256 entries, each row well formed at its offset |
| OpcodeTable.Row0Shape | core/src/opcode.rs:59-74 | entries 0x00-0x0F: each sits at its own index, a placeholder iff it has no microcode, otherwise a 3-letter mnemonic, bytes matching the mode, 2-7 cycles, non-empty microcode |
| OpcodeTable.Row1Shape | core/src/opcode.rs:76-91 | entries 0x10-0x1F: each sits at its own index, a placeholder iff it has no microcode, otherwise a 3-letter mnemonic, bytes matching the mode, 2-7 cycles, non-empty microcode |
| OpcodeTable.Row2Shape | core/src/opcode.rs:93-108 | entries 0x20-0x2F: each sits at its own index, a placeholder iff it has no microcode, otherwise a 3-letter mnemonic, bytes matching the mode, 2-7 cycles, non-empty microcode |
| OpcodeTable.Row3Shape | core/src/opcode.rs:110-125 | entries 0x30-0x3F: each sits at its own index, a placeholder iff it has no microcode, otherwise a 3-letter mnemonic, bytes matching the mode, 2-7 cycles, non-empty microcode |
| OpcodeTable.Row4Shape | core/src/opcode.rs:127-142 | entries 0x40-0x4F: each sits at its own index, a placeholder iff it has no microcode, otherwise a 3-letter mnemonic, bytes matching the mode, 2-7 cycles, non-empty microcode |
| OpcodeTable.Row5Shape | core/src/opcode.rs:144-159 | entries 0x50-0x5F: each sits at its own index, a placeholder iff it has no microcode, otherwise a 3-letter mnemonic, bytes matching the mode, 2-7 cycles, non-empty microcode |
| OpcodeTable.Row6Shape | core/src/opcode.rs:161-176 | entries 0x60-0x6F: each sits at its own index, a placeholder iff it has no microcode, otherwise a 3-letter mnemonic, bytes matching the mode, 2-7 cycles, non-empty microcode |
| OpcodeTable.Row7Shape | core/src/opcode.rs:178-193 | entries 0x70-0x7F: each sits at its own index, a placeholder iff it has no microcode, otherwise a 3-letter mnemonic, bytes matching the mode, 2-7 cycles, non-empty microcode |
| OpcodeTable.Row8Shape | core/src/opcode.rs:195-210 | entries 0x80-0x8F: each sits at its own index, a placeholder iff it has no microcode, otherwise a 3-letter mnemonic, bytes matching the mode, 2-7 cycles, non-empty microcode |
| OpcodeTable.Row9Shape | core/src/opcode.rs:212-227 | entries 0x90-0x9F: each sits at its own index, a placeholder iff it has no microcode, otherwise a 3-letter mnemonic, bytes matching the mode, 2-7 cycles, non-empty microcode |
| OpcodeTable.RowAShape | core/src/opcode.rs:229-244 | entries 0xA0-0xAF: each sits at its own index, a placeholder iff it has no microcode, otherwise a 3-letter mnemonic, bytes matching the mode, 2-7 cycles, non-empty microcode |
| OpcodeTable.RowBShape | core/src/opcode.rs:246-261 | entries 0xB0-0xBF: each sits at its own index, a placeholder iff it has no microcode, otherwise a 3-letter mnemonic, bytes matching the mode, 2-7 cycles, non-empty microcode |
| OpcodeTable.RowCShape | core/src/opcode.rs:263-278 | entries 0xC0-0xCF: each sits at its own index, a placeholder iff it has no microcode, otherwise a 3-letter mnemonic, bytes matching the mode, 2-7 cycles, non-empty microcode |
| OpcodeTable.RowDShape | core/src/opcode.rs:280-295 | entries 0xD0-0xDF: each sits at its own index, a placeholder iff it has no microcode, otherwise a 3-letter mnemonic, bytes matching the mode, 2-7 cycles, non-empty microcode |
| OpcodeTable.RowEShape | core/src/opcode.rs:297-312 | entries 0xE0-0xEF: each sits at its own index, a placeholder iff it has no microcode, otherwise a 3-letter mnemonic, bytes matching the mode, 2-7 cycles, non-empty microcode |
| OpcodeTable.RowFShape | core/src/opcode.rs:314-329 | entries 0xF0-0xFF: each sits at its own index, a placeholder iff it has no microcode, otherwise a 3-letter mnemonic, bytes matching the mode, 2-7 cycles, non-empty microcode |
| OpcodeTable.RowShape | core/src/opcode.rs:57-330 | row k is well formed at offset 16k (a check of the table data) |
| OpcodeTable.TableShape | core/src/opcode.rs:5-14 | every entry i has value i; placeholders (`opcode!(v)`: empty mnemonic, Implied, 0 bytes, 0 cycles, no microcode) are exactly the entries without microcode; defined entries have 3-letter mnemonics, bytes matching their mode (1/2/3) and 2-7 cycles |
| OpcodeTable.DecodeInstruction | core/src/opcode.rs:332-340 | fails (the `panic!`) iff the entry is a placeholder, i.e. iff its mnemonic is empty; otherwise returns its non-empty microcode |
| OpcodeTable.DecodeInstructionToString | core/src/opcode.rs:342-350 | fails under exactly the same condition as `decode_instruction`; otherwise returns the entry's 3-letter mnemonic |
| Cpu.InitialPins | cpu/src/cpu.rs:27 | `Pins::from(IRQ \| NMI \| SYNC)`: raw value 25, exactly the IRQ, NMI and SYNC bits set |
| Cpu.PinsValue | cpu/src/cpu.rs:128-135 | the pin mask with bits 0, 3 and 4 is 25 |
| Cpu.Fetch | cpu/src/cpu.rs:67-85 | a fetch leaves a well-formed state with a pipeline installed |
| Cpu.RunOps | cpu/src/cpu.rs:88-111 | the execute loop advances the index, stops at the first micro-op with a nonzero cost or at the end, and never passes the end |
| Cpu.ExecuteCycle | cpu/src/cpu.rs:88-111 | the execute half advances the index, at most to the pipeline's length; the pipeline becomes None exactly when the index reaches it; the pins are kept |
| Cpu.CycleSpec | cpu/src/cpu.rs:66-112 | `cycle` keeps the state well formed |
| Cpu.Finish | cpu/src/cpu.rs:54-57 | cycling until no pipeline is left ends with no pipeline |
| Cpu.StepInstructionSpec | cpu/src/cpu.rs:50-58 | `step_instruction` ends with no pipeline pending |
| Cpu.RunOpsThenRest | cpu/src/cpu.rs:88-111 | one execute cycle followed by a run of the rest is a run of the whole remaining pipeline, cycle counts added |
| Cpu.RunOpsStep | cpu/src/cpu.rs:88-111 | one iteration of the execute loop: a panic stops it; a nonzero cost or the last micro-op ends the cycle; otherwise the loop goes on |
| Cpu.FinishRuns | cpu/src/cpu.rs:50-58 | cycling a pending pipeline to its end runs its remaining micro-ops in order, adds their costs to the cycle count, and leaves the index at its length |
| Cpu.FinishFromStart | cpu/src/cpu.rs:50-58 | cycling a pipeline from index 0 runs all of its micro-ops |
| Cpu.InstructionRuns | cpu/src/cpu.rs:50-58 | a whole instruction: PC steps, the opcode at PC is decoded, all its micro-ops run in order on a fresh context; the cycle count grows by 1 plus their costs |
| Cpu.ResetSpec | cpu/src/cpu.rs:36-48 | `reset` ends well formed with no pipeline and index 0 |
| Cpu.ResetLoadsVector | cpu/src/cpu.rs:36-48 | `reset` never panics: PC from the reset vector 0xFFFC/0xFFFD, cycle count 2, I and B set, every other flag, register and memory byte kept, no pipeline, an empty context |
| Cpu.Bus.constructor | cpu/src/lib.rs:10-13 | the `Bus` trait, here a plain 64 KiB memory holding the given bytes (not the devices or the 65535-byte RAM; see Left out) |
| Cpu.Bus.Write | cpu/src/lib.rs:12 | `write(address, data)` changes only the byte at `address` |
| Cpu.Cpu.constructor | cpu/src/cpu.rs:23-34 | all registers zero, status `new()`, pins IRQ \| NMI \| SYNC, cycle 0, index 0, no pipeline, an empty context |
| Cpu.Cpu.ExecStepping | cpu/src/microcode.rs:99-130 | EmptyCycle, EmptyNoCycle, LoadIncrPC, StoreDecrSP, IncrLoadSP on the objects: new state and cost are those of `ExecBasic` on the old |
| Cpu.Cpu.ExecPush | cpu/src/microcode.rs:131-149 | the pushes on the objects: new state and cost are those of `ExecBasic` |
| Cpu.Cpu.ExecPopAddress | cpu/src/microcode.rs:150-167 | PopJump and PopLoadAddress on the objects: new state and cost are those of `ExecBasic` |
| Cpu.Cpu.ExecPeekStore | cpu/src/microcode.rs:168-187 | PeekLoadAddress and PopStoreAddress on the objects: new state and cost are those of `ExecBasic` |
| Cpu.Cpu.ExecTemp | cpu/src/microcode.rs:188-207 | PopTemp, PushTemp, IncrTemp, AddTempX on the objects: new state and cost are those of `ExecBasic` |
| Cpu.Cpu.ExecFunction | cpu/src/microcode.rs:209-212 | an `Execute` function on the objects: the new state is `RunFn` of the old; pins, cycle, index, pipeline kept |
| Cpu.Cpu.RunInstruction | cpu/src/microcode.rs:209-212 | calls an `*_impl` on the objects: the new state is `RunImplFn` of the old |
| Cpu.Cpu.IndexRegister | cpu/src/microcode.rs:391-451 | the register object an indexed macro reads, holding the index value |
| Cpu.Cpu.EvalIndirectY | cpu/src/microcode.rs:340-388 | corrected (see Findings): the load_indirect_y closure on the objects; state and selected micro-op as `IndirectYClosure` |
| Cpu.Cpu.EvalAbsIndexed | cpu/src/microcode.rs:391-429 | corrected (see Findings): the load_absolute_indexed closure on the objects; as `AbsIndexedClosure` |
| Cpu.Cpu.EvalCrossedLoad | cpu/src/microcode.rs:340-429 | the load after a page cross on the objects; as `CrossedLoadClosure` |
| Cpu.Cpu.EvalZeroPageIndexed | cpu/src/microcode.rs:432-451 | the load_zero_page_indexed closure on the objects; as `ZeroPageIndexedClosure` |
| Cpu.Cpu.PushZeroPageAddress | cpu/src/microcode.rs:432-451 | pops the zero-page base and pushes base + index over a zero high byte; as `ZeroPageIndexed` |
| Cpu.Cpu.EvalStoreIndirectY | cpu/src/microcode.rs:506-537 | the store_indirect_y closure on the objects; as `StoreIndirectYClosure` |
| Cpu.Cpu.EvalStoreAbsIndexed | cpu/src/microcode.rs:540-562 | the store_absolute_indexed closure on the objects; as `StoreAbsIndexedClosure` |
| Cpu.Cpu.EvalStoreZeroPageIndexed | cpu/src/microcode.rs:565-585 | the store_zero_page_indexed closure on the objects; as `StoreZeroPageIndexedClosure` |
| Cpu.Cpu.EvalLoadStoreAbsX | cpu/src/microcode.rs:639-669 | the load_store_absolute_x closure on the objects; as `LoadStoreAbsXClosure` |
| Cpu.Cpu.EvalJumpIndirect | cpu/src/microcode.rs:768-790 | the jump_indirect closure on the objects; as `JumpIndirectClosure` |
| Cpu.Cpu.EvalBranchTarget | cpu/src/microcode.rs:793-848 | the first branch_relative closure on the objects; as `BranchTargetClosure` |
| Cpu.Cpu.PushBranchTarget | cpu/src/microcode.rs:793-848 | a taken branch adds the signed offset to PCL and pushes the target, PCH + 1 and one more cycle on a page cross; as `BranchStep` |
| Cpu.Cpu.EvalBranchFinish | cpu/src/microcode.rs:793-848 | the second branch_relative closure on the objects; as `BranchFinishClosure` |
| Cpu.Cpu.EvalClosure | cpu/src/microcode.rs:213-216 | any `Evaluate` closure on the objects: new state and selected micro-op as `Evaluate` |
| Cpu.Cpu.ExecBasicOp | cpu/src/microcode.rs:94-212 | `execute` of a micro-op other than `Evaluate` on the objects: state and cost as `ExecBasic` |
| Cpu.Cpu.Execute | cpu/src/microcode.rs:94-217 | `MicroOp::execute` on the registers, status, a context and the bus: new state and returned cycles as `ExecOp` |
| Cpu.Cpu.Reset | cpu/src/cpu.rs:36-48 | `reset(bus)`: the new CPU and bus state is `ResetSpec` of the old (see `ResetLoadsVector`) |
| Cpu.Cpu.ResetWith | cpu/src/cpu.rs:36-48 | the body of `reset`, for any step function that behaves as `execute` |
| Cpu.Cpu.ClearSchedule | cpu/src/cpu.rs:37-40 | cycle 0, index 0, no pipeline, the CPU's context emptied; nothing else changes |
| Cpu.Cpu.ExecuteAll | cpu/src/cpu.rs:44-47 | the loop `for op in ops { cycle += op.execute(..) }`: the final state is the run of `ops` and the cycle count grows by its cost |
| Cpu.Cpu.ExecuteCounted | cpu/src/cpu.rs:45-46 | `cycle += op.execute(..)`: the new state is the step's and the cycle count grows by its cost |
| Cpu.Cpu.StepCycle | cpu/src/cpu.rs:60-62 | `step_cycle(bus)` runs `cycle`: the new state is `CycleSpec` of the old (fetch with no pipeline, otherwise one execute cycle) |
| Cpu.Cpu.FetchCycle | cpu/src/cpu.rs:67-85 | the fetch half of `cycle` on the objects: the new state is `Fetch` of the old |
| Cpu.Cpu.Install | cpu/src/cpu.rs:69-83 | the writes of the fetch: PC one higher, a fresh context, index 0, the decoded micro-ops pending and one more cycle; nothing else changes |
| Cpu.Cpu.ExecutePipeline | cpu/src/cpu.rs:88-111 | the execute loop on the objects: the new state is `ExecuteCycle` of the old |
| Cpu.Cpu.ExecuteStep | cpu/src/cpu.rs:90-109 | one pass of the execute loop: index one higher; either the run continues towards the same stopping point, or it stops with the state, index and cycle count that `RunOps` gives and the pipeline dropped at its end |
| Cpu.Cpu.ExecuteNext | cpu/src/cpu.rs:89-94 | `uop = pipeline[index]; index += 1; uop.execute(..)`: index grows by one, the state is that step's |
| Cpu.Cpu.StepInstruction | cpu/src/cpu.rs:50-58 | `step_instruction(bus)`: the new state is `StepInstructionSpec` of the old, with no pipeline left |
| LegacyCpu.LegacyFetch | src/cpu.rs:107-120 | the fetch succeeds iff PC < 0xFFFF, PC lies inside the 65535-byte memory and the opcode has microcode; then PC + 1, its microcode installed at index 0, an empty context, one more cycle |
| LegacyCpu.LegacyCycleSpec | src/cpu.rs:106-147 | `cycle` keeps the state well formed |
| LegacyCpu.LegacyStepInstructionSpec | src/cpu.rs:90-98 | `step_instruction` ends with no pipeline pending |
| LegacyCpu.FetchAgrees | src/cpu.rs:107-120 | the older CPU over a 65535-byte memory fetches exactly as `cpu/src/cpu.rs` does over a 64 KiB bus holding the same bytes: both panic together, otherwise the same state |
| LegacyCpu.LegacyInstructionRuns | src/cpu.rs:90-98 | a whole instruction: fetch, then all of its micro-ops in order; the cycle count grows by 1 plus their costs |
| LegacyCpu.CPU.constructor | src/cpu.rs:62-74 | all registers zero, status `new()`, pins IRQ \| NMI \| SYNC, cycle 0, index 0, empty context, no pipeline, the given memory |
| LegacyCpu.CPU.Execute | src/cpu.rs:128-132 | `op.execute(self, ctx)`: the new context and the returned cycles are the step's; nothing else of the CPU changes |
| LegacyCpu.CPU.Reset | src/cpu.rs:76-88 | `reset()`: the new state is `Cpu.ResetSpec` of the old |
| LegacyCpu.CPU.ExecuteAll | src/cpu.rs:84-87 | `for op in ops { self.cycle += op.execute(..) }`: the final context and state are the run of `ops`, and the cycle count grows by its cost |
| LegacyCpu.CPU.Fetch | src/cpu.rs:107-120 | the fetch half of `cycle`: the new state is `LegacyFetch` of the old |
| LegacyCpu.CPU.ExecutePipeline | src/cpu.rs:123-146 | the execute half of `cycle`: the new state is the execute cycle shared with `cpu/src/cpu.rs` (`Cpu.ExecuteCycle`) of the old |
| LegacyCpu.CPU.StepCycle | src/cpu.rs:100-104 | `step_cycle()` runs `cycle`: the new state is `LegacyCycleSpec` of the old |
| LegacyCpu.CPU.StepInstruction | src/cpu.rs:90-98 | `step_instruction()`: the new state is `LegacyStepInstructionSpec` of the old, with no pipeline left |
| Memory.Memory.constructor | src/memory.rs:11-17 | 65535 bytes, all zero |
| Memory.Memory.Write8 | src/memory.rs:43-47 | requires address <= size - 1; only that byte changes; `read8` returns the value there and the old byte everywhere else |
| Memory.Memory.Read16 | src/memory.rs:49-55 | requires address < size - 1; the little-endian word of the bytes at address and address + 1 |
| Memory.Memory.Write16 | src/memory.rs:57-64 | requires address < size - 1; the low byte at address, the high byte after it, nothing else; `read16` then returns the value |
| Memory.Memory.LoadRom | src/memory.rs:19-35 | fails iff the start is past the end or the image does not fit above it (BadAddress iff the start is past the end), changing nothing; otherwise the image is copied at the start and every other byte kept |
| Devices.DevicesAt | system/src/memory.rs:70-83 | the devices whose range covers the address, in registration order; empty iff none covers it |
| Devices.DevicesAtFirst | system/src/memory.rs:70-83 | the first device found is the first registered one covering the address |
| Devices.AtMostOneDevice | system/src/memory.rs:70-83 | with disjoint ranges at most one device covers any address, so the `assert!(devices.len() <= 1)` holds |
| Devices.DeviceAt | system/src/memory.rs:70-83 | None iff no device covers the address; otherwise a device whose range covers it |
| Devices.RegisterKeepsDisjoint | system/src/memory.rs:51-66 | registering a device that overlaps none keeps the ranges disjoint |
| Devices.DevicesAtAppend | system/src/memory.rs:51-66 | after one more registration the devices at an address gain the new one exactly when its range covers the address |
| Devices.RegisterKeepsDevice | system/src/memory.rs:51-66 | registering without overlap does not change the device an address already maps to |
| SystemMemory.Memory.constructor | system/src/memory.rs:22-31 | 65535 zero bytes and no devices |
| SystemMemory.Memory.RegisterDevice | system/src/memory.rs:51-66 | accepted iff the range overlaps no registered range; then the device is appended, otherwise nothing changes |
| SystemMemory.Memory.GetDeviceOrNone | system/src/memory.rs:70-83 | None iff no device covers the address; otherwise the device that does |
| SystemMemory.Memory.WriteMem | system/src/memory.rs:91-95 | requires address <= size - 1; only that byte of RAM changes |
| SystemMemory.Memory.Read | system/src/memory.rs:99-104 | the covering device answers, otherwise the RAM byte |
| SystemMemory.Memory.Write | system/src/memory.rs:106-111 | RAM always takes the byte; the write is also forwarded to the covering device, if any; without a device a read returns it |
| Bus.Bus.constructor | src/bus.rs:23-31 | a bus over the given memory with no devices |
| Bus.Bus.RegisterDevice | src/bus.rs:33-45 | accepted iff the range overlaps no registered range; then the device is appended, otherwise nothing changes |
| Bus.Bus.GetDeviceOrNone | src/bus.rs:78-91 | None iff no device covers the address; otherwise the one device that does |
| Bus.Bus.Read | src/bus.rs:47-52 | the covering device answers, otherwise `memory.read8` |
| Bus.Bus.Write | src/bus.rs:54-59 | `memory.write8` always takes the byte; the write is also forwarded to the covering device, if any |
| Cursor.PrefixWhile | asm/src/utils.rs:29-45 | the length of the longest prefix whose elements all satisfy the predicate |
| Cursor.PrefixWhileUnique | asm/src/utils.rs:29-45 | that length is the only one with both properties |
| Cursor.Cursor.constructor | asm/src/utils.rs:3-13 | a cursor over the given slice |
| Cursor.Cursor.TakeOne | asm/src/utils.rs:3-13 | None iff the cursor is empty (then unchanged); otherwise the first element, and the cursor moves past it |
| Cursor.Cursor.TakeIf | asm/src/utils.rs:15-27 | takes the first element iff there is one and it satisfies the predicate; otherwise the cursor is unchanged |
| Cursor.Cursor.TakeWhile | asm/src/utils.rs:29-45 | returns the longest prefix satisfying the predicate; prefix ++ new cursor == old cursor and the next element, if any, fails the predicate |
| Source.Span.Len | asm/src/source.rs:226-228 | start + len == end |
| Source.Span.Subspan | asm/src/source.rs:238-244 | start' = start + r.start, length r.end, contained in the span |
| Source.NewSpan | asm/src/source.rs:221-224 | requires start <= end (the `assert!`); length end - start |
| Source.ContainsReflexive | asm/src/source.rs:230-232 | every span contains itself |
| Source.ContainsTransitive | asm/src/source.rs:230-232 | containment is transitive |
| Source.ContainsByEnds | asm/src/source.rs:230-236 | a span contains another iff it contains both of its ends (`contains_pos` includes both ends) |
| Source.NextNewline | asm/src/source.rs:147-159 | the first newline at or after an offset, or the end of the text |
| Source.LinesFrom | asm/src/source.rs:147-159 | the lines from an offset on: the first starts there, the last ends at the end of the text |
| Source.ParseToLines | asm/src/source.rs:147-159 | at least one line; the first starts at 0, the last ends at the end of the text |
| Source.NewlinesSkip | asm/src/source.rs:147-159 | skipping characters that are not newlines does not change the count of newlines ahead |
| Source.TilesCons | asm/src/source.rs:147-159 | a line ending at a newline followed by a tiling of the rest is a tiling |
| Source.LinesFromTiles | asm/src/source.rs:147-159 | the lines from an offset tile the rest of the text |
| Source.TilesOne | asm/src/source.rs:147-159 | a line with no newline in it, reaching the end, tiles the rest on its own |
| Source.LinesFromCount | asm/src/source.rs:147-159 | the lines from an offset are one more than the newlines after it |
| Source.ParseToLinesShape | asm/src/source.rs:147-159 | `parse_to_lines` yields (number of newlines + 1) spans; the first starts at 0, the last ends at the end; each ends where the newline before the next one stands (end_i + 1 == start_i+1) |
| Source.File.GetSourceLine | asm/src/source.rs:73-80 | Some iff 1 <= line <= `line_count`; then the text of `lines[line - 1]`, which holds no newline |
| Source.File.GetSourceStr | asm/src/source.rs:82-89 | Some iff the span ends inside the text; then exactly the span's characters |
| Source.File.GetSourceRef | asm/src/source.rs:91-97 | Some under the same condition; then a reference to this file and span |
| Source.File.GetLineSpan | asm/src/source.rs:99-105 | Some iff line < `line_count` (0-based); then `lines[line]` |
| Source.File.LookupByIndex | asm/src/source.rs:107-120 | Some iff a line contains the offset; then line = 1 + the index of the first such line and column = offset - its start + 1 |
| Source.File.LookupBySpan | asm/src/source.rs:122-130 | Some iff both ends have locations; then the pair of their locations |
| Source.NewFile | asm/src/source.rs:52-59 | a file with the given name and text whose lines are `parse_to_lines` of it |
| Source.Position | asm/src/source.rs:107-120 | `position(\|line\| line.contains_pos(index))`: the first line containing the offset, None iff there is none |
| Source.LookupTotal | asm/src/source.rs:107-120 | every offset up to and including the end of the text has a location; none past it |
| Source.LineOf | asm/src/source.rs:107-120 | in a tiling from 0, every offset up to the end lies in some line |
| Source.ShiftedTail | asm/src/source.rs:147-159 | the lines after the first, renumbered to start at 0, are again a tiling |
| Source.StartsGrow | asm/src/source.rs:147-159 | in a tiling every line after the first starts and ends no earlier than the second starts |
| Source.StartFrom | asm/src/source.rs:147-159 | in a tiling no line after the first starts before the second |
| Source.SliceView.constructor | asm/src/source.rs:452-456 | a view over the given slice |
| Source.SliceView.Peek | asm/src/source.rs:391-393 | Some iff n is inside the view; then the element n places ahead |
| Source.SliceView.FirstIf | asm/src/source.rs:395-405 | Some iff the view is non-empty and its first element satisfies the predicate; then that element |
| Source.SliceView.DropFirst | asm/src/source.rs:407-411 | None iff the view is empty (then unchanged); otherwise the first element, and the view moves past it |
| Source.SliceView.DropFirstIf | asm/src/source.rs:413-424 | drops the first element iff it satisfies the predicate; otherwise the view is unchanged |
| Source.SliceView.DropWhile | asm/src/source.rs:426-442 | corrected: returns the longest prefix satisfying the predicate and moves past it; dropped ++ new view == old view (see Findings) |
| Source.DropWhileAsWrittenWrong | asm/src/source.rs:426-442 | as written: on [1, 2, 3] with `x < 2` it returns [1, 2], including the element that failed; on an empty view it panics (see Findings) |
| Token.FromRawToken | asm/src/token.rs:73-104 | None exactly for PreProcessor, Whitespace, Comment and Error; Number, Char, String become literals with the same payload; each operator becomes the operator of the same name |
| Token.FromRawTokenInverts | asm/src/token.rs:73-104 | every cooked kind comes from exactly one raw kind |
| Token.KindPredicates | asm/src/token.rs:262-284 | `is_literal` holds exactly for the kinds that cook to literals (Number, Char, String) and `is_operator` exactly for those that cook to operators |
| Token.DigitValue | asm/src/token.rs:313-336 | a digit's value is below the radix |
| Token.FromStrRadix | asm/src/token.rs:313-336 | `u64::from_str_radix(..).ok()`: a result needs a non-empty text |
| Token.DigitCharValue | asm/src/token.rs:313-336 | a digit character reads back as its value |
| Token.ToDigits | asm/src/token.rs:313-336 | the digits of n in a radix: non-empty, every character a digit of that radix |
| Token.DigitsRoundTrip | asm/src/token.rs:313-336 | reading back the digits of n gives n |
| Token.FromStrRadixRoundTrip | asm/src/token.rs:313-336 | parsing the digits of n gives n iff n < 2^64, and None otherwise |
| Token.LiteralsRoundTrip | asm/src/token.rs:313-336 | `conv_bin` of `0b`+digits, `conv_oct` of `0o`+digits, `conv_dec` of digits, `conv_hex` of `$`+digits and of `0x`+digits give the number back |
| Token.DecimalOverflow | asm/src/token.rs:325-329 | a decimal literal of 2^64 or more converts to None |
| Token.ConvString | asm/src/token.rs:344-348 | drops the first and the last character |
| Token.ConvStringRoundTrip | asm/src/token.rs:344-348 | `conv_string` of a quoted text gives the text |
| Token.ConvCharAsWritten | asm/src/token.rs:338-342 | as written: the second character of the text, Some iff it has two (see Findings) |
| Token.ConvCharEscapeAsWritten | asm/src/token.rs:338-342 | as written, the literal `'\n'` converts to the backslash (see Findings) |
| Token.ConvChar | asm/src/token.rs:338-342 | corrected: the character between the quotes, with the lexer's escapes decoded |
| Token.ConvCharEscapes | asm/src/token.rs:338-342 | corrected: `\n`, `\t`, `\r`, `\0`, `\f` decode to their control characters |
| AsmInstruction.Group | asm/src/instruction.rs:39-471 | each block of the table has 8 entries |
| AsmInstruction.Instructions | asm/src/instruction.rs:39-471 | `INSTRUCTIONS`: 56 entries in source order |
| AsmInstruction.Find | asm/src/instruction.rs:34-36 | Some iff an entry has the name; then an entry of the table with that name |
| AsmInstruction.FindByName | asm/src/instruction.rs:34-36 | Some iff the name is a key; then the entry of the table with that name |
| AsmInstruction.Entries0 | asm/src/instruction.rs:39-142 | entries 0-13 are well formed and own their opcode bytes (a check of the table data) |
| AsmInstruction.Entries1 | asm/src/instruction.rs:143-251 | entries 14-27 are well formed and own their opcode bytes (a check of the table data) |
| AsmInstruction.Entries2 | asm/src/instruction.rs:252-369 | entries 28-41 are well formed and own their opcode bytes (a check of the table data) |
| AsmInstruction.Entries3 | asm/src/instruction.rs:370-471 | entries 42-55 are well formed and own their opcode bytes (a check of the table data) |
| AsmInstruction.TableWellFormed | asm/src/instruction.rs:39-471 | every entry is well formed (bytes match modes, modes and values distinct, Relative only in branches) and owns its opcode bytes |
| AsmInstruction.NamesUnique | asm/src/instruction.rs:39-471 | every name is a 3-letter lower-case mnemonic and no two entries share one |
| AsmInstruction.FindByNameKeys | asm/src/instruction.rs:34-471 | `find_by_name` answers for exactly the 56 lower-case mnemonics (so it is case-sensitive) and returns each entry for its own name |
| AsmInstruction.BytesMatchMode | asm/src/instruction.rs:39-471 | every opcode's byte count is that of its mode: 1 Implied/Accumulator, 2 Immediate/zero page/indirect/Relative, 3 absolute/Indirect |
| AsmInstruction.ModesUnique | asm/src/instruction.rs:39-471 | within one instruction no addressing mode appears twice |
| AsmInstruction.OpcodeValuesUnique | asm/src/instruction.rs:39-471 | no opcode byte appears twice in the whole table |
| AsmInstruction.RelativeOnlyInBranches | asm/src/instruction.rs:76-136 | Relative mode appears exactly in the eight branches, each with a single 2-byte, 2-cycle form |
| AsmInstruction.BranchesPresent | asm/src/instruction.rs:76-136 | all eight branches are keys (a check of the table data) |
| AsmInstruction.CpyImmediateDisagrees | asm/src/instruction.rs:182-189 | the assembler emits 0xC0 for immediate CPY, which the decode table decodes as zero-page CPY |
| AsmInstruction.CpyZeroPageDisagrees | asm/src/instruction.rs:182-189 | the assembler emits 0xC4 for zero-page CPY, which the decode table decodes as immediate CPY |
| AsmInstruction.OraIndirectXCyclesDisagree | asm/src/instruction.rs:307-319 | `ora (zp,x)` is 6 cycles here and 5 in the decode table |
| Preprocessor.TokensOf | asm/src/preprocessor.rs:19-47 | a macro definition's raw tokens, one per definition token, in order |
| Preprocessor.NewConstant | asm/src/preprocessor.rs:23-31 | `Macro::new_constant`: no parameters; the definition keeps the tokens, none of them a parameter |
| Preprocessor.NewFunction | asm/src/preprocessor.rs:33-47 | `Macro::new_function`: the given parameters; a definition token is a parameter exactly when its text is one of them |
| Preprocessor.Classify | asm/src/preprocessor.rs:33-47 | one definition token per raw token |
| Preprocessor.FirstWithArity | asm/src/preprocessor.rs:132-137 | the index of the first overload with n parameters: None iff there is none |
| Preprocessor.FoundAt | asm/src/preprocessor.rs:132-137 | with ascending overloads, each overload is the one found for its own parameter count |
| Preprocessor.SearchArity | asm/src/preprocessor.rs:100-114 | `binary_search_by_key` on the parameter counts: Found gives the overload with n parameters; Insert gives the index below which all counts are smaller and from which all are larger |
| Preprocessor.MacroSet.GetOverload | asm/src/preprocessor.rs:132-137 | the overload with exactly `args` parameters, None iff there is none |
| Preprocessor.MacroSet.Add | asm/src/preprocessor.rs:100-114 | without parameters the definition becomes the constant; with parameters it becomes the overload for that count (replacing an old one, or inserted keeping the order), the overloads of every other count and the constant are kept, and the set grows by one iff the count was new |
| Preprocessor.OverloadOf | asm/src/preprocessor.rs:132-137 | the overload with n parameters, None iff none has n |
| Preprocessor.ReplaceKeepsOthers | asm/src/preprocessor.rs:102-107 | replacing the overload with the same count keeps the order, finds the new one and keeps every other count's overload |
| Preprocessor.InsertAscending | asm/src/preprocessor.rs:102-110 | inserting at the search's index keeps the overloads ascending and finds the new one |
| Preprocessor.InsertKeepsArity | asm/src/preprocessor.rs:102-110 | the insertion does not change the overload found for another count |
| Preprocessor.InsertKeepsOthers | asm/src/preprocessor.rs:102-110 | inserting at the search's index keeps the order, finds the new one and keeps every other count's overload |
| Preprocessor.NewSet | asm/src/preprocessor.rs:87-93 | `MacroSet::new`: no constant and no overloads |
| Preprocessor.WithMacro | asm/src/preprocessor.rs:179-184 | the set for the macro's name (created empty when missing) receives the definition; every other name keeps its set |
| Preprocessor.MacroTable.constructor | asm/src/preprocessor.rs:164-166 | `MacroTable::new()`: no macros |
| Preprocessor.MacroTable.Get | asm/src/preprocessor.rs:169-171 | Some iff the name has a set; then that set |
| Preprocessor.MacroTable.AddMacro | asm/src/preprocessor.rs:179-184 | `add_macro`: the table becomes `WithMacro` of the old one |
| Preprocessor.SkipWs | asm/src/preprocessor.rs:652-662 | drops exactly the leading whitespace: what remains is a suffix that does not start with whitespace |
| Preprocessor.SkipEol | asm/src/preprocessor.rs:664-670 | reads an optional comment and then an optional newline, at most two tokens, all ends of line; reads nothing iff the first token is not one |
| Preprocessor.SkipWhitespace | asm/src/preprocessor.rs:652-662 | `skip_whitespace`: the cursor is left on `SkipWs` of the old tokens; it returns the last whitespace token read, or the first token when none was |
| Preprocessor.SkipEndOfLine | asm/src/preprocessor.rs:664-670 | `skip_eol`: the cursor is left on `SkipEol` of the old tokens |
| Preprocessor.ArgScan | asm/src/preprocessor.rs:574-599 | the `take_while` scan of `take_macro_arg` with its stack of open `(`: it takes at most the whole input |
| Preprocessor.ArgScanShape | asm/src/preprocessor.rs:574-599 | the scan takes no comma and no end of line, never closes more `(` than are open, ends with as many open as the taken tokens leave, and stops only at a comma, an end of line or a `)` with nothing open |
| Preprocessor.TakeMacroArgSpec | asm/src/preprocessor.rs:574-599 | `take_macro_arg`: a successful result leaves a suffix of the input; its content is stated by `TakeMacroArgShape` and `TakeMacroArgBalanced` |
| Preprocessor.TakeMacroArgShape | asm/src/preprocessor.rs:574-599 | argument ++ rest == the input after its whitespace; the argument is clean; the rest is empty or starts with a comma, an end of line or `)`; the error is ExpectedDelimiter at a `(` |
| Preprocessor.TakeMacroArgBalanced | asm/src/preprocessor.rs:574-599 | the argument taken is balanced in parentheses |
| Preprocessor.TakeMacroArg | asm/src/preprocessor.rs:574-599 | the method's result and the cursor it leaves are `TakeMacroArgSpec` of the old tokens |
| Preprocessor.CollectArgs | asm/src/preprocessor.rs:543-572 | corrected `collect_macro_args`: a successful result reads at least one token and leaves a suffix (see Findings); the arguments are stated by `CollectArgsExtends` and `CollectArgsClean` |
| Preprocessor.CollectArgsExtends | asm/src/preprocessor.rs:543-572 | each pass appends the argument `take_macro_arg` returns and keeps the ones before |
| Preprocessor.CollectArgsClean | asm/src/preprocessor.rs:543-572 | every argument collected is clean |
| Preprocessor.CollectMacroArgs | asm/src/preprocessor.rs:543-572 | corrected (runs the corrected `CollectArgs`, see Findings): the method's result and the cursor it leaves are `CollectArgs` of the old tokens |
| Preprocessor.CollectAsWrittenNeverEnds | asm/src/preprocessor.rs:543-572 | as written, `f(` at the end of the input is still collecting after k passes, with k more empty arguments: the loop never ends (see Findings) |
| Preprocessor.UnclosedCallFails | asm/src/preprocessor.rs:543-572 | corrected: a call whose remaining tokens hold no `)`, comma or end of line is an error |
| Preprocessor.ExpandConst | asm/src/preprocessor.rs:483-502 | `expand_macro_const`: Ok iff no definition token is a parameter, then its tokens; otherwise Panicked |
| Preprocessor.ExpandConstRoundTrip | asm/src/preprocessor.rs:483-502 | a constant made by `new_constant` expands to the tokens it was made from |
| Preprocessor.Position | asm/src/preprocessor.rs:505-540 | `position` of the name among the parameters: the first match, None iff the name is not one |
| Preprocessor.Substitute | asm/src/preprocessor.rs:505-540 | `expand_macro_func` token by token: a parameter becomes its argument's tokens; an unknown parameter panics |
| Preprocessor.SubstitutePanicSticks | asm/src/preprocessor.rs:505-540 | a panic in a prefix of the definition makes the whole expansion panic |
| Preprocessor.SubstituteCopies | asm/src/preprocessor.rs:505-540 | a definition with no parameter tokens is copied unchanged |
| Preprocessor.SubstituteIdentity | asm/src/preprocessor.rs:505-540 | a function macro called with each parameter's own name gives back the tokens it was built from |
| Preprocessor.NameArgs | asm/src/preprocessor.rs:505-540 | one argument per parameter |
| Preprocessor.ExpandMacroFunc | asm/src/preprocessor.rs:505-540 | `expand_macro_func`'s result is `Substitute` of the definition |
| Preprocessor.ExpandOnceSpec | asm/src/preprocessor.rs:454-480 | corrected (runs the corrected `CollectArgs`, see Findings): `expand_macro_once`: a call of an overload when `(` follows and there are overloads, else the constant, else nothing with no token read; what remains is a suffix |
| Preprocessor.ExpandMacroOnce | asm/src/preprocessor.rs:454-480 | corrected (runs the corrected `CollectArgs`, see Findings): the method's result and the cursor it leaves are `ExpandOnceSpec` of the old tokens |
| Preprocessor.ThenAssoc | asm/src/preprocessor.rs:403-451 | joining the outputs of successive expansion levels is associative |
| Preprocessor.CompleteThen | asm/src/preprocessor.rs:403-451 | joining two complete outputs gives a complete output |
| Preprocessor.ExpandLevelComplete | asm/src/preprocessor.rs:403-451 | no token of a successful expansion is an identifier naming a macro with a constant |
| Preprocessor.ExpandCallComplete | asm/src/preprocessor.rs:403-451 | the same, for a level that starts with a call |
| Preprocessor.ExpandLevelKeeps | asm/src/preprocessor.rs:403-451 | tokens that name no macro come out of a level unchanged |
| Preprocessor.SelfReferenceFails | asm/src/preprocessor.rs:403-451 | a macro defined as itself fails at every depth with the recursion-limit error |
| Preprocessor.ExpandMacroSpec | asm/src/preprocessor.rs:403-451 | corrected (runs the corrected `CollectArgs`, see Findings): `expand_macro`: one expansion, then fully expanded from depth 1; what remains is a suffix |
| Preprocessor.ExpandMacroComplete | asm/src/preprocessor.rs:403-451 | what `expand_macro` returns is fully expanded |
| Preprocessor.SelfReferenceLimit | asm/src/preprocessor.rs:419-429 | `%define a a` then `a`: the error is the recursion limit (`RECURSION_LIMIT`), at `a` |
| Preprocessor.StackTop | asm/src/preprocessor.rs:403-451 | the working stack's result is its top level's expansion followed by the rest of the stack's |
| Preprocessor.ThenMoves | asm/src/preprocessor.rs:403-451 | tokens that do not expand move to the output |
| Preprocessor.ThenNil | asm/src/preprocessor.rs:403-451 | an empty output joined to another is that other |
| Preprocessor.ExpandPass | asm/src/preprocessor.rs:430-447 | the inner loop over the top level: an error, a drained level with the moved tokens, or the expansion pushed; in each case agreeing with `ExpandLevel`, and the steps left decrease |
| Preprocessor.ExpandWorking | asm/src/preprocessor.rs:417-450 | the working-stack loop's result is `ExpandLevel` of the first expansion at depth 1 |
| Preprocessor.ExpandMacro | asm/src/preprocessor.rs:403-451 | corrected (runs the corrected `CollectArgs`, see Findings): `expand_macro`: result and cursor are `ExpandMacroSpec` of the old tokens |
| Preprocessor.PushParam | asm/src/preprocessor.rs:351-355 | a parameter read replaces an earlier one of the same name and goes last: the names are the old ones plus it |
| Preprocessor.PushParamDistinct | asm/src/preprocessor.rs:351-355 | the parameter list stays free of duplicates |
| Preprocessor.ParamList | asm/src/preprocessor.rs:340-375 | the parameter loop of `preprocess_define_func`: a successful result reads no more than the input; the parameters are stated by `ParamListDistinct` |
| Preprocessor.ParamListDistinct | asm/src/preprocessor.rs:340-375 | the parameters are distinct and include every one read before |
| Preprocessor.DefineConstSpec | asm/src/preprocessor.rs:316-328 | `preprocess_define_const`: the definition is the line after the whitespace, holding no end of line |
| Preprocessor.DefineFuncSpec | asm/src/preprocessor.rs:331-394 | `preprocess_define_func`: a successful result reads no more than the input; the macro it makes is stated by `DefineFuncParams` |
| Preprocessor.FuncBody | asm/src/preprocessor.rs:377-393 | a function macro's definition holds no end of line |
| Preprocessor.DefineSpec | asm/src/preprocessor.rs:275-313 | `preprocess_define`: a successful result reads no more than the input; the definition is stated by `DefineStopsAtEol` |
| Preprocessor.DefineStopsAtEol | asm/src/preprocessor.rs:275-313 | the definition a `%define` makes holds no comment or newline |
| Preprocessor.DefineFuncParams | asm/src/preprocessor.rs:331-394 | a function macro's parameters are distinct and a definition token is a parameter iff its text names one |
| Preprocessor.DefineConst | asm/src/preprocessor.rs:316-328 | the method's macro and cursor are `DefineConstSpec` of the old tokens |
| Preprocessor.ParseParams | asm/src/preprocessor.rs:340-375 | the parameter loop as a method: result and cursor are `ParamList` of the old tokens |
| Preprocessor.FuncBodyRead | asm/src/preprocessor.rs:377-393 | the cursor steps that read the definition give `FuncBody` |
| Preprocessor.DefineFunc | asm/src/preprocessor.rs:331-394 | `preprocess_define_func`: result and cursor are `DefineFuncSpec` of the old tokens |
| Preprocessor.PreprocessDefine | asm/src/preprocessor.rs:275-313 | `preprocess_define`: result and cursor are `DefineSpec` of the old tokens |
| Preprocessor.PreprocessTokens | asm/src/preprocessor.rs:208-253 | corrected (runs the corrected `CollectArgs`, see Findings): `preprocess_tokens`: the result is `PreprocessSpec` of the tokens and the old table, and the table stays well formed |
| Preprocessor.DefsOf | asm/src/preprocessor.rs:191-206 | the table after adding the predefined macros in order is well formed |
| Preprocessor.Preprocess | asm/src/preprocessor.rs:191-206 | corrected (runs the corrected `CollectArgs`, see Findings): `preprocess`: the result is that of the predefined macros followed by the tokens |
| Preprocessor.DropComments | asm/src/preprocessor.rs:208-253 | the input with its comments dropped: no comment remains |
| Preprocessor.PreprocessPassesThrough | asm/src/preprocessor.rs:208-253 | input with no directive and no macro name passes through, with only its comments dropped |
| Preprocessor.ExampleConst | asm/src/preprocessor.rs:316-328 | after the name, ` 1` and a newline make the constant `1` and read the newline |
| Preprocessor.ExampleDefine | asm/src/preprocessor.rs:275-313 | `%define X 1` makes the constant X = 1 and reads its line |
| Preprocessor.ExampleUse | asm/src/preprocessor.rs:208-253 | with X defined as 1, `X` becomes `1` |
| Preprocessor.DefineThenUse | asm/src/preprocessor.rs:208-253 | `%define X 1`, a newline, then `X`: the output is the `1` alone |

## Left out

- The drivers (`src/main.rs`, `asm/src/main.rs`), the stdout device, the ANSI formatting of
  `asm/src/error.rs` and the stubs of `asm/src/assembler.rs` are not part of this model.
- The Logos lexer and `lex_tokens`: token sequences are inputs to the model, and a token's
  text and kind are given.
- File I/O: `load_rom` and `add_from_path` read files. The ROM image's bytes and the source
  text are parameters here.
- `SourceMap` (the set of files) is not modelled; `File` is.
- `Source.ParseToLines`, `Source.File.GetSourceLine`, `Source.File.GetSourceStr`,
  `Source.File.GetSourceRef`, `Source.File.GetLineSpan`, `Source.File.LookupByIndex`,
  `Source.File.LookupBySpan`: the text is a sequence of characters and every offset, span and
  column counts characters, where `asm/src/source.rs` counts UTF-8 bytes. The two agree for
  ASCII text only; for other text the line spans, columns and slices differ, and the source's
  panic on a span that cuts a multi-byte character is not modelled.
- Device objects:
  - The interval tree, `Rc`/`RefCell` and `Arc<Mutex<..>>` devices are replaced by
    `(range, id)` pairs.
  - What a device answers on a read is a function parameter `reader`.
  - Forwarded writes are logged in `forwarded`.
- `SystemMemory.Memory.GetDeviceOrNone`, `Bus.Bus.GetDeviceOrNone`: require address < 0xFFFF,
  because the query range `address..address + 1` overflows at 0xFFFF.
- The `unsafe` aliasing of `self.ctx` while `self` is borrowed: the context is a separate
  object passed alongside the CPU.
- `Debug`/`Display` implementations.
- `SystemMemory.Memory.RegisterDevice`, `Bus.Bus.RegisterDevice`: the `panic!` on an
  overlapping range is modelled as returning `false` with nothing changed.
- The indexed loads run the corrected page-cross step `CrossStep`, not `CrossStepAsWritten`.
  As written, every in-page abs,X / abs,Y / (ind),Y load panics on a `PopLoadAddress` over an
  empty context (`CrossStepAsWrittenPanics`). The model loads the byte instead, as the code's
  comments describe (see Findings). The members concerned:
  - `MicroExec.IndirectYClosure`: corrected; as written it empties the context in the page.
  - `MicroExec.AbsIndexedClosure`: corrected; as written it empties the context in the page.
  - `Cpu.Cpu.EvalIndirectY`: corrected, as `IndirectYClosure`.
  - `Cpu.Cpu.EvalAbsIndexed`: corrected, as `AbsIndexedClosure`.
  - `MicroExec.AbsIndexedLoad`: states the corrected load; as written the in-page case panics.
  - `MicroExec.IndirectYLoad`: states the corrected load; as written the in-page case panics.
- The macro expansion reads call arguments with the corrected `CollectArgs`. As written,
  a call left open at the end of the input (`f` `(` and nothing after) makes
  `collect_macro_args` loop for ever (`CollectAsWrittenNeverEnds`); the model returns the
  missing-delimiter error at the `(` instead (`UnclosedCallFails`, see Findings). Every member
  that reaches `collect_macro_args` inherits this:
  - `Preprocessor.CollectMacroArgs`: corrected; as written it never returns on such a call.
  - `Preprocessor.ExpandOnceSpec`: corrected; as written `expand_macro_once` never returns.
  - `Preprocessor.ExpandMacroOnce`: corrected, as `ExpandOnceSpec`.
  - `Preprocessor.ExpandMacroSpec`: corrected; as written `expand_macro` never returns.
  - `Preprocessor.ExpandMacro`: corrected, as `ExpandMacroSpec`.
  - `Preprocessor.PreprocessTokens`: corrected; as written `preprocess_tokens` never returns.
  - `Preprocessor.Preprocess`: corrected; as written `preprocess` never returns.
- `Cpu.Bus`: the CPU's bus is an abstract 64 KiB memory. It is not connected to the devices or
  to the 65535-byte RAM of `SystemMemory.Memory`/`Bus.Bus`, so their behaviour at 0xFFFF (a
  panic) and device reads are not seen by the CPU model.
- Panics elsewhere (all but the in-page indexed loads above) are an outcome, never silently dropped:
  - `Context` asserts, `Unimplemented` (BRK), decode failures and the macro `unwrap`s are a
    `Panic` or `Panicked` result of the specification functions.
  - The imperative methods require the corresponding specification step not to panic.
- `Cpu.Cpu.StepCycle`, `Cpu.Cpu.StepInstruction`, `Cpu.Cpu.Reset`, `LegacyCpu.CPU.StepCycle`,
  `LegacyCpu.CPU.StepInstruction`, `LegacyCpu.CPU.Reset`: require the specification step not to
  panic, where the source would abort.
- `Utility.Bitset.Set`, `Utility.Bitset.SetRaw`, `Utility.Bitset.Replace`,
  `Preprocessor.MacroSet.Add`: functions returning the new value. They do not update in place,
  because `Bitset` and `MacroSet` are values.
- `LegacyCpu.CPU.Execute`: the micro-op step of `src/cpu.rs` is a parameter `exec`, required to
  keep the state well formed (`Runnable`). `src/microcode.rs`, which `src/cpu.rs` and
  `src/instructions.rs` import, is not part of this model; `src/instructions.rs` is run on the
  `Context` of `cpu/src/microcode.rs`, which has the same interface. Likewise `src/opcode.rs`,
  which `src/cpu.rs` decodes with, is not part of this model: the legacy fetch decodes with
  the table of `core/src/opcode.rs`.
- The remaining addressing-mode sequences are data run by `ExecStep`, with no end-to-end lemma
  of their own beyond the per-micro-op lemmas:
  - zero page, absolute, (zp,X);
  - push/pull, JSR/RTS/RTI;
  - absolute and indirect jumps;
  - the `load_store_*` forms other than `load_store_absolute_x`.
- Macro sequences without an `Evaluate` have no contract of their own (they are constants).
- Plain definitions used by the contracts above have no contract of their own:
  - `read8`, `Register::get`, `get_lo_byte` and `get_hi_byte`;
  - `MacroSet::has_constant`/`has_overloads`/`get_constant`, `MacroTable::has_name`,
    `Macro::new`;
  - `File::line_count`, `is_eol`/`is_not_eol`;
  - the `conv_bin`/`conv_oct`/`conv_dec`/`conv_hex` functions, whose round trip is
    `Token.LiteralsRoundTrip`.
- `Token.FromStrRadix`: the contract states only that a number needs a non-empty text. Its full
  behaviour is stated by `Token.FromStrRadixRoundTrip` and `Token.DecimalOverflow`.

## Findings

| source | as written | input that shows it | evidently intended | confidence | as-written member | corrected member |
|---|---|---|---|---|---|---|
| cpu/src/microcode.rs:391-429 | when no page is crossed, the first `Evaluate` of load_absolute_indexed (and of load_indirect_y, 340-388) has popped both base bytes and pushes nothing back, then selects `PopLoadAddress`, which pops an empty context | `lda $1000,x` with X = 1: `PopLoadAddress` asserts `ptr < SIZE` on an empty context and panics | the effective address stays on the context and `PopLoadAddress` loads the byte at once, one cycle fewer than on a page cross, as the comments say | high; not executed | MicroExec.CrossStepAsWrittenPanics | MicroExec.CrossStepLoads |
| asm/src/source.rs:426-442 | `drop_while` returns `&slice[0..index + 1]`, one element more than it dropped | `[1, 2, 3]` with `x < 2` returns `[1, 2]`, including the 2 the predicate rejected; an empty view panics on the slice bound | return the dropped prefix `&slice[0..index]` | high; not executed | Source.DropWhileAsWrittenWrong | Source.SliceView.DropWhile |
| asm/src/preprocessor.rs:543-572 | at the end of the input `take_macro_arg` returns an empty argument and `take_one` returns `None`, which neither breaks nor errors, so the loop repeats | the tokens `f` `(` at the end of the input, `f` a function macro: one more empty argument on every pass, never returning | report the missing `)` as for an end of line (expected delimiter at the `(`) | high; not executed | Preprocessor.CollectAsWrittenNeverEnds | Preprocessor.UnclosedCallFails |
| asm/src/token.rs:338-342 | `conv_char` returns the second character of the literal's text, while the lexer accepts escaped characters | the literal `'\n'` (four characters) converts to `\` | decode the escape: `'\n'` is the newline character | medium; not executed | Token.ConvCharEscapeAsWritten | Token.ConvCharEscapes |
