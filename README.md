# MaNES 6502 core in Dafny

A model of the CPU side of MaNES, a NES emulator written in Rust. It covers:

- the MOS 6502 register file and status flags;
- the guarded stack in page 0x01;
- reset and NMI entry;
- the addressing-mode resolver `address_mode_fetch`;
- the flat 64 KiB main bus and the CPU-facing word accessors;
- the opcode handlers of both CPU crates: the newer one under `src/bus/src/mos6502` and the older one under `src/mos6502`;
- the older crate's 48-slot opcode table, its `parse_instruction`, its three-opcode match decoder and its `invalid` handler;
- the iNES cartridge header and image loaders;
- the disassembler.

The layout follows the source:

| file | module | models |
|---|---|---|
| `machine.dfy` | `Machine` | bytes, words, a byte's bit pattern for AND, OR and XOR, the checked and wrapping arithmetic of Rust's `u8`/`u16`, and `Result`/`Fault` for every `panic!` or debug-overflow abort |
| `flags.dfy` | `Flags` | the status register as eight flags, and its byte form |
| `bus.dfy` | `MainBus` | class `Bus` over `ram: array<u8>` |
| `cpu.dfy` | `Mos6502` | class `Cpu`, whose fields are updated in place; the stack, reset and NMI methods; the addressing-mode functions |
| `alu.dfy` | `Alu` | the arithmetic of every handler, as pure functions, with the lemmas that say what it means |
| `alu_handlers.dfy`, `control_handlers.dfy`, `rmw_handlers.dfy` | `AluHandlers`, `ControlHandlers`, `RmwHandlers` | the newer crate's handlers |
| `legacy_alu.dfy`, `legacy_control.dfy`, `legacy_rmw.dfy` | `LegacyAlu`, `LegacyControl`, `LegacyRmw` | the older crate's handlers |
| `scaffold.dfy`, `unofficial.dfy` | `Scaffold`, `Unofficial` | the older crate's scaffold handlers and `invalid` |
| `opcodes.dfy`, `decoder.dfy` | `Opcodes`, `Decoder` | the opcode table and the match decoder |
| `interpreter.dfy` | `Interpreter` | `execute_instruction` |
| `ines.dfy` | `INes` | the iNES header and images |
| `disassembler.dfy` | `Disassembler` | `disassemble_program` |
| `properties.dfy` | `Properties` | facts that span several operations, and the unit tests' vectors |

Every handler is a method over a `Cpu` and a `Bus`. Its postcondition gives the new registers and memory in terms of the old ones and the operand that `address_mode_fetch` returns. The `Alu` lemmas then say what those new values mean: carries, signs and the bits that were kept. Rust's plain `+`/`-` on `u8`/`u16` panic on overflow in a debug build. Each such abort, like every `panic!`, `unreachable!` or failed `expect`, is an `Err` with a `Fault`. After an `Err` the model promises nothing more about the state, except where a postcondition says so.

## Model

| member | source | states |
|---|---|---|
| Machine.Word | src/bus/src/traits.rs:6-10 | the word built from two bytes has them as its low and its high byte |
| Machine.WordOfParts | src/bus/src/lib.rs:30-34 | splitting a word into its low and high byte and joining them again gives the word back |
| Machine.Signed | src/mos6502-disassembler/src/lib.rs:113 | `b as i8` is in -128..127, is negative exactly when bit 7 is set, and is congruent to the byte modulo 256 |
| Machine.SignExtend | src/mos6502/src/opcodes/control/bcs.rs:7-32 | the byte sign-extended to 16 bits keeps it as the low byte, has high byte 0xFF exactly when bit 7 is set, and is the signed value modulo 2^16 |
| Machine.AddU16 | src/bus/src/mos6502/mod.rs:130 | a checked `u16` add succeeds exactly when the sum fits, and then it is the sum; otherwise it is an overflow abort |
| Machine.SubU16 | src/mos6502/src/opcodes/control/beq.rs:17 | a checked `u16` subtract succeeds exactly when the result is not negative, and then it is the difference |
| Machine.AddU8 | src/bus/src/mos6502/mod.rs:78 | a checked `u8` add succeeds exactly when the sum fits in a byte, and then it is the sum |
| Machine.SubU8 | src/bus/src/mos6502/opcodes/alu/cmp.rs:12 | a checked `u8` subtract succeeds exactly when the difference is not negative, and then it is the difference |
| Flags.PutReadsBack | src/bus/src/mos6502/mod.rs:81-102 | after `set_flag`, `clear_flag` or `write_flag_cond`, `is_flag_set` of that flag reads back the written value, and every other flag reads as before |
| Flags.PutIdempotent | src/bus/src/mos6502/mod.rs:81-89 | setting or clearing a flag twice is setting or clearing it once, and writing a flag's current value changes nothing |
| Flags.PutOverwrites | src/bus/src/mos6502/mod.rs:91-97 | a second write of the same flag overrides the first |
| Flags.UnpackPack | src/bus/src/mos6502/mod.rs:65 | the flags pushed as a byte and pulled back are the same flags |
| Flags.PackUnpack | src/mos6502/src/opcodes/control/plp.rs:7-13 | a byte pulled into the status register and pushed again is the same byte, all eight bits |
| Flags.IsSetIsMaskTest | src/bus/src/mos6502/mod.rs:99-102 | a flag is set exactly when the register masked by `1 << flag` equals that mask |
| MainBus.Bus.constructor | src/bus/src/lib.rs:16-20 | `Bus::new` has 65536 bytes, all zero |
| MainBus.Bus.ReadSlice | src/bus/src/lib.rs:26-28 | the slice has `to - from` bytes and holds RAM from `from` on; `from > to` aborts |
| MainBus.Bus.Read16 | src/bus/src/lib.rs:30-34 | the low byte is read at `addr` and the high byte at `addr + 1`; address 0xFFFF aborts, because `addr + 1` overflows |
| MainBus.Bus.Write8 | src/bus/src/lib.rs:36-38 | exactly the byte at `addr` changes, and it becomes `value` |
| MainBus.Bus.Write16 | src/bus/src/lib.rs:40-45 | writes the low byte at `addr` and the high byte at `addr + 1`, and nothing else; a `read_u16` at `addr` then gives the value; at 0xFFFF only the low byte is written before the abort |
| MainBus.Bus.LoadToRam | src/bus/src/lib.rs:47-56 | copies the first min(len, 0x7FFF) bytes to consecutive addresses from `start` and leaves the rest of RAM; running past the end of RAM aborts after the bytes before it are copied |
| MainBus.RomSize | src/bus/src/lib.rs:49 | at most `MAX_ROM_SIZE` and at most the content length, and equal to one of the two |
| MainBus.Bus.CpuRead16 | src/bus/src/traits.rs:6-10 | `cpu_read_u16` reads the low byte at `addr` and the high byte at `addr + 1`; 0xFFFF aborts |
| MainBus.Bus.CpuWrite16 | src/bus/src/traits.rs:12-17 | `cpu_write_u16` writes the low and then the high byte and reads back as the value; at 0xFFFF only the low byte is written |
| Mos6502.StackAddr | src/bus/src/mos6502/mod.rs:109 | `STACK_PAGE \| sp` lies in page 0x01, and its low byte is `sp` |
| Mos6502.Cpu.constructor | src/bus/src/mos6502/mod.rs:23-36 | A = X = Y = 0, pc = 0, sp = 0xFD, flags byte 0x34, no cycles |
| Mos6502.Cpu.SetFlag | src/bus/src/mos6502/mod.rs:81-84 | only the named flag changes, and it becomes set |
| Mos6502.Cpu.ClearFlag | src/bus/src/mos6502/mod.rs:86-89 | only the named flag changes, and it becomes clear |
| Mos6502.Cpu.WriteFlagCond | src/bus/src/mos6502/mod.rs:91-97 | only the named flag changes, and it takes the condition's value |
| Mos6502.Cpu.StackPush | src/bus/src/mos6502/mod.rs:104-112 | succeeds exactly when sp != 0; stores the value at `0x0100 \| sp`, changes no other byte, and decrements sp; sp = 0 aborts with nothing written |
| Mos6502.Cpu.StackPull | src/bus/src/mos6502/mod.rs:114-122 | succeeds exactly when sp != 0xFF; increments sp and returns the byte at `0x0100 \| sp` |
| Mos6502.Cpu.PushWord | src/bus/src/mos6502/mod.rs:59-60 | pushes the high byte of a word, then its low byte: sp drops by 2 and the two stack slots hold those bytes; it succeeds exactly when sp >= 2 |
| Mos6502.Cpu.Reset | src/bus/src/mos6502/mod.rs:38-53 | pc comes from the reset vector at 0xFFFC/0xFFFD; A = X = Y = 0, sp = 0xFD, only Unused set (flags byte 0x20), 8 cycles |
| Mos6502.Cpu.Nmi | src/bus/src/mos6502/mod.rs:58-70 | succeeds exactly when sp >= 3; pushes pc high, then pc low, then the flags with Break clear and Unused and DisableInterrupt set; jumps through 0xFFFA/0xFFFB; 8 cycles |
| Mos6502.ZeroPageIndexed | src/bus/src/mos6502/mod.rs:136-147 | `(arg + index) % 256` lies in page zero, and its low byte is the wrapping sum |
| Mos6502.AbsoluteIndexed | src/bus/src/mos6502/mod.rs:152-173 | the indexed address is base + index, and it aborts past 0xFFFF; the extra cycle is 1 exactly when the high byte changes, which is exactly when the low byte plus the index carries |
| Mos6502.IndirectXPointer | src/bus/src/mos6502/mod.rs:174-180 | the pointer's bytes are read at `(arg + X) & 0xFF` and at the next zero-page byte, so they wrap inside page zero |
| Mos6502.IndirectYBase | src/bus/src/mos6502/mod.rs:181-187 | the base's bytes are read at `arg` and `(arg + 1) & 0xFF` |
| Mos6502.EffectiveAddress | src/bus/src/mos6502/mod.rs:126-198 | Implicit, Accumulator and Indirect are refused; pc = 0xFFFF aborts on `pc + 1`; zero-page modes stay in page zero; only AbsoluteX, AbsoluteY and IndirectY can charge the one extra cycle |
| Mos6502.RmwAddress | src/bus/src/mos6502/opcodes/rmw/asl.rs:18-34 | the write-back address of the read-modify-write handlers is the address the operand was read from; modes other than ZeroPage, ZeroPageX, Absolute and AbsoluteX are `unreachable!` |
| Mos6502.AddressModeFetch | src/bus/src/mos6502/mod.rs:126-200 | Accumulator yields A with no extra cycle; Implicit and Indirect abort; every other mode reads the byte at the effective address and reports its page-crossing cycle, at most 1 |
| Opcodes.Optable | src/mos6502/src/opcodes/mod.rs:43-95 | every populated slot holds its own opcode, and every slot named "IVL" is the zero-cycle, zero-byte `invalid` entry; no slot takes more than seven base cycles |
| Opcodes.Row0 | src/mos6502/src/opcodes/mod.rs:45-60 | slots 0x00 to 0x0F keep the slot contract |
| Opcodes.Row1 | src/mos6502/src/opcodes/mod.rs:62-77 | slots 0x10 to 0x1F keep the slot contract |
| Opcodes.Row2 | src/mos6502/src/opcodes/mod.rs:79-94 | slots 0x20 to 0x2F keep the slot contract |
| Opcodes.ParseInstruction | src/mos6502/src/opcodes/mod.rs:98-100 | succeeds exactly for the 48 populated slots and returns the entry for that opcode; any later opcode is out of bounds |
| Decoder.Decode | src/mos6502/src/lib.rs:26-54 | decodes exactly the opcodes 0x00 to 0x02, none with the page-crossing flag; every other byte panics |
| Decoder.DecoderAgreesWithTable | src/mos6502/src/lib.rs:28-51 | BRK and ORA decode as the table has them; 0x02 decodes as NOP where the table has an invalid slot |
| Alu.CarryIn | src/bus/src/mos6502/opcodes/alu/adc.rs:13 | the carry fed into a sum is 0 or 1, and it is 1 exactly when Carry is set |
| Alu.AddOverflowBySigns | src/bus/src/mos6502/opcodes/alu/adc.rs:19 | ADC's test (the result's sign differs from both addends') holds exactly when the signed sum leaves -128..127 |
| Alu.AddWithCarrySpec | src/bus/src/mos6502/opcodes/alu/adc.rs:9-24 | A becomes (A + M + C) mod 256; Carry exactly when the unsigned sum passes 0xFF; Overflow exactly when the signed sum leaves -128..127; Zero and Negative follow the result; the other flags are kept |
| Alu.AddWithCarryNegativeOverflow | src/bus/src/mos6502/opcodes/alu/adc.rs:97-109 | 0x83 + 0x83 gives 0x06 with Carry and Overflow, as the ADC test expects |
| Alu.AddWithCarryPositiveOverflow | src/bus/src/mos6502/opcodes/alu/adc.rs:19 | 0x7F + 0x01 gives 0x80 with Overflow and Negative and no Carry |
| Alu.SubOverflowBySigns | src/mos6502/src/opcodes/alu/sbc.rs:9-24 | SBC's sign test for overflow holds exactly when the signed difference leaves -128..127 |
| Alu.SubtractConditions | src/mos6502/src/opcodes/alu/sbc.rs:9-24 | the two wrapping subtractions give (A - M - borrow) mod 256, and neither wraps exactly when A >= M + borrow |
| Alu.SubtractWithBorrowSpec | src/mos6502/src/opcodes/alu/sbc.rs:9-24 | A becomes (A - M - (1 - C)) mod 256; Carry exactly when nothing was borrowed; Overflow exactly when the signed difference leaves -128..127; Zero and Negative follow the result |
| Alu.SubtractWithBorrowExamples | src/mos6502/src/opcodes/alu/sbc.rs:39-115 | 12 - 10 with Carry gives 2 with Carry; 10 - 10 without it gives 0xFF with Negative; 3 - 0x82 gives 0x80 with Overflow and Negative |
| Alu.SubtractIsAddOfComplement | src/mos6502/src/opcodes/alu/sbc.rs:9-24 | SBC of M is ADC of the one's complement of M, in the result and in all four flags |
| Alu.CompareSpec | src/bus/src/mos6502/opcodes/control/cpx.rs:8-17 | a compare writes only Carry (R >= M), Zero (R == M) and Negative (bit 7 of R - M mod 256) |
| Alu.CompareExamples | src/bus/src/mos6502/opcodes/control/cpx.rs:30-92 | the CPX vectors: 0x00 against 0x10 raises N only; 0x20 against 0x10 clears N and Z; equal bytes give C and Z |
| Alu.CompareAsWritten | src/bus/src/mos6502/opcodes/alu/cmp.rs:7-15 | CMP as written succeeds exactly when M <= A, because `a - fetched` is the panicking subtraction |
| Alu.CompareAsWrittenAgrees | src/bus/src/mos6502/opcodes/alu/cmp.rs:7-15 | where CMP as written does not abort, it sets the flags as CPX/CPY's wrapping compare does |
| Alu.CompareAsWrittenAbortsBelow | src/bus/src/mos6502/opcodes/alu/cmp.rs:12 | A = 0x05 against M = 0x85 aborts, although the wrapping compare gives C clear, Z clear, N set |
| Alu.BitTestSpec | src/bus/src/mos6502/opcodes/control/bit.rs:10-18 | Zero exactly when A & M is 0; Overflow and Negative are bits 6 and 7 of M; the other flags are kept |
| Alu.BitTestExamples | src/bus/src/mos6502/opcodes/control/bit.rs:31-151 | the BIT vectors: 0x00 & 0x40 gives V and Z; 0x01 & 0x81 gives N only |
| Alu.ShiftLeftSpec | src/bus/src/mos6502/opcodes/rmw/asl.rs:10-43 | the result is 2M mod 256; Carry is the bit shifted out; Negative is the new bit 7; Zero follows the result |
| Alu.ShiftRightSpec | src/bus/src/mos6502/opcodes/rmw/lsr.rs:8-45 | twice the result plus the new Carry is M, and Negative ends clear |
| Alu.RotateLeftSpec | src/bus/src/mos6502/opcodes/rmw/rol.rs:7-40 | the result is 2M + C mod 256 and the new Carry is the old bit 7: no bit is lost |
| Alu.RotateRightSpec | src/bus/src/mos6502/opcodes/rmw/ror.rs:7-40 | the result is M / 2 + 128C and the new Carry is the old bit 0; Negative is the old Carry |
| Alu.ShiftExamples | src/bus/src/mos6502/opcodes/rmw/asl.rs:56-127 | the ASL and LSR test vectors (0x81, 0x41, 0x09) give the expected bytes and flags |
| Alu.RotateExamples | src/bus/src/mos6502/opcodes/rmw/rol.rs:53-124 | the ROL and ROR test vectors (0x81, 0x40, 0x80, with and without Carry in) give the expected bytes and flags |
| Alu.RotateRoundTrip | src/bus/src/mos6502/opcodes/rmw/ror.rs:7-40 | ROL and then ROR through Carry restores the byte and the Carry |
| Alu.IncrementDecrementSpec | src/mos6502/src/opcodes/rmw/inc.rs:10-39 | INC and DEC step by one modulo 256 and touch only Zero and Negative; INC gives zero only from 0xFF, DEC only from 1 |
| Alu.IncrementDecrementInverse | src/mos6502/src/opcodes/rmw/inc.rs:10-39 | INC and DEC undo each other, across the 0x00/0xFF wrap too |
| Alu.IncrementDecrementExamples | src/mos6502/src/opcodes/rmw/inc.rs:54-108 | 0xFF + 1 = 0 with Z; 0x7F + 1 = 0x80 with N; 0x00 - 1 = 0xFF with N; 0x01 - 1 = 0 with Z |
| Alu.RaiseZeroNegativeSpec | src/bus/src/mos6502/opcodes/control/pla.rs:6-18 | PLA raises Zero for a zero byte and Negative for bit 7, and never lowers either |
| Alu.CheckedBranchTarget | src/mos6502/src/opcodes/control/beq.rs:13-20 | BEQ's target is pc + signed offset, succeeding exactly when it stays within 0..0xFFFF and the offset is not 0x80 (`i8::abs(-128)` overflows) |
| Alu.WrappingBranchTarget | src/mos6502/src/opcodes/control/bcs.rs:7-32 | BCS's target is pc + signed offset modulo 2^16 |
| Alu.BranchTargetsAgree | src/mos6502/src/opcodes/control/beq.rs:13-20 | wherever BEQ's checked target exists, it equals BCS's wrapping target |
| Alu.BranchCycles | src/mos6502/src/opcodes/control/beq.rs:22-27 | a taken branch costs 1 extra cycle, or 2 exactly when the target is on another page |
| AluHandlers.Adc | src/bus/src/mos6502/opcodes/alu/adc.rs:9-24 | A and the flags become those of `AddWithCarry` of the fetched operand; pc advances by the length; the fetch's extra cycle is returned; memory, X, Y and sp are kept |
| AluHandlers.And | src/bus/src/mos6502/opcodes/alu/and.rs:8-16 | A becomes A & M; Zero and Negative are written both ways from it; pc advances; the extra cycle is returned (stated as `AndEffect`) |
| AluHandlers.Cmp | src/bus/src/mos6502/opcodes/alu/cmp.rs:7-15 | A is kept; the flags are those of `CompareAsWritten`, so A < M aborts; pc advances |
| AluHandlers.Eor | src/bus/src/mos6502/opcodes/alu/eor.rs:8-16 | A becomes A ^ M, with Zero and Negative written both ways; pc advances |
| AluHandlers.Sta | src/bus/src/mos6502/opcodes/alu/sta.rs:7-13 | as written: A takes the fetched byte; memory and the flags are kept; pc advances; no extra cycle |
| ControlHandlers.Bit | src/bus/src/mos6502/opcodes/control/bit.rs:10-18 | A is kept; the flags are those of `BitTest`; pc advances; no extra cycle (stated as `BitEffect`) |
| ControlHandlers.Brk | src/bus/src/mos6502/opcodes/control/brk.rs:9-22 | succeeds exactly when pc + bytes fits and sp >= 3; pushes pc + bytes high byte first, then the flags with Break and DisableInterrupt set; keeps Break clear in the live flags; jumps through 0xFFFE/0xFFFF (stated as `BrkEffect`) |
| ControlHandlers.Clc | src/bus/src/mos6502/opcodes/control/clc.rs:5-10 | only Carry changes, and it is cleared; pc advances (stated as `ClcEffect`) |
| ControlHandlers.Cpx | src/bus/src/mos6502/opcodes/control/cpx.rs:8-17 | X is kept; the flags are those of `Compare(X, M)`; pc advances; the extra cycle is returned |
| ControlHandlers.Cpy | src/bus/src/mos6502/opcodes/control/cpy.rs:8-17 | Y is kept; the flags are those of `Compare(Y, M)`; pc advances |
| ControlHandlers.Jsr | src/bus/src/mos6502/opcodes/control/jsr.rs:7-20 | pushes pc + bytes - 1, high byte first, then jumps to the operand word at pc + 1; the flags and A, X, Y are kept (stated as `JsrEffect`) |
| ControlHandlers.Pla | src/bus/src/mos6502/opcodes/control/pla.rs:6-18 | A becomes the pulled byte; Zero and Negative are raised by `RaiseZeroNegative`; pc advances by 1; an empty stack aborts |
| ControlHandlers.Rti | src/bus/src/mos6502/opcodes/control/rti.rs:7-14 | succeeds exactly when sp <= 0xFC; the flags are the pulled byte with Break and DisableInterrupt cleared; pc is the next two pulled bytes, low first; sp rises by 3 |
| ControlHandlers.Rts | src/bus/src/mos6502/opcodes/control/rts.rs:7-12 | pulls the return address, low byte first, and resumes `bytes` past it; sp rises by 2; the flags are kept |
| ControlHandlers.Sed | src/bus/src/mos6502/opcodes/control/sed.rs:5-10 | only Decimal changes, and it is set; pc advances |
| ControlHandlers.Tya | src/bus/src/mos6502/opcodes/control/tya.rs:8-15 | A becomes Y, with Zero and Negative written both ways; pc advances |
| RmwHandlers.Asl | src/bus/src/mos6502/opcodes/rmw/asl.rs:10-43 | the result of `ShiftLeft` goes to A in Accumulator mode, otherwise to the byte the operand was read from, and nowhere else; pc advances (stated as `AslEffect`) |
| RmwHandlers.Lsr | src/bus/src/mos6502/opcodes/rmw/lsr.rs:8-45 | the result of `ShiftRight` is written back to where the operand came from |
| RmwHandlers.Rol | src/bus/src/mos6502/opcodes/rmw/rol.rs:7-40 | the result of `RotateLeft` is written back to where the operand came from (stated as `RolEffect`) |
| RmwHandlers.Ror | src/bus/src/mos6502/opcodes/rmw/ror.rs:7-40 | the result of `RotateRight` is written back to where the operand came from |
| RmwHandlers.Dec | src/bus/src/mos6502/opcodes/rmw/dec.rs:8-36 | the operand minus one, wrapping, replaces exactly the byte it was read from; Zero and Negative follow; A, X and Y are kept; Accumulator mode aborts |
| RmwHandlers.Dex | src/bus/src/mos6502/opcodes/rmw/dex.rs:7-14 | X becomes X - 1, wrapping, with Zero and Negative written both ways |
| LegacyAlu.Sbc | src/mos6502/src/opcodes/alu/sbc.rs:9-24 | A and the flags become those of `SubtractWithBorrow`; pc advances; the extra cycle is returned |
| LegacyRmw.Inc | src/mos6502/src/opcodes/rmw/inc.rs:10-39 | the operand plus one, wrapping, replaces exactly the byte it was read from; Zero and Negative follow; modes that cannot be written back abort |
| LegacyRmw.Ldx | src/mos6502/src/opcodes/rmw/ldx.rs:9-17 | X takes the operand, with Zero and Negative written both ways |
| LegacyRmw.Txa | src/mos6502/src/opcodes/rmw/txa.rs:9-16 | A takes X, with Zero and Negative written both ways |
| LegacyRmw.Txs | src/mos6502/src/opcodes/rmw/txs.rs:8-13 | sp takes X, and no flag changes |
| LegacyControl.Bcs | src/mos6502/src/opcodes/control/bcs.rs:7-32 | with Carry set, pc becomes `WrappingBranchTarget` and 1 or 2 extra cycles are returned; otherwise pc steps over the instruction |
| LegacyControl.Beq | src/mos6502/src/opcodes/control/beq.rs:7-35 | with Zero set, pc becomes `CheckedBranchTarget` or the branch aborts; otherwise pc steps over the instruction |
| LegacyControl.Clv | src/mos6502/src/opcodes/control/clv.rs:8-13 | only Overflow changes, and it is cleared; pc steps over the opcode |
| LegacyControl.Dey | src/mos6502/src/opcodes/control/dey.rs:8-15 | Y becomes Y - 1, wrapping, with Zero and Negative written both ways |
| LegacyControl.IndirectHighAddr | src/mos6502/src/opcodes/control/jmp.rs:19-25 | the high byte of an indirect target is read from the byte after the pointer, except that a pointer ending a page wraps to the start of the same page |
| LegacyControl.Jmp | src/mos6502/src/opcodes/control/jmp.rs:8-33 | Absolute jumps to the operand word; Indirect jumps to the word at the pointer, with its high byte read at `IndirectHighAddr`; other modes abort |
| LegacyControl.Ldy | src/mos6502/src/opcodes/control/ldy.rs:9-17 | Y takes the operand, with Zero and Negative written both ways |
| LegacyControl.Php | src/mos6502/src/opcodes/control/php.rs:7-12 | pushes the status byte as it is, and the flags are kept (stated as `PhpEffect`) |
| LegacyControl.Plp | src/mos6502/src/opcodes/control/plp.rs:7-13 | the status register takes every bit of the pulled byte (stated as `PlpEffect`) |
| LegacyControl.Sty | src/mos6502/src/opcodes/control/sty.rs:8-14 | as written: Y takes the fetched byte; memory and the flags are kept |
| Scaffold.Stub | src/mos6502/src/opcodes/control.rs:12-15 | an unimplemented handler changes nothing and reports 0 cycles |
| Scaffold.Clc | src/mos6502/src/opcodes/control.rs:29-33 | only Carry changes, and it is cleared; pc stays |
| Scaffold.Sec | src/mos6502/src/opcodes/control.rs:94-98 | only Carry changes, and it is set |
| Scaffold.Cli | src/mos6502/src/opcodes/control.rs:43-47 | only DisableInterrupt changes, and it is cleared |
| Scaffold.Sei | src/mos6502/src/opcodes/control.rs:51-55 | only DisableInterrupt changes, and it is set |
| Scaffold.Clv | src/mos6502/src/opcodes/control.rs:152-156 | only Overflow changes, and it is cleared |
| Scaffold.Cld | src/mos6502/src/opcodes/control.rs:175-179 | only Decimal changes, and it is cleared |
| Scaffold.Sed | src/mos6502/src/opcodes/control.rs:198-202 | only Decimal changes, and it is set |
| Scaffold.Rts | src/mos6502/src/opcodes/control/mod.rs:75-86 | succeeds exactly when sp <= 0xFD; pc is the two pulled bytes, high byte first, and is not advanced |
| Scaffold.Rti | src/mos6502/src/opcodes/control/mod.rs:90-103 | pulls the flags byte exactly, then pc high and low |
| Scaffold.And | src/mos6502/src/opcodes/alu.rs:17-46 | reads Immediate, ZeroPage or ZeroPageX and aborts in any other mode; A becomes A & M; Zero and Negative are only ever raised; pc advances |
| Unofficial.Invalid | src/mos6502/src/opcodes/unofficial.rs:7-10 | always aborts with an invalid-opcode fault |
| Interpreter.Dispatch | src/bus/src/mos6502/mod.rs:76 | the outcome and the new registers and memory are exactly those the named handler's contract gives (`Dispatched`); `invalid` and the stubs change nothing; handlers that only read memory leave it as it was; only AND returns an extra cycle, and that is the page-crossing cycle of its operand fetch |
| Interpreter.Execute | src/bus/src/mos6502/mod.rs:74-79 | opcodes past the populated slots, and invalid slots, abort with nothing changed; otherwise the entry's handler has run (`Dispatched`, on success and on failure alike) and the result is the entry's base cycles plus exactly the extra cycle the AND operand fetch reports, and none for any other handler |
| INes.NewHeader | src/bus/src/inesformat/header.rs:50-62 | every field is zero, so the magic constant does not match |
| INes.HeaderOf | src/bus/src/inesformat/header.rs:64-91 | an accepted header has the magic constant, non-zero PRG and CHR sizes, and zero padding |
| INes.HeaderFrom | src/bus/src/inesformat/header.rs:64-91 | accepts exactly the magic constant, non-zero sizes and 11 readable bytes, and returns bytes 0 to 10 in order; errors come in the source's order: short input, bad magic, zero PRG, zero CHR |
| INes.FormatVersion | src/bus/src/inesformat/header.rs:93-98 | refuses exactly the headers whose flags 7 low nibble is 8 to 11 (the NES 2.0 marker); all others are version 1 |
| INes.MapperId | src/bus/src/inesformat/header.rs:100-105 | the low nibble of the mapper number is flags 6's high nibble and its high nibble is flags 7's; NES 2.0 is refused |
| INes.ImageLength | src/bus/src/inesformat/format.rs:39-53 | an accepted header describes at least a header, one PRG unit and one CHR unit |
| INes.FromBytes | src/bus/src/inesformat/format.rs:34-56 | succeeds exactly for an accepted header whose sections fit; the trainer, PRG-ROM and CHR-ROM have their announced lengths and together are exactly the bytes after the header up to the image's end; the PlayChoice sections stay empty; a short file aborts |
| INes.LegacyFromBytes | src/bus/src/cartridge/mod.rs:37-58 | as written: a header with the trainer bit always aborts; otherwise it slices PRG and CHR as `FromBytes` does |
| INes.LoadersAgree | src/bus/src/cartridge/mod.rs:37-58 | where both loaders succeed, they produce the same image |
| INes.SampleImage | src/bus/src/inesformat/format.rs:74-89 | the sample file is 24592 bytes long |
| INes.SampleImageLayout | src/bus/src/inesformat/format.rs:74-89 | the sample is accepted and has no trainer; it is exactly the header, 16384 bytes of 0xEE and 8192 bytes of 0xDD |
| Disassembler.DigitDenotes | src/mos6502-disassembler/src/lib.rs:30 | each upper-case hex digit printed denotes its value |
| Disassembler.Hex2 | src/mos6502-disassembler/src/lib.rs:30 | `{:02X}` is two hex digits that denote the byte |
| Disassembler.Hex4 | src/mos6502-disassembler/src/lib.rs:30 | `{:04X}` is four hex digits that denote the word |
| Disassembler.Spaces | src/mos6502-disassembler/src/lib.rs:33 | `{:<n}` of the empty string is n spaces |
| Disassembler.ParseU8 | src/mos6502-disassembler/src/lib.rs:128-130 | the byte after the opcode; reading past the program aborts |
| Disassembler.ParseU16 | src/mos6502-disassembler/src/lib.rs:123-126 | the two bytes after the opcode, little-endian; reading past the program aborts |
| Disassembler.RelativeTarget | src/mos6502-disassembler/src/lib.rs:106-117 | the printed target is the CPU's wrapping branch target, taken from the address of the next instruction |
| Disassembler.OperandText | src/mos6502-disassembler/src/lib.rs:64-121 | the operand text succeeds exactly when the operand bytes lie inside the program |
| Disassembler.IndirectYPrintedAsIndirectX | src/mos6502-disassembler/src/lib.rs:103-105 | an IndirectY operand is printed exactly as an IndirectX one |
| Disassembler.LineHead | src/mos6502-disassembler/src/lib.rs:30 | a verbose line starts with the four-digit address and ": " |
| Disassembler.VerbosePrefix | src/mos6502-disassembler/src/lib.rs:29-48 | the verbose prefix of a valid instruction is 17 columns and starts with its address `base + pos`, which must not pass 0xFFFF |
| Disassembler.InvalidPrefix | src/mos6502-disassembler/src/lib.rs:15-22 | the verbose prefix of an invalid opcode is 17 columns and starts with its address |
| Disassembler.Decode | src/mos6502-disassembler/src/lib.rs:11-58 | an invalid opcode prints "??? " and moves on by one byte without ending; a valid one prints a line ending in a newline, moves on by its length, and ends exactly on the program's end |
| Disassembler.VerboseColumnsAlign | src/mos6502-disassembler/src/lib.rs:15-48 | a verbose line is the plain line behind a 17-column prefix that starts with the address, and both move on alike |
| Disassembler.InvalidColumnsAlign | src/mos6502-disassembler/src/lib.rs:15-23 | the same alignment for an invalid opcode |
| Disassembler.ValidColumnsAlign | src/mos6502-disassembler/src/lib.rs:29-53 | the same alignment for a valid instruction |
| Disassembler.Disassembly | src/mos6502-disassembler/src/lib.rs:3-62 | an empty program is refused, and every listing ends with a newline |
| Disassembler.Disassemble | src/mos6502-disassembler/src/lib.rs:3-62 | the loop's output is exactly the listing `Disassembly` defines |
| Disassembler.ListingEndsWithNewline | src/mos6502-disassembler/src/lib.rs:120 | every successful listing is non-empty and ends with a complete line |
| Disassembler.InvalidLastByteAborts | src/mos6502-disassembler/src/lib.rs:23-25 | an invalid opcode as the last byte aborts, because the loop reads past the end |
| Disassembler.OverrunAborts | src/mos6502-disassembler/src/lib.rs:36-46 | an instruction longer than the rest of the program aborts the listing |
| Disassembler.ImplicitLine | src/mos6502-disassembler/src/lib.rs:50-51 | an implicit instruction is listed as its name, a space and a newline, and the loop moves on by one byte |
| Disassembler.ImmediateLine | src/mos6502-disassembler/src/lib.rs:76-78 | an immediate operand is listed as "#$" and the two hex digits of the byte after the opcode |
| Disassembler.AbsoluteLine | src/mos6502-disassembler/src/lib.rs:88-90 | an absolute operand is listed as "$" and the little-endian word after the opcode, high byte first |
| Disassembler.RelativeLine | src/mos6502-disassembler/src/lib.rs:106-117 | a branch operand is listed as "$" and its target, the wrapping sum of the next instruction's address and the signed offset |
| Disassembler.VerboseLine | src/mos6502-disassembler/src/lib.rs:29-48 | the verbose line is the plain line behind the address-and-bytes prefix, and both move on alike |
| Disassembler.ListedTurn | src/mos6502-disassembler/src/lib.rs:11-58 | an implicit, immediate, absolute or relative instruction is listed as its name and operand text, behind the verbose prefix when listing verbosely, and the loop moves on by its length |
| Disassembler.WalkedListing | src/mos6502-disassembler/src/lib.rs:3-62 | a walk of the loop through the program, line after line until the end, makes the listing the lines joined in order |
| Disassembler.SimpleProgramListing | src/mos6502-disassembler/src/lib.rs:137-157 | the simple test program is listed plainly as the seven lines the test expects, in order |
| Disassembler.SimpleProgramVerboseListing | src/mos6502-disassembler/src/lib.rs:137-166 | the simple test program is listed verbosely as the seven lines the test expects, each behind its address and bytes |
| Disassembler.BranchProgramListing | src/mos6502-disassembler/src/lib.rs:170-192 | the branch test program is listed as the ten lines the test expects, jumps and branches with their targets, a backward branch included |
| Properties.PushesPullInReverse | src/bus/src/mos6502/mod.rs:104-122 | two pushes and then two pulls return the bytes in reverse order and restore sp |
| Properties.CallThenReturn | src/bus/src/mos6502/opcodes/control/jsr.rs:7-20 | a three-byte JSR followed by RTS resumes at the instruction after the JSR, with sp, the flags and A, X, Y as they were |
| Properties.InterruptThenReturn | src/bus/src/mos6502/mod.rs:58-70 | an NMI followed by RTI resumes at the interrupted pc with sp restored; the flags return with Break and DisableInterrupt clear and Unused set |
| Properties.BreakThenReturn | src/bus/src/mos6502/opcodes/control/brk.rs:9-22 | BRK followed by RTI resumes `bytes` past the BRK with sp restored, and the flags return with Break and DisableInterrupt clear |
| Properties.ScaffoldReturnToPushedWord | src/mos6502/src/opcodes/control/mod.rs:168-185 | the scaffold RTS after pushing a word's low and then high byte resumes at that word, with sp restored |
| Properties.ScaffoldInterruptReturn | src/mos6502/src/opcodes/control/mod.rs:145-166 | the scaffold RTI after pushing a word and a flags byte restores both exactly |
| Properties.BranchVectors | src/mos6502/src/opcodes/control/beq.rs:50-144 | the branch tests' targets and extra cycles, and BEQ by 0x80 aborting from any pc |
| Properties.IndirectJumpVectors | src/mos6502/src/opcodes/control/jmp.rs:97-112 | a pointer at 0x12FF takes its high byte from 0x1200; one at 0x1234 reads 0x1235 |
| Properties.FlagVectors | src/mos6502/src/opcodes/control.rs:221-295 | the CLC, SEC, CLI, SEI, CLV, CLD and SED test bytes |
| Properties.ReturnFromInterruptVector | src/bus/src/mos6502/opcodes/control/rti.rs:27-49 | the pulled flags 0b1000_0011 come back unchanged |
| Properties.ReturnFromInterruptScenario | src/bus/src/mos6502/opcodes/control/rti.rs:27-49 | the RTI test run on a fresh CPU: pc 0x1234, sp 0xFF, flags 0x83 |
| Properties.BreakFlagsVector | src/bus/src/mos6502/opcodes/control/brk.rs:45-60 | from flags 0b0000_0011, BRK pushes 0b0001_0111 and keeps 0b0000_0111 |
| Properties.BreakScenario | src/bus/src/mos6502/opcodes/control/brk.rs:36-61 | BRK's disabled test run on a fresh CPU: pc 0x1234, sp 0xFC, flags 0x07, 0x0801 at 0x01FE, 0x17 at 0x01FD, the vector intact |

## Left out

- PHA: the older crate declares and re-exports a `pha` module (src/mos6502/src/opcodes/control/mod.rs:9 and :34), but its file, src/mos6502/src/opcodes/control/pha.rs, is not part of this model, so that implementation is not modelled. The scaffold's `pha` (src/mos6502/src/opcodes/control.rs:82-85) only prints and returns 0, so it is one of the print-only handlers `Scaffold.Stub` models. The 48-slot table `Interpreter.Execute` dispatches through stops at 0x2F, so no dispatch reaches PHA (0x48).
- `cpu_read_u8`/`cpu_write_u8` are implemented outside the files modelled. Here they read and write the flat RAM, as `read_u8`/`write_u8` do. Mirroring and the `read_only` argument are not modelled.
- The scaffold's `bus.read_address` is taken to be `read_u8`.
- The older crate's `Mos6502` struct and its `address_mode_fetch` are not part of this model. Its handlers run here on the newer crate's `Cpu`.
- The newer crate's 256-entry `OPTABLE` is not part of this model. `Interpreter.Execute` dispatches through the older 48-slot table. The disassembler takes its table as a parameter.
- Interpreter.Dispatch: the older table's entries name handler functions, and the model binds each name to one implemented handler. `brk`, `asl`, `clc`, `jsr`, `and`, `bit` and `rol` are the newer crate's handlers. `php` and `plp` are the older crate's, the only ones among the files modelled. `invalid` is `Unofficial.Invalid`. `ora` and `bpl` have no implementation among the files modelled, so they run `Scaffold.Stub`, which changes nothing and reports no extra cycle.
- LegacyAlu.Sbc: the older crate calls `set_flag_cond`, which is defined nowhere in the source. The model reads it as the newer crate's `write_flag_cond` (src/bus/src/mos6502/mod.rs:91), which sets the flag when the condition holds and clears it otherwise. A reading that only ever sets the flag is also possible, and the older crate's tests do not tell the two apart. The older `and.rs` calls it too, and is therefore the same as `AluHandlers.And`, which models it.
- Disassembler.Disassembly: the table parameter must give every valid entry a length of at least one byte. With a zero-length entry the source's loop would never end.
- The scaffold stubs in `src/mos6502/src/opcodes/rmw.rs` and the other print-only handlers are modelled as one `Scaffold.Stub`, which changes nothing.
- `println!` logging, file reading (`read_file`), the GUI, the PPU and the cartridge's header copy `cartridge/header.rs` are not part of this model. That header file is taken to match `inesformat/header.rs`.
- The instruction cycle counter is kept only where a handler writes it (reset and NMI). The clock, IRQ and the remaining-cycles countdown are not implemented in the source.
- AluHandlers.Sta, LegacyControl.Sty: modelled as written, as loads into the register, because the source's tests assert that. The 6502's store into memory is not modelled.

## Findings

| source | as written | input that shows it | evidently intended | confidence | as-written member | corrected member |
|---|---|---|---|---|---|---|
| src/bus/src/mos6502/opcodes/alu/cmp.rs:12 | Negative is computed from `cpu.a - fetched`, the panicking `u8` subtraction | A = 0x05, M = 0x85 | the wrapping difference, as CPX and CPY compute it: C and Z clear, N set | not executed | Alu.CompareAsWrittenAbortsBelow | Alu.CompareSpec |
| src/bus/src/cartridge/mod.rs:45-47 | the trainer is copied into `rom.trainer`, which is never resized from empty, so `copy_from_slice` panics on the length mismatch | any accepted image with bit 2 of flags 6 set | resize the trainer to 512 bytes first, as `inesformat/format.rs:43` does | not executed | INes.LegacyFromBytes | INes.FromBytes |
