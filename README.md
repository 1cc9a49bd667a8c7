# NES emulator core in Dafny

This project models the core of a small NES emulator written in Rust and proves properties of that model:

- the 6502 CPU interpreter: registers, status flags, stack, addressing modes, every instruction handler, the fetch–decode–execute loop and NMI entry;
- the opcode table that maps an opcode byte to its mnemonic, length, cycle count and addressing mode;
- the PPU control, mask, status and scroll registers;
- the frame renderer: the background passes with scrolling and nametable mirroring, and the sprite pass.

Layout:

- `wrappers.dfy` (`Wrappers`): `Option` and `Result`.
- `bytes.dfy` (`Bytes`): 8- and 16-bit words as bounded integers.
  - Rust's `wrapping_add`/`wrapping_sub` are written out explicitly.
  - `&`, `|`, `^` are defined bit by bit and characterised through bit lists.
  - `>>` is repeated halving.
- `opcodes.rs` is modelled in `opcodes.dfy` (`Opcodes`):
  - the `CpuFlags` layout as a record of eight booleans with `Bits`/`FromBitsTruncate`;
  - the addressing modes and mnemonics;
  - `Decode`, which plays the part of `OPCODES_MAP`;
  - the structural facts of the table.
- `core.rs` is modelled twice:
  - `cpu_model.dfy` (`CpuModel`) gives the meaning of every operation as a function on a `Machine` value: registers, `Flags`, program counter, stack pointer, 64 KiB RAM and a cycle counter.
  - `cpu.dfy` (`Core`) is the imperative CPU. Class `Cpu` has the register fields and a 64 KiB `memory` array. Each of its methods is proved to leave the CPU in the state the matching `CpuModel` function computes.
  - `cpu_properties.dfy` (`CpuProperties`) proves what the handlers promise about the model:
    - ADC/SBC arithmetic;
    - stack round trips, JSR/RTS, PHP/PLP, NMI entry and RTI;
    - addressing wrap-around and the indirect JMP page bug;
    - PC advance after a handler;
    - the source's shift quirks;
    - short programs run to BRK.
- `ppu_registers.dfy` (`PpuRegisters`): the register decoders as functions, and each register as a class whose methods update its bits.
- `render.dfy` (`Render`):
  - `bg_pallette`, `sprite_palette` and tile decoding as functions;
  - the frame as a class over a 256×240 `array2` of system-palette indices;
  - `render_name_table`, the sprite pass and `render` as nested loops. Each loop is proved against a per-pixel specification of the final frame.

Rust behaviour that panics in a build with overflow checks (the debug profile) appears in the model as an explicit fault value:

- arithmetic that does not wrap (`program_counter += 1`, `pos + 1`, `+ 1` after `stack_pop_u16`, `program_counter += len - 1`) and overflows becomes `Fault.ArithmeticOverflow`;
- a missing `OPCODES_MAP` key becomes `Fault.UnknownOpcode`;
- an addressing mode the handler cannot resolve becomes `Fault.UnsupportedMode`;
- an unsupported mirroring mode becomes `RenderFault.UnsupportedMirroring`;
- an underflowing `240 - scroll_y` becomes `RenderFault.ScrollUnderflow`.

So `Step` and `Run` are total.

## Model

Each `Core.Cpu` method is proved equal, through `Snapshot()`, to its `CpuModel` namesake, so its row also covers that function (`CpuModel.Execute`, `CpuModel.Step`, `CpuModel.Perform`, `CpuModel.Run` and the others). Where a definition has no contract of its own, the row of the member that characterises it names it.

| member | source | states |
|---|---|---|
| Bytes.Word | src/core.rs:15-19 | `(hi << 8) \| lo` has high byte `hi` and low byte `lo` |
| Bytes.WordOfBytes | src/core.rs:21-26 | splitting a word into `data >> 8` and `data & 0xff` and joining the halves gives the word back |
| Bytes.WrappingAdd8 | src/core.rs:185-188 | `u8::wrapping_add` is the plain sum below 256 and the sum minus 256 otherwise |
| Bytes.WrappingSub8 | src/core.rs:190-193 | `u8::wrapping_sub` is the plain difference when it is not negative and the difference plus 256 otherwise |
| Bytes.WrappingAdd16 | src/core.rs:707-716 | `u16::wrapping_add` is the plain sum below 65536 and the sum minus 65536 otherwise |
| Bytes.Signed | src/core.rs:553-557 | `byte as i8` lies in -128..127, is negative exactly when bit 7 is set, and is congruent to the byte modulo 256 |
| Bytes.AndZero | src/core.rs:576-587 | `a & b == 0` exactly when no bit position is set in both operands |
| Bytes.XorSign | src/core.rs:304-330 | bit 7 of `a ^ b` is set exactly when the operands' bit 7 differ |
| Bytes.AndSignMask | src/core.rs:142-162 | `v & 0x80 != 0` exactly when `v` is at least 0x80, the sign test the flag updates use |
| Bytes.BitOfShr | src/render.rs:96-111 | bit k of a byte is `(v >> k) & 1` |
| Opcodes.FlagsLayout | src/opcodes.rs:19-28 | the eight flag masks are exactly the powers of two 2^0 … 2^7, and all flags together are 0xFF |
| Opcodes.FromBitsTruncate | src/opcodes.rs:19-28 | the flag record read from a byte has flag k set exactly when bit k of the byte is set |
| Opcodes.FromBitsOfBits | src/opcodes.rs:19-28 | covers `Opcodes.Bits`, the flags' `bits()`: reading back the bits of a flag set gives the same flag set |
| Opcodes.BitsOfFromBits | src/opcodes.rs:19-28 | `from_bits_truncate` loses nothing: the bits of the decoded flags are the original byte |
| Opcodes.FromBits | src/core.rs:543-549 | `CpuFlags::from_bits`, when it succeeds, agrees with `from_bits_truncate` |
| Opcodes.FromBitsTotal | src/core.rs:543-549 | `from_bits` never fails, since all eight bits are defined, so RTI's `expect` cannot panic |
| Opcodes.DecodeFacts | src/opcodes.rs:52-327 | covers `Opcodes.Decode`, the `OPCODES_MAP` lookup over the table: a byte is missing from the opcode map exactly when it is one of the 25 listed absent codes. Every present entry's code equals its key. Immediate, zero-page and indirect entries are 2 bytes long and absolute entries are 3. No-operand entries are 1 byte long, except the eight branches (2) and indirect JMP (3) |
| Opcodes.Row0Facts | src/opcodes.rs:52-318 | the table facts for opcodes 0x00–0x0F |
| Opcodes.Row1Facts | src/opcodes.rs:52-318 | the table facts for opcodes 0x10–0x1F |
| Opcodes.Row2Facts | src/opcodes.rs:52-318 | the table facts for opcodes 0x20–0x2F |
| Opcodes.Row3Facts | src/opcodes.rs:52-318 | the table facts for opcodes 0x30–0x3F |
| Opcodes.Row4Facts | src/opcodes.rs:52-318 | the table facts for opcodes 0x40–0x4F |
| Opcodes.Row5Facts | src/opcodes.rs:52-318 | the table facts for opcodes 0x50–0x5F |
| Opcodes.Row6Facts | src/opcodes.rs:52-318 | the table facts for opcodes 0x60–0x6F |
| Opcodes.Row7Facts | src/opcodes.rs:52-318 | the table facts for opcodes 0x70–0x7F |
| Opcodes.Row8Facts | src/opcodes.rs:52-318 | the table facts for opcodes 0x80–0x8F |
| Opcodes.Row9Facts | src/opcodes.rs:52-318 | the table facts for opcodes 0x90–0x9F |
| Opcodes.RowAFacts | src/opcodes.rs:52-318 | the table facts for opcodes 0xA0–0xAF |
| Opcodes.RowBFacts | src/opcodes.rs:52-318 | the table facts for opcodes 0xB0–0xBF |
| Opcodes.RowCFacts | src/opcodes.rs:52-318 | the table facts for opcodes 0xC0–0xCF |
| Opcodes.RowDFacts | src/opcodes.rs:52-318 | the table facts for opcodes 0xD0–0xDF |
| Opcodes.RowEFacts | src/opcodes.rs:52-318 | the table facts for opcodes 0xE0–0xEF |
| Opcodes.RowFFacts | src/opcodes.rs:52-318 | the table facts for opcodes 0xF0–0xFF |
| CpuModel.UpdateZeroAndNegative | src/core.rs:142-162 | Zero is set exactly when the value is 0. Negative is set exactly when bit 7 is set. Every other flag is unchanged |
| CpuModel.UpdateNegative | src/core.rs:524-530 | only Negative changes, and it is set exactly when bit 7 of the result is set |
| CpuModel.Write | src/core.rs:13 | a write is read back at its address and changes no other address and no register |
| CpuModel.ReadU16 | src/core.rs:15-19 | the little-endian word: the low byte from `pos`, the high byte from `pos + 1` |
| CpuModel.WriteU16 | src/core.rs:21-26 | reading the word back at `pos` gives `data`. Nothing but `pos` and `pos + 1` changes |
| CpuModel.StackAddress | src/core.rs:185-193 | the stack slot `0x0100 + sp` is always on page 1, at offset `sp` |
| CpuModel.SourceOverflowTest | src/core.rs:321-327 | the source's test `(data ^ result) & (result ^ a) & 0x80 != 0` holds exactly when both operands have the same sign and the result's sign differs |
| CpuModel.AddWithCarry | src/core.rs:304-330 | A' = (A + d + C) mod 256. Carry is set exactly when A + d + C > 0xFF. Overflow is the signed overflow of the addition |
| CpuModel.SbcOperand | src/core.rs:654-656 | SBC feeds `(-d - 1) as u8`, that is 255 - d, into the adder |
| CpuModel.RotateLeft | src/core.rs:429-465 | ROL shifts the byte left and brings the old carry into bit 0 |
| CpuModel.RotateRight | src/core.rs:485-522 | ROR shifts the byte right and brings the old carry into bit 7 |
| CpuModel.SignExtend | src/core.rs:551-561 | `jump as u16` for `jump: i8` is the signed offset modulo 65536 |
| CpuModel.CompareFlags | src/core.rs:563-574 | Carry is set exactly when the memory byte is at most the register. Zero is set exactly when they are equal. Negative is bit 7 of the wrapping difference. Other flags are unchanged |
| CpuModel.BitFlags | src/core.rs:576-587 | Zero is set exactly when A and the byte share no set bit. N is bit 7 of the byte and V is bit 6. Other flags are unchanged |
| CpuProperties.OverflowIsSignedOverflow | src/core.rs:304-330 | ADC's V flag is set exactly when the signed sum of A, d and C falls outside -128..127 |
| CpuProperties.SubtractWithBorrow | src/core.rs:332-336 | SBC leaves (A - d - (1 - C)) mod 256 in A and sets Carry exactly when no borrow occurs |
| CpuProperties.SbcUndoesAdc | src/core.rs:304-336 | ADC of d with carry c followed by SBC of d with carry !c gives back the original A |
| CpuProperties.AdcEffect | src/core.rs:293-297 | ADC loads the adder's sum into A with its carry, overflow, zero and negative flags. X, Y, SP, PC and memory are unchanged |
| CpuProperties.AdcExample | src/core.rs:293-330 | from A=0xFF with C clear, `ADC #$02` gives A=0x01 with C set and V, Z and N clear |
| CpuProperties.PopAfterPush | src/core.rs:185-193 | popping right after a push returns the pushed byte and restores SP |
| CpuProperties.PushKeepsOtherPages | src/core.rs:190-193 | a push writes only to page 1 |
| CpuProperties.PopU16AfterPushU16 | src/core.rs:195-207 | pushing a word (high byte first) and popping it (low byte first) returns the word and restores SP |
| CpuProperties.PopU16IgnoresPc | src/core.rs:202-207 | popping a word does not depend on the program counter |
| CpuProperties.PushU16KeepsReadU16 | src/core.rs:195-200 | a word push leaves every word outside the stack page unchanged |
| CpuProperties.PlaAfterPha | src/core.rs:352-355 | PHA then PLA restores A and SP and refreshes Z/N from A |
| CpuProperties.PhpPushesBreakBits | src/core.rs:338-344 | PHP pushes the status with bits 4 and 5 set, and leaves the live status unchanged |
| CpuProperties.PlpAfterPhp | src/core.rs:338-350 | PHP then PLP restores SP and every flag except Break, which ends clear, and Break2, which ends set |
| CpuProperties.JsrThenRts | src/core.rs:532-540 | JSR jumps to its operand and pushes its own address + 2 - 1. The matching RTS resumes at the byte after JSR's operand, with SP restored |
| CpuProperties.NmiEntry | src/core.rs:855-866 | NMI pushes PC and then the status with Break clear and Break2 set. It sets InterruptDisable, adds 2 cycles, keeps A/X/Y, and loads PC from 0xFFFA |
| CpuProperties.RtiReadsFrame | src/core.rs:543-549 | RTI pops the status (Break cleared, Break2 set) and then the program counter |
| CpuProperties.NmiFrame | src/core.rs:855-866 | the frame NMI leaves on the stack is the one RTI reads back |
| CpuProperties.RtiAfterNmi | src/core.rs:543-549 | RTI after an NMI restores PC, SP and every flag except Break (clear) and Break2 (set) |
| CpuProperties.ImmediateIsPc | src/core.rs:135-138 | Immediate addressing resolves to PC itself |
| CpuProperties.NoneAddressingPanics | src/core.rs:735-739 | NoneAddressing (and Immediate passed to `get_absolute_address`) is a panic, modelled as `UnsupportedMode` |
| CpuProperties.ZeroPageIndexedWraps | src/core.rs:697-705 | ZeroPage_X wraps within page 0 when base + X passes 0xFF |
| CpuProperties.IndirectXPointerWraps | src/core.rs:717-723 | Indirect_X with pointer 0xFF reads its high byte from 0x00 |
| CpuProperties.IndirectYPointerWraps | src/core.rs:725-732 | Indirect_Y with base 0xFF reads its high byte from 0x00, then adds Y with 16-bit wrap |
| CpuProperties.AbsoluteAtTopFaults | src/core.rs:15-19 | an absolute operand read at 0xFFFF overflows `pos + 1` (a panic) |
| CpuProperties.JmpIndirectPageBug | src/core.rs:599-605 | covers `CpuModel.IndirectTarget`: with $3000=$40, $30FF=$80 and $3100=$50, `JMP ($30FF)` goes to $4080, not to the little-endian word at $30FF |
| CpuProperties.JmpIndirectOffPageEnd | src/core.rs:599-605 | when the pointer's low byte is not 0xFF, indirect JMP reads an ordinary little-endian word |
| CpuProperties.StepBrk | src/core.rs:779 | BRK halts the loop with PC one past the opcode |
| CpuProperties.StepUnknownOpcode | src/opcodes.rs:321-327 | an opcode byte missing from the map stops the machine with `UnknownOpcode` |
| CpuProperties.ExecuteKeepsPc | src/core.rs:767-847 | every handler except branches, JMP, JSR, RTS and RTI leaves PC and the cycle counter unchanged |
| CpuProperties.PerformExecuted | src/core.rs:762-851 | after a handler, the cycles are ticked and the post-fetch PC rule is applied |
| CpuProperties.PerformAdvancesByLength | src/core.rs:849-851 | a handler that does not move PC leaves PC at the post-fetch value + len - 1 |
| CpuProperties.PerformBranch | src/core.rs:551-561 | a taken branch moves PC to PC + 1 + the signed offset with wrap. An untaken branch, or one whose target is the offset byte itself, skips the offset byte |
| CpuProperties.FetchDecoded | src/core.rs:761-765 | fetch reads the opcode at PC, increments PC and looks the opcode up |
| CpuProperties.StepPerforms | src/core.rs:746-853 | one loop iteration is the NMI poll, then fetch, then the handler with the PC rule |
| CpuProperties.StepAdvancesByLength | src/core.rs:761-851 | a step over a non-control instruction advances PC by exactly its length and the cycles by its cycle count |
| CpuProperties.BranchEntryLength | src/opcodes.rs:171-178 | every branch entry in the table is 2 bytes long |
| CpuProperties.StepBranch | src/core.rs:551-561 | a branch step lands on PC + 2 + the signed offset when its condition holds and the target is not the offset byte, and on PC + 2 otherwise. It adds the entry's cycle count |
| CpuProperties.BranchToOffsetByteAsWritten | src/core.rs:849-851 | a taken branch whose target equals the post-fetch PC (offset -1) is advanced once more, because the PC rule cannot tell it from an unmoved PC |
| CpuProperties.AccumulatorShiftsKeepA | src/core.rs:372-465 | accumulator ASL, LSR and ROL update only the carry and return the shifted value; A and Z/N stay as they were |
| CpuProperties.RorAccumulatorWritesA | src/core.rs:485-522 | accumulator ROR writes `(A >> 1) \| C << 7` to A, takes C from bit 0 and Z/N from the new A, returns 0, and changes no other flag and no other register |
| CpuProperties.MemoryShiftsReturnZero | src/core.rs:384-465 | memory ASL, ROL and LSR write the shifted byte back and return 0. Memory LSR also loads the result into A |
| CpuProperties.MemoryRorKeepsZero | src/core.rs:508-522 | memory ROR writes the rotated byte and updates only Negative among Z/N |
| CpuProperties.SloKeepsA | src/core.rs:685-688 | SLO leaves A unchanged, refreshes Zero from A, and shifts the memory byte |
| CpuProperties.RlaClearsA | src/core.rs:475-478 | RLA always leaves A = 0 with Zero set |
| CpuProperties.SreLoadsShiftedByte | src/core.rs:299-302 | SRE leaves A equal to the shifted byte |
| CpuProperties.DcpNeverClearsCarry | src/core.rs:663-674 | DCP decrements the byte, and afterwards Carry is set exactly when it was set before or the decremented byte is at most A |
| CpuProperties.StepLdaImmediate | src/core.rs:209-215 | `LDA #v` loads v, sets Z/N from it, and advances PC by 2 |
| CpuProperties.StepTax | src/core.rs:248-251 | TAX copies A to X, sets Z/N, and advances PC by 1 |
| CpuProperties.StepInx | src/core.rs:268-271 | INX wraps X and sets Z/N |
| CpuProperties.ReadLoaded | src/core.rs:172-177 | a program placed in memory is read back byte by byte |
| CpuProperties.TransferAndIncrementProgram | src/core.rs:746-853 | running `LDA #$05; TAX; INX; BRK` stops at BRK with A=5 and X=6 |
| CpuProperties.StepAdcImmediate | src/core.rs:293-330 | `ADC #d` is one step through the adder |
| CpuProperties.AddTwoToAllOnes | src/core.rs:304-330 | adding 2 to A=0xFF gives A=1 with Carry set and Overflow clear |
| CpuProperties.AddThenBreak | src/core.rs:746-853 | running `ADC #$02; BRK` from A=0xFF stops with A=1 and Carry set |
| CpuProperties.AddWithCarryProgram | src/core.rs:746-853 | running `LDA #$FF; ADC #$02; BRK` stops with A=1, Carry set, Overflow clear |
| CpuProperties.ResetStatus | src/core.rs:164-170 | the reset status 0b100100 is InterruptDisable and Break2 only |
| CpuProperties.ResetState | src/core.rs:164-170 | reset clears A and X, sets the reset status, and loads PC from 0xFFFC. Y, SP and memory are kept |
| Core.Cpu.constructor | src/core.rs:76-86 | a new CPU has zero registers, SP 0xFD, PC 0 and status 0b100100 |
| Core.Cpu.MemRead | src/core.rs:58-60 | returns the byte at the address and changes nothing |
| Core.Cpu.MemWrite | src/core.rs:62-64 | the byte at the address becomes `data`, and nothing else changes |
| Core.Cpu.MemReadU16 | src/core.rs:15-19 | returns the little-endian word at `pos` and changes nothing |
| Core.Cpu.MemWriteU16 | src/core.rs:21-26 | writes the low byte at `pos` and the high byte at `pos + 1` |
| Core.Cpu.StackPush | src/core.rs:190-193 | writes at 0x0100 + SP, then SP wraps down by one |
| Core.Cpu.StackPop | src/core.rs:185-188 | SP wraps up by one, then the byte at 0x0100 + SP is returned |
| Core.Cpu.StackPushU16 | src/core.rs:195-200 | pushes the high byte and then the low byte |
| Core.Cpu.StackPopU16 | src/core.rs:202-207 | pops the low byte and then the high byte |
| Core.Cpu.UpdateZeroAndNegativeFlag | src/core.rs:142-162 | the status becomes the Z/N update of the value |
| Core.Cpu.UpdateNegativeFlag | src/core.rs:524-530 | the status becomes the N update of the value |
| Core.Cpu.SetRegisterA | src/core.rs:288-291 | A takes the value and Z/N follow it |
| Core.Cpu.AddToRegisterA | src/core.rs:304-330 | A, C and V follow the adder. The method uses the source's bitwise overflow test, which is proved equal to signed overflow |
| Core.Cpu.SubFromRegisterA | src/core.rs:654-656 | subtraction runs through the adder with 255 - d |
| Core.Cpu.GetAbsoluteAddress | src/core.rs:690-740 | returns the effective address of each mode, with zero-page and pointer wrap, or the fault; equal to `CpuModel.AbsoluteAddress` |
| Core.Cpu.GetOperandAddress | src/core.rs:135-138 | Immediate resolves to PC and every other mode defers to the absolute address |
| Core.Cpu.Lda | src/core.rs:209-215 | loads A from the operand and sets Z/N |
| Core.Cpu.Ldx | src/core.rs:217-223 | loads X from the operand and sets Z/N |
| Core.Cpu.Ldy | src/core.rs:225-231 | loads Y from the operand and sets Z/N |
| Core.Cpu.Store | src/core.rs:233-246 | STA/STX/STY write the register at the operand address, and AAX writes X & A there (src/core.rs:676-679) |
| Core.Cpu.Tax | src/core.rs:248-251 | X := A with Z/N |
| Core.Cpu.Tay | src/core.rs:253-256 | Y := A with Z/N |
| Core.Cpu.Txa | src/core.rs:258-261 | A := X with Z/N |
| Core.Cpu.Tya | src/core.rs:263-266 | A := Y with Z/N |
| Core.Cpu.Inx | src/core.rs:268-271 | X wraps up by one with Z/N |
| Core.Cpu.Iny | src/core.rs:273-276 | Y wraps up by one with Z/N |
| Core.Cpu.Dex | src/core.rs:278-281 | X wraps down by one with Z/N |
| Core.Cpu.Dey | src/core.rs:283-286 | Y wraps down by one with Z/N |
| Core.Cpu.Txs | src/core.rs:626-628 | SP := X, and no flag changes |
| Core.Cpu.Tsx | src/core.rs:630-633 | X := SP with Z/N |
| Core.Cpu.Adc | src/core.rs:293-297 | adds the operand with carry |
| Core.Cpu.Sbc | src/core.rs:332-336 | subtracts the operand with borrow |
| Core.Cpu.AndOp | src/core.rs:357-361 | A := A & operand with Z/N |
| Core.Cpu.Eor | src/core.rs:635-639 | A := A ^ operand with Z/N |
| Core.Cpu.Ora | src/core.rs:641-645 | A := A \| operand with Z/N |
| Core.Cpu.Compare | src/core.rs:563-574 | CMP/CPX/CPY set C, Z and N from the comparison and change no register |
| Core.Cpu.BitTest | src/core.rs:576-587 | BIT sets Z, N and V and leaves A unchanged |
| Core.Cpu.Php | src/core.rs:338-344 | pushes the status with both break bits set |
| Core.Cpu.Plp | src/core.rs:346-350 | pops the status, then clears Break and sets Break2 |
| Core.Cpu.Pha | src/core.rs:795 | pushes A |
| Core.Cpu.Pla | src/core.rs:352-355 | pops into A with Z/N |
| Core.Cpu.Inc | src/core.rs:363-370 | increments the memory byte with wrap, sets Z/N, and returns the new byte |
| Core.Cpu.Dec | src/core.rs:617-624 | decrements the memory byte with wrap, sets Z/N, and returns the new byte |
| Core.Cpu.Lsr | src/core.rs:372-399 | LSR in accumulator or memory form, with the quirks above |
| Core.Cpu.Asl | src/core.rs:401-427 | ASL in accumulator or memory form, with the quirks above |
| Core.Cpu.Rol | src/core.rs:429-465 | ROL in accumulator or memory form, with the quirks above |
| Core.Cpu.Ror | src/core.rs:485-522 | ROR in accumulator or memory form, with the quirks above |
| Core.Cpu.Rla | src/core.rs:475-478 | ROL then AND with A |
| Core.Cpu.Rra | src/core.rs:480-483 | ROR then ADC of the returned value |
| Core.Cpu.Sre | src/core.rs:299-302 | LSR then XOR with A |
| Core.Cpu.Slo | src/core.rs:685-688 | ASL then OR with A |
| Core.Cpu.Isb | src/core.rs:658-661 | INC then SBC of the incremented byte |
| Core.Cpu.Dcp | src/core.rs:663-674 | DEC of memory, then Carry set (never cleared) when the result is at most A, then Z/N of A minus it |
| Core.Cpu.Lax | src/core.rs:647-652 | loads the operand into A and then copies A to X |
| Core.Cpu.Jsr | src/core.rs:532-536 | pushes PC + 2 - 1 and jumps to the operand word |
| Core.Cpu.Rts | src/core.rs:538-540 | PC := popped word + 1 |
| Core.Cpu.Rti | src/core.rs:543-549 | pops the status and then PC, then fixes the break bits |
| Core.Cpu.Branch | src/core.rs:551-561 | when the condition holds, PC := PC + 1 + the signed offset, with wrap |
| Core.Cpu.Jmp | src/core.rs:589-615 | absolute jump, or indirect jump with the page bug |
| Core.Cpu.Execute | src/core.rs:767-847 | the dispatch arm of every mnemonic in the table, including the inline flag set/clear arms and the NOP/DOP/TOP arms, and BRK stopping the loop |
| Core.Cpu.ExecuteImplied | src/core.rs:767-847 | the arms for instructions without an operand |
| Core.Cpu.ExecuteControl | src/core.rs:767-847 | the branch, JMP, JSR, RTS, RTI and BRK arms |
| Core.Cpu.ExecuteUnofficial | src/core.rs:838-845 | the LAX, AAX, DCP, ISB, SLO, RLA, SRE and RRA arms |
| Core.Cpu.ExecuteOperand | src/core.rs:767-847 | the arms of the remaining instructions that take an operand |
| Core.Cpu.InterruptNmi | src/core.rs:855-866 | the NMI entry sequence |
| Core.Cpu.Fetch | src/core.rs:761-765 | reads the opcode, increments PC (faulting at 0xFFFF), and looks the opcode up |
| Core.Cpu.Perform | src/core.rs:767-851 | runs the handler, ticks the cycles, and applies the PC rule |
| Core.Cpu.Step | src/core.rs:755-852 | one loop iteration: the NMI poll, fetch, the handler and the PC rule |
| Core.Cpu.Run | src/core.rs:746-853 | the loop runs until BRK or a fault, consuming one NMI poll answer per iteration. Its invariant ties the state after i iterations to the model's run over the remaining polls |
| Core.Cpu.Reset | src/core.rs:164-170 | A, X := 0, status := 0b100100, PC := the word at 0xFFFC |
| PpuRegisters.Truncate | src/ppu_registers.rs:90-92 | `from_bits_truncate` keeps every bit, because all eight are defined |
| PpuRegisters.ContainsBit | src/ppu_registers.rs:19-28 | `contains(flag)` for the single-bit mask 2^j reads bit j |
| PpuRegisters.SetBit | src/ppu_registers.rs:211-213 | `set(flag, on)` changes bit j to `on` and no other bit |
| PpuRegisters.NametableAddr | src/ppu_registers.rs:36-44 | 0x2000 + 0x400 · (ctrl & 3), total and never panicking |
| PpuRegisters.NametableAddrBits | src/ppu_registers.rs:36-44 | NAMETABLE1 adds 0x400 and NAMETABLE2 adds 0x800, so the result is one of 0x2000, 0x2400, 0x2800, 0x2C00 |
| PpuRegisters.VramAddrIncrement | src/ppu_registers.rs:46-52 | 32 when bit 2 is set and 1 otherwise |
| PpuRegisters.SpritePatternAddr | src/ppu_registers.rs:54-60 | 0x1000 when bit 3 is set and 0 otherwise |
| PpuRegisters.BackgroundPatternAddr | src/ppu_registers.rs:62-68 | 0x1000 when bit 4 is set and 0 otherwise |
| PpuRegisters.SpriteSize | src/ppu_registers.rs:70-76 | 16 when bit 5 is set and 8 otherwise |
| PpuRegisters.MasterSlaveSelect | src/ppu_registers.rs:78-84 | 1 when bit 6 is set and 0 otherwise |
| PpuRegisters.GenerateVblankNmi | src/ppu_registers.rs:86-88 | set exactly when bit 7 is set, that is, when the byte is at least 0x80 |
| PpuRegisters.IsGrayscale | src/ppu_registers.rs:132-134 | bit 0 of the mask |
| PpuRegisters.Leftmost8pxlBackground | src/ppu_registers.rs:136-138 | bit 1 of the mask |
| PpuRegisters.Leftmost8pxlSprite | src/ppu_registers.rs:140-142 | bit 2 of the mask |
| PpuRegisters.ShowBackground | src/ppu_registers.rs:144-146 | bit 3 of the mask |
| PpuRegisters.ShowSprites | src/ppu_registers.rs:148-150 | bit 4 of the mask |
| PpuRegisters.EmphasisContents | src/ppu_registers.rs:152-165 | covers `PpuRegisters.Emphasis`: Red, Green and Blue are listed exactly when bits 5, 6 and 7 are set. They appear in the order Red, Blue, Green, and the length is the number of those bits set |
| PpuRegisters.IsInVblank | src/ppu_registers.rs:227-229 | bit 7 of the status |
| PpuRegisters.SetVblankOnlyBit7 | src/ppu_registers.rs:211-213 | setting the vblank status changes bit 7 only, and `is_in_vblank` then reads the new value |
| PpuRegisters.ResetVblankClears | src/ppu_registers.rs:223-225 | resetting the vblank status clears bit 7 and keeps bits 0–6 |
| PpuRegisters.ScrollWriteEffect | src/ppu_registers.rs:251-258 | covers `PpuRegisters.ScrollWrite`: a write stores into x when the latch is clear and into y when it is set, and always flips the latch |
| PpuRegisters.ScrollWritePair | src/ppu_registers.rs:251-258 | two writes from a clear latch set (x, y) and leave the latch clear |
| PpuRegisters.ControlRegister.constructor | src/ppu_registers.rs:32-34 | a new control register is empty |
| PpuRegisters.ControlRegister.Update | src/ppu_registers.rs:90-92 | the register bits become exactly `data` |
| PpuRegisters.MaskRegister.constructor | src/ppu_registers.rs:128-130 | a new mask register is empty |
| PpuRegisters.MaskRegister.Update | src/ppu_registers.rs:167-169 | the register bits become exactly `data` |
| PpuRegisters.MaskRegister.Emphasise | src/ppu_registers.rs:152-165 | builds the emphasis list by pushes, as characterised by EmphasisContents |
| PpuRegisters.StatusRegister.constructor | src/ppu_registers.rs:207-209 | a new status register is empty |
| PpuRegisters.StatusRegister.SetVblankStatus | src/ppu_registers.rs:211-213 | sets bit 7 to the argument |
| PpuRegisters.StatusRegister.SetSpriteZeroHit | src/ppu_registers.rs:215-217 | sets bit 6 to the argument |
| PpuRegisters.StatusRegister.SetSpriteOverflow | src/ppu_registers.rs:219-221 | sets bit 5 to the argument |
| PpuRegisters.StatusRegister.ResetVblankStatus | src/ppu_registers.rs:223-225 | clears bit 7 |
| PpuRegisters.StatusRegister.Snapshot | src/ppu_registers.rs:231-233 | returns the raw bits and changes nothing |
| PpuRegisters.ScrollRegister.constructor | src/ppu_registers.rs:243-249 | x = y = 0 with the latch clear |
| PpuRegisters.ScrollRegister.Write | src/ppu_registers.rs:251-258 | the latch-toggling write |
| PpuRegisters.ScrollRegister.ResetLatch | src/ppu_registers.rs:260-262 | clears the latch and keeps x and y |
| Render.AttributeIndex | src/render.rs:28 | for any on-screen tile the attribute byte index row/4·8 + column/4 is below 64 |
| Render.AttributeIndexBlock | src/render.rs:28-29 | the attribute byte covers the 4×4-tile block containing the tile |
| Render.PaletteIndex | src/render.rs:31-37 | the 2-bit palette number is below 4, so the `should not happen` arm is unreachable |
| Render.PaletteIndexBits | src/render.rs:31-37 | quadrant (column%4/2, row%4/2) selects the bit pair at shift 0, 2, 4 or 6 of the attribute byte |
| Render.BgPalette | src/render.rs:22-46 | the background palette has four entries |
| Render.BgPaletteEntries | src/render.rs:39-45 | entry 0 is the universal background colour and entry k is `palette_table[4p + k]`, with every index below 16 |
| Render.SpritePalette | src/render.rs:48-56 | entry 0 is 0 and entry k is `palette_table[0x11 + 4p + k - 1]`, with every index at most 0x1F |
| Render.TilePixel | src/render.rs:96-104 | the decoded 2-bit pixel value is below 4, so the `can't be` arm is unreachable |
| Render.TilePixelBits | src/render.rs:96-104 | the pixel's low bit is bit 7 - x of plane byte y and its high bit is bit 7 - x of plane byte y + 8 |
| Render.PixelValue | src/render.rs:100-104 | the source's shifting `upper`/`lower` registers compute that pixel at each step of the x loop |
| Render.TileBase | src/render.rs:92-93 | a tile's 16 bytes lie inside the 8 KiB pattern memory |
| Render.Nametables | src/render.rs:134-146 | the two chosen nametables are the two distinct halves of VRAM |
| Render.NametableSelection | src/render.rs:134-146 | selection fails exactly for four-screen mirroring. Otherwise it yields both halves, and the first half is main exactly for Vertical with 0x2000/0x2800 or Horizontal with 0x2000/0x2400 |
| Render.Frame.SetPixel | src/render.rs:119-123 | an in-range write changes exactly that pixel, and an out-of-range write changes nothing |
| Render.DrawOrderAt | src/render.rs:88-100 | each on-screen background pixel is visited exactly once, at step tile·64 + y·8 + 7 - x |
| Render.StepTarget | src/render.rs:111-123 | the frame position written for a tile pixel is that pixel shifted by the pass offset, and only when it is inside the viewport |
| Render.PixelOfTile | src/render.rs:89-112 | tile i's pixel (x, y) is screen pixel (column·8 + x, row·8 + y), and the tile is recovered from it |
| Render.TileColourAt | src/render.rs:104-110 | value 0 takes the universal background colour and values 1–3 take the tile's palette |
| Render.RenderNameTable | src/render.rs:76-128 | after the pass, each frame pixel holds the colour of the last tile pixel that landed on it inside the viewport, and keeps its old colour if none did |
| Render.DrawTileRow | src/render.rs:96-126 | one row of a tile, as that per-pixel specification |
| Render.DrawPixel | src/render.rs:101-124 | one decoded pixel, as that per-pixel specification |
| Render.FlipBits | src/render.rs:181-190 | vertical flip is bit 7 and horizontal flip is bit 6 of the attribute byte |
| Render.SpritePaletteOf | src/render.rs:191-192 | a sprite's palette comes from the low two attribute bits, and every colour it holds is a valid system-palette index |
| Render.SpriteCoords | src/render.rs:212-229 | the tile pixel a frame position shows lies inside the 8×8 tile |
| Render.SpriteTargetCoords | src/render.rs:212-229 | a sprite's tile pixel (x, y) lands at (tile_x + x, tile_y + y), with x mirrored to 7 - x by horizontal flip and y to 7 - y by vertical flip |
| Render.DrawSprite | src/render.rs:195-231 | drawing one sprite paints its opaque pixels and leaves transparent ones alone |
| Render.DrawSpriteRow | src/render.rs:198-231 | one row of a sprite, as that per-pixel specification |
| Render.DrawSpritePixel | src/render.rs:201-229 | one sprite pixel: value 0 is skipped, and any other value is painted at its flipped position |
| Render.RenderSprites | src/render.rs:176-232 | after the pass, each pixel shows the lowest-numbered sprite that is opaque there, because entries are drawn from 63 down to 0 |
| Render.TopSpriteFirst | src/render.rs:176-232 | covers `Render.TopSprite`: the visible sprite at a pixel is the first opaque one in OAM order, so sprite 0 wins on overlap |
| Render.TopSpriteNone | src/render.rs:176-232 | a pixel keeps the background exactly when no sprite is opaque there |
| Render.MainNametable | src/render.rs:134-146 | the main nametable is a 1 KiB half of VRAM |
| Render.SecondNametable | src/render.rs:134-146 | the secondary nametable is a 1 KiB half of VRAM |
| Render.RenderBackground | src/render.rs:148-174 | runs the main pass, then the second pass chosen by the scroll. The fault arises exactly when scroll_x is 0 and scroll_y exceeds 240, after the main pass |
| Render.BackgroundPasses | src/render.rs:148-174 | composing the two passes gives the per-pixel background specification |
| Render.Render | src/render.rs:130-233 | for every state meeting `Render.ValidPpu` (see Left out); covers `Render.RenderedPixel`, the final colour of each pixel. Fails with UnsupportedMirroring exactly for four-screen mirroring, leaving the frame untouched. Fails with ScrollUnderflow exactly when scroll_x = 0 and scroll_y > 240, after the main pass. Otherwise the frame is the background with the top opaque sprite drawn over it |
| Render.MainPassRegion | src/render.rs:148-155 | the main pass writes exactly the pixels in [0, 256 - scroll_x)×[0, 240 - scroll_y) and takes them from the main nametable at (x + scroll_x, y + scroll_y) |
| Render.UnscrolledBackground | src/render.rs:148-174 | with no scroll, the background is the main nametable drawn as is |
| Render.HorizontalScrollWraps | src/render.rs:156-164 | with scroll_x > 0, pixels from 256 - scroll_x onward come from the second nametable's column x - (256 - scroll_x) |
| Render.VerticalScrollWraps | src/render.rs:165-173 | with scroll_x = 0 and scroll_y > 0, rows from 240 - scroll_y onward come from the second nametable |
| Render.DiagonalScrollLeavesGap | src/render.rs:156-174 | with both scrolls non-zero, the bottom-left region is drawn by neither pass and keeps its old colour |

## Left out

- The bus (address decoding, mirroring, `tick`, `poll_nmi_status`) is not part of this model:
  - memory is a plain 64 KiB RAM;
  - the tick is a cycle counter;
  - the NMI poll answers are an input sequence.
- `Mem::mem_read_u16` as overridden by the bus is assumed to be the trait default.
- Core.Cpu.Run: the loop is bounded by the number of NMI poll answers it is given. The source loop is unbounded and stops only at BRK or a panic.
- Core.Cpu.Perform: the cycle tick is taken after the handler rather than before it. No handler reads the counter, and the NMI tick of 2 is kept.
- CpuModel.WriteU16: the source's `pos + 1` overflow panic at pos = 0xFFFF is a precondition, not a fault value. No modelled operation writes a word there.
- Core.Cpu.MemWriteU16: requires `pos < 0xFFFF` for the same reason as `CpuModel.WriteU16`, where the source panics on `pos + 1`.
- Overflow faults follow the debug profile, where Rust checks integer overflow. A release build wraps instead, and the model does not describe that build:
  - `program_counter += 1`, `pos + 1`, the `+ 1` after `stack_pop_u16` and `program_counter += len - 1` wrap modulo 65536, so execution carries on where the model gives `ArithmeticOverflow`;
  - with scroll_x = 0 and scroll_y > 240, `(240 - scroll_y) as isize` wraps to the negative shift `240 - scroll_y`, so the second nametable is drawn shifted up by scroll_y - 240 rows, where the model gives `ScrollUnderflow`.
- `load` and `load_and_run`: they write through the unseen bus. `Loaded` only describes a program already placed in memory.
- The `Debug` implementation, the host callback of `run_with_callback`, and the commented-out addressing code.
- Cycle penalties for page crossings (they appear only as comments in the table) and bus tick side effects.
- `Frame::set_pixel`, `NesPPU` and `Mirroring` are not part of this model. The frame is a 256×240 array, and a write outside it is dropped.
- The RGB values of `SYSTEM_PALLETE`: the frame stores the 64-entry palette index and the lookup is left opaque.
- Render.ValidPpu assumes the source's non-panicking inputs:
  - at least 0x2000 bytes of CHR ROM;
  - 32 palette bytes, each below 64 (a larger byte makes `SYSTEM_PALLETE[...]` panic);
  - 2 KiB of VRAM and 256 bytes of OAM.
- Render.SpritePalette requires a palette number below 4. The renderer only passes `attr & 0b11`.
- The `todo!()` arm of the dispatch is unreachable: `Mnemonic` has exactly the table's mnemonics, and the dispatch match covers each of them.
- `CPU_OPS_CODES` as an ordered vector and the `HashMap` construction: `Opcodes.Decode` is the resulting map.
