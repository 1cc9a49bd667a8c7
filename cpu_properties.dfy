/**
 * Properties of the 6502 model: the arithmetic of ADC and SBC, the stack
 * round trips behind PHA/PLA, PHP/PLP, JSR/RTS and NMI/RTI, the addressing
 * modes, and how one iteration of the interpreter loop moves the program
 * counter.
 */
module CpuProperties {
  import opened Wrappers
  import opened Bytes
  import opened Opcodes
  import opened CpuModel

  // ---------------------------------------------------------------------
  // ADC and SBC

  /** The low byte of a nine-bit sum. */
  lemma ByteOfSum(n: int)
    requires 0 <= n < 0x200
    ensures n % 0x100 == if n >= 0x100 then n - 0x100 else n
    ensures (n - 0x100) % 0x100 == n % 0x100
  {
  }

  /** The overflow flag of ADC is set exactly when the signed sum leaves the
      range of an `i8`. */
  lemma OverflowIsSignedOverflow(a: u8, d: u8, carryIn: bool)
    ensures AddWithCarry(a, d, carryIn).overflow <==>
      !(-0x80 <= Signed(a) + Signed(d) + BoolByte(carryIn) < 0x80)
  {
    var sum := a + d + BoolByte(carryIn);
    var r := AddWithCarry(a, d, carryIn).value;
    if sum >= 0x100 {
      assert r == sum - 0x100;
    } else {
      assert r == sum;
    }
  }

  /** SBC computes `a - d - (1 - C)` modulo 256, and leaves C set exactly when
      no borrow was needed. */
  lemma SubtractWithBorrow(a: u8, d: u8, carryIn: bool)
    ensures AddWithCarry(a, SbcOperand(d), carryIn).value == (a - d - (1 - BoolByte(carryIn))) % 0x100
    ensures AddWithCarry(a, SbcOperand(d), carryIn).carry <==> a - d - (1 - BoolByte(carryIn)) >= 0
  {
  }

  /** Adding with carry C and then subtracting the same byte with borrow !C
      restores the accumulator. */
  lemma SbcUndoesAdc(a: u8, d: u8, carryIn: bool)
    ensures AddWithCarry(AddWithCarry(a, d, carryIn).value, SbcOperand(d), !carryIn).value == a
  {
    var c := BoolByte(carryIn);
    var a1 := AddWithCarry(a, d, carryIn).value;
    ByteOfSum(a + d + c);
    SubtractWithBorrow(a1, d, !carryIn);
    ByteOfSum(a1 - d - c + 0x100);
  }

  /** ADC on an operand `d`: A gets the low byte of the sum, C the carry out,
      V the signed overflow, Z and N follow A; nothing else changes. */
  lemma AdcEffect(m: Machine, mode: AddressingMode, d: u8)
    requires Operand(m, mode) == Ok(d)
    ensures Adc(m, mode).Ok?
    ensures var r := Adc(m, mode).value;
      var sum := m.a + d + BoolByte(m.status.carry);
      && r.a == sum % 0x100
      && (r.status.carry <==> sum > 0xFF)
      && (r.status.overflow <==> !(-0x80 <= Signed(m.a) + Signed(d) + BoolByte(m.status.carry) < 0x80))
      && (r.status.zero <==> r.a == 0)
      && (r.status.negative <==> Negative(r.a))
      && r.(a := m.a, status := m.status) == m
      && r.status.(carry := m.status.carry, overflow := m.status.overflow,
                   zero := m.status.zero, negative := m.status.negative) == m.status
  {
    OverflowIsSignedOverflow(m.a, d, m.status.carry);
  }

  /** A = 0xFF, C clear, ADC #$02: A becomes 1 with C set and V, Z, N clear. */
  lemma AdcExample(m: Machine)
    requires m.a == 0xFF && !m.status.carry
    requires m.pc < 0xFFFF && Read(m, m.pc) == 0x02
    ensures Adc(m, Immediate).Ok?
    ensures var r := Adc(m, Immediate).value;
      r.a == 0x01 && r.status.carry && !r.status.overflow && !r.status.zero && !r.status.negative
  {
    assert Operand(m, Immediate) == Ok(0x02);
    AdcEffect(m, Immediate, 0x02);
    assert m.a + 0x02 + BoolByte(m.status.carry) == 0x101;
    assert Signed(m.a) == -1;
  }

  // ---------------------------------------------------------------------
  // The stack

  /** A push followed by a pop returns the pushed byte and restores the stack
      pointer; only the stack slot written by the push differs. */
  lemma PopAfterPush(m: Machine, data: u8)
    ensures StackPop(StackPush(m, data)).1 == data
    ensures StackPop(StackPush(m, data)).0 == Write(m, StackAddress(m.sp), data)
  {
  }

  /** Pushing writes only inside the stack page. */
  lemma PushKeepsOtherPages(m: Machine, data: u8, addr: u16)
    requires HighByte(addr) != 1
    ensures Read(StackPush(m, data), addr) == Read(m, addr)
  {
  }

  /** A 16-bit push followed by a 16-bit pop returns the pushed word and
      restores the stack pointer. */
  lemma PopU16AfterPushU16(m: Machine, data: u16)
    ensures StackPopU16(StackPushU16(m, data)).1 == data
    ensures StackPopU16(StackPushU16(m, data)).0.sp == m.sp
  {
    var m1 := StackPush(m, HighByte(data));
    PopAfterPush(m1, LowByte(data));
    var (m3, lo) := StackPop(StackPush(m1, LowByte(data)));
    assert lo == LowByte(data);
    assert m3.sp == m1.sp;
    var (m4, hi) := StackPop(m3);
    assert hi == HighByte(data);
    WordOfBytes(data);
  }

  /** Popping does not look at the program counter. */
  lemma PopU16IgnoresPc(m: Machine, pc: u16)
    ensures StackPopU16(m.(pc := pc)) == (StackPopU16(m).0.(pc := pc), StackPopU16(m).1)
  {
  }

  /** A 16-bit push does not disturb a word read outside the stack page. */
  lemma PushU16KeepsReadU16(m: Machine, data: u16, pos: u16)
    requires pos < 0xFFFF
    requires HighByte(pos) != 1 && HighByte(pos + 1) != 1
    ensures ReadU16(StackPushU16(m, data), pos) == ReadU16(m, pos)
  {
  }

  /** PLA after PHA restores A and the stack pointer; Z and N follow A. */
  lemma PlaAfterPha(m: Machine)
    ensures Pla(Pha(m)).a == m.a
    ensures Pla(Pha(m)).sp == m.sp
    ensures Pla(Pha(m)).status == UpdateZeroAndNegative(m.status, m.a)
  {
    PopAfterPush(m, m.a);
  }

  /** PHP pushes the status with both break bits set. */
  lemma PhpPushesBreakBits(m: Machine)
    ensures var b := Read(Php(m), StackAddress(m.sp));
      FromBitsTruncate(b) == m.status.(brk := true, brk2 := true)
    ensures Php(m).status == m.status
    ensures Php(m).sp == WrappingSub8(m.sp, 1)
  {
    FromBitsOfBits(m.status.(brk := true, brk2 := true));
  }

  /** PLP after PHP restores every flag but the break bits, which come back as
      BREAK clear and BREAK2 set, and restores the stack pointer. */
  lemma PlpAfterPhp(m: Machine)
    ensures Plp(Php(m)).status == m.status.(brk := false, brk2 := true)
    ensures Plp(Php(m)).sp == m.sp
    ensures Plp(Php(m)).(mem := m.mem, status := m.status) == m
  {
    var pushed := m.status.(brk := true, brk2 := true);
    PopAfterPush(m, Bits(pushed));
    FromBitsOfBits(pushed);
    FromBitsTotal(Bits(pushed));
  }

  /** JSR jumps to its operand with the return address minus one on the stack,
      and RTS then resumes just past the JSR's operand with the stack pointer
      restored. */
  lemma JsrThenRts(m: Machine)
    requires m.pc < 0xFFFE
    requires HighByte(m.pc) != 1 && HighByte(m.pc + 1) != 1
    ensures Jsr(m).Ok?
    ensures Jsr(m).value.pc == ReadU16(m, m.pc)
    ensures Jsr(m).value.sp == WrappingSub8(WrappingSub8(m.sp, 1), 1)
    ensures Rts(Jsr(m).value).Ok?
    ensures Rts(Jsr(m).value).value.pc == m.pc + 2
    ensures Rts(Jsr(m).value).value.sp == m.sp
  {
    var m1 := StackPushU16(m, m.pc + 2 - 1);
    PushU16KeepsReadU16(m, m.pc + 2 - 1, m.pc);
    PopU16AfterPushU16(m, m.pc + 2 - 1);
    PopU16IgnoresPc(m1, ReadU16(m1, m.pc));
  }

  /** NMI entry: the pushed return address and status sit below the old stack
      pointer, interrupts are disabled, two cycles are spent and execution
      continues at the NMI vector. */
  lemma NmiEntry(m: Machine)
    ensures var r := InterruptNmi(m);
      && r.pc == ReadU16(m, NMI_VECTOR)
      && r.status == m.status.(interruptDisable := true)
      && r.sp == WrappingSub8(WrappingSub8(WrappingSub8(m.sp, 1), 1), 1)
      && r.cycles == m.cycles + 2
      && (r.a, r.x, r.y) == (m.a, m.x, m.y)
      && FromBitsTruncate(Read(r, StackAddress(WrappingSub8(WrappingSub8(m.sp, 1), 1))))
         == m.status.(brk := false, brk2 := true)
  {
    var m1 := StackPushU16(m, m.pc);
    var flag := m.status.(brk := false, brk2 := true);
    FromBitsOfBits(flag);
    PushU16KeepsReadU16(m, m.pc, NMI_VECTOR);
  }

  /** RTI pops the status byte, then the return address (low byte first), from
      the three stack slots above the stack pointer. */
  lemma RtiReadsFrame(m: Machine)
    ensures var s1 := WrappingAdd8(m.sp, 1);
      var s2 := WrappingAdd8(s1, 1);
      var s3 := WrappingAdd8(s2, 1);
      && Rti(m).sp == s3
      && Rti(m).status == FromBitsTruncate(Read(m, StackAddress(s1))).(brk := false, brk2 := true)
      && Rti(m).pc == Word(Read(m, StackAddress(s3)), Read(m, StackAddress(s2)))
  {
    var (m1, b) := StackPop(m);
    FromBitsTotal(b);
  }

  /** NMI entry leaves the interrupted program counter, high byte first, and
      the status byte in the three slots below the old stack pointer. */
  lemma NmiFrame(m: Machine)
    ensures var r := InterruptNmi(m);
      var s1 := WrappingSub8(m.sp, 1);
      var s2 := WrappingSub8(s1, 1);
      && r.sp == WrappingSub8(s2, 1)
      && Read(r, StackAddress(m.sp)) == HighByte(m.pc)
      && Read(r, StackAddress(s1)) == LowByte(m.pc)
      && Read(r, StackAddress(s2)) == Bits(m.status.(brk := false, brk2 := true))
  {
    var s1 := WrappingSub8(m.sp, 1);
    var s2 := WrappingSub8(s1, 1);
    assert StackAddress(m.sp) != StackAddress(s1) && StackAddress(s1) != StackAddress(s2);
    assert StackAddress(m.sp) != StackAddress(s2);
  }

  /** RTI right after NMI entry returns to the interrupted instruction with the
      stack pointer restored and the status as it was, the break bits
      normalised (BREAK clear, BREAK2 set). */
  lemma RtiAfterNmi(m: Machine)
    ensures Rti(InterruptNmi(m)).pc == m.pc
    ensures Rti(InterruptNmi(m)).sp == m.sp
    ensures Rti(InterruptNmi(m)).status == m.status.(brk := false, brk2 := true)
  {
    var r := InterruptNmi(m);
    NmiFrame(m);
    RtiReadsFrame(r);
    FromBitsOfBits(m.status.(brk := false, brk2 := true));
    WordOfBytes(m.pc);
  }

  // ---------------------------------------------------------------------
  // Addressing modes

  /** The immediate operand is the byte right after the opcode. */
  lemma ImmediateIsPc(m: Machine)
    ensures OperandAddress(m, Immediate) == Ok(m.pc)
    ensures Operand(m, Immediate) == Ok(Read(m, m.pc))
  {
  }

  /** Asking an address of the implied mode is the source's panic. */
  lemma NoneAddressingPanics(m: Machine, addr: u16)
    ensures AbsoluteAddress(m, NoneAddressing, addr) == Fail(UnsupportedMode(NoneAddressing))
    ensures AbsoluteAddress(m, Immediate, addr) == Fail(UnsupportedMode(Immediate))
    ensures Operand(m, NoneAddressing) == Fail(UnsupportedMode(NoneAddressing))
  {
  }

  /** Zero page indexing wraps around within page zero. */
  lemma ZeroPageIndexedWraps(m: Machine, addr: u16)
    requires Read(m, addr) + m.x >= 0x100
    ensures AbsoluteAddress(m, ZeroPageX, addr) == Ok(Read(m, addr) + m.x - 0x100)
    ensures AbsoluteAddress(m, ZeroPageX, addr).value < 0x100
  {
  }

  /** The pointer of the (zp,X) mode wraps inside page zero: a pointer at 0xFF
      takes its high byte from 0x00. */
  lemma IndirectXPointerWraps(m: Machine, addr: u16)
    requires WrappingAdd8(Read(m, addr), m.x) == 0xFF
    ensures AbsoluteAddress(m, IndirectX, addr) == Ok(Word(Read(m, 0x00), Read(m, 0xFF)))
  {
  }

  /** The (zp),Y mode reads its base at `zp` and `zp + 1` modulo 256, then adds Y
      modulo 0x10000. */
  lemma IndirectYPointerWraps(m: Machine, addr: u16)
    requires Read(m, addr) == 0xFF
    ensures AbsoluteAddress(m, IndirectY, addr) ==
      Ok((Word(Read(m, 0x00), Read(m, 0xFF)) + m.y) % 0x10000)
  {
  }

  /** An absolute operand whose second byte would lie past 0xFFFF panics. */
  lemma AbsoluteAtTopFaults(m: Machine)
    ensures AbsoluteAddress(m, Absolute, 0xFFFF) == Fail(ArithmeticOverflow)
    ensures AbsoluteAddress(m, AbsoluteX, 0xFFFF) == Fail(ArithmeticOverflow)
  {
  }

  // ---------------------------------------------------------------------
  // JMP

  /** The example of the source's comment: with 0x40 at 0x3000, 0x80 at 0x30FF
      and 0x50 at 0x3100, JMP (0x30FF) goes to 0x4080, not 0x5080. */
  lemma JmpIndirectPageBug(m: Machine)
    requires Read(m, 0x3000) == 0x40 && Read(m, 0x30FF) == 0x80 && Read(m, 0x3100) == 0x50
    ensures IndirectTarget(m, 0x30FF) == 0x4080
    ensures IndirectTarget(m, 0x30FF) != ReadU16(m, 0x30FF)
  {
  }

  /** Off a page end the indirect JMP reads an ordinary little-endian pointer. */
  lemma JmpIndirectOffPageEnd(m: Machine, ptr: u16)
    requires ptr % 0x100 != 0xFF
    ensures ptr < 0xFFFF && IndirectTarget(m, ptr) == ReadU16(m, ptr)
  {
  }

  // ---------------------------------------------------------------------
  // One step of the interpreter loop

  /** BRK ends the loop with the program counter past the opcode byte and its
      seven cycles spent. */
  lemma StepBrk(m: Machine)
    requires m.pc < 0xFFFF && Read(m, m.pc) == 0x00
    ensures Step(m, false) == Halted(m.(pc := m.pc + 1, cycles := m.cycles + 7))
  {
  }

  /** An opcode byte missing from the table stops the loop with a fault. */
  lemma StepUnknownOpcode(m: Machine)
    requires m.pc < 0xFFFF && Read(m, m.pc) in ABSENT_CODES
    ensures Step(m, false) == Faulted(UnknownOpcode(Read(m, m.pc)))
  {
    DecodeFacts(Read(m, m.pc));
  }

  /** The instructions that set the program counter themselves. */
  predicate ControlFlow(mnemonic: Mnemonic)
  {
    IsBranch(mnemonic) || mnemonic in {BRK, JMP, JSR, RTS, RTI}
  }

  /** The flag set/clear and no-operation arms keep the program counter. */
  lemma FlagArmsKeepPc(m: Machine, op: Opcode)
    requires op.mnemonic in {CLC, CLD, CLI, CLV, SEC, SED, SEI, NOP, DOP, TOP}
    ensures Execute(m, op).Ok? ==>
      && Execute(m, op).value.Executed?
      && Execute(m, op).value.m.pc == m.pc
      && Execute(m, op).value.m.cycles == m.cycles
  {
  }

  /** The register transfer, increment and decrement arms keep the program counter. */
  lemma RegisterArmsKeepPc(m: Machine, op: Opcode)
    requires op.mnemonic in {DEX, INX, INY, DEY, TAX, TXA, TAY, TYA, TXS, TSX}
    ensures Execute(m, op).Ok? ==>
      && Execute(m, op).value.Executed?
      && Execute(m, op).value.m.pc == m.pc
      && Execute(m, op).value.m.cycles == m.cycles
  {
  }

  /** The stack arms keep the program counter. */
  lemma StackArmsKeepPc(m: Machine, op: Opcode)
    requires op.mnemonic in {PHA, PHP, PLA, PLP}
    ensures Execute(m, op).Ok? ==>
      && Execute(m, op).value.Executed?
      && Execute(m, op).value.m.pc == m.pc
      && Execute(m, op).value.m.cycles == m.cycles
  {
  }

  /** The arithmetic and logic arms keep the program counter. */
  lemma ArithmeticArmsKeepPc(m: Machine, op: Opcode)
    requires op.mnemonic in {ADC, AND, SBC, ORA, EOR, BIT}
    ensures Execute(m, op).Ok? ==>
      && Execute(m, op).value.Executed?
      && Execute(m, op).value.m.pc == m.pc
      && Execute(m, op).value.m.cycles == m.cycles
  {
  }

  /** The load, store and compare arms keep the program counter. */
  lemma LoadStoreArmsKeepPc(m: Machine, op: Opcode)
    requires op.mnemonic in {LDA, LDX, LDY, STA, STX, STY, CMP, CPX, CPY}
    ensures Execute(m, op).Ok? ==>
      && Execute(m, op).value.Executed?
      && Execute(m, op).value.m.pc == m.pc
      && Execute(m, op).value.m.cycles == m.cycles
  {
  }

  /** The read-modify-write arms keep the program counter. */
  lemma ShiftArmsKeepPc(m: Machine, op: Opcode)
    requires op.mnemonic in {ASL, ROL, ROR, LSR, INC, DEC}
    ensures Execute(m, op).Ok? ==>
      && Execute(m, op).value.Executed?
      && Execute(m, op).value.m.pc == m.pc
      && Execute(m, op).value.m.cycles == m.cycles
  {
  }

  /** LAX, AAX, DCP and ISB keep the program counter. */
  lemma UnofficialLoadArmsKeepPc(m: Machine, op: Opcode)
    requires op.mnemonic in {LAX, AAX, DCP, ISB}
    ensures Execute(m, op).Ok? ==>
      && Execute(m, op).value.Executed?
      && Execute(m, op).value.m.pc == m.pc
      && Execute(m, op).value.m.cycles == m.cycles
  {
  }

  /** SLO, RLA, SRE and RRA keep the program counter. */
  lemma UnofficialShiftArmsKeepPc(m: Machine, op: Opcode)
    requires op.mnemonic in {SLO, RLA, SRE, RRA}
    ensures Execute(m, op).Ok? ==>
      && Execute(m, op).value.Executed?
      && Execute(m, op).value.m.pc == m.pc
      && Execute(m, op).value.m.cycles == m.cycles
  {
  }

  /** Every other handler leaves the program counter and the cycle count alone
      and returns to the loop. */
  lemma ExecuteKeepsPc(m: Machine, op: Opcode)
    requires !ControlFlow(op.mnemonic)
    ensures Execute(m, op).Ok? ==>
      && Execute(m, op).value.Executed?
      && Execute(m, op).value.m.pc == m.pc
      && Execute(m, op).value.m.cycles == m.cycles
  {
    if op.mnemonic in {CLC, CLD, CLI, CLV, SEC, SED, SEI, NOP, DOP, TOP} {
      FlagArmsKeepPc(m, op);
    } else if op.mnemonic in {DEX, INX, INY, DEY, TAX, TXA, TAY, TYA, TXS, TSX} {
      RegisterArmsKeepPc(m, op);
    } else if op.mnemonic in {PHA, PHP, PLA, PLP} {
      StackArmsKeepPc(m, op);
    } else if op.mnemonic in {ADC, AND, SBC, ORA, EOR, BIT} {
      ArithmeticArmsKeepPc(m, op);
    } else if op.mnemonic in {LDA, LDX, LDY, STA, STX, STY, CMP, CPX, CPY} {
      LoadStoreArmsKeepPc(m, op);
    } else if op.mnemonic in {ASL, ROL, ROR, LSR, INC, DEC} {
      ShiftArmsKeepPc(m, op);
    } else if op.mnemonic in {LAX, AAX, DCP, ISB} {
      UnofficialLoadArmsKeepPc(m, op);
    } else if op.mnemonic in {SLO, RLA, SRE, RRA} {
      UnofficialShiftArmsKeepPc(m, op);
    }
  }

  /** When the handler returns to the loop, `Perform` goes on to the program
      counter advance. */
  lemma PerformExecuted(m1: Machine, op: Opcode, m3: Machine)
    requires Execute(m1, op) == Ok(Executed(m3))
    ensures Perform(m1, op) == AdvancePc(m3.(cycles := m3.cycles + op.cycles), m1.pc, op.len)
  {
  }

  /** Once such an instruction is fetched and executes, the loop skips its
      operand bytes and has spent the cycles of its table entry. */
  lemma PerformAdvancesByLength(m1: Machine, op: Opcode)
    requires !ControlFlow(op.mnemonic) && 1 <= op.len && m1.pc + (op.len - 1) <= 0xFFFF
    requires Execute(m1, op).Ok?
    ensures Perform(m1, op).Running?
    ensures Perform(m1, op).m.pc == m1.pc + (op.len - 1)
    ensures Perform(m1, op).m.cycles == m1.cycles + op.cycles
  {
    ExecuteKeepsPc(m1, op);
    PerformExecuted(m1, op, Execute(m1, op).value.m);
  }

  /** Once a two-byte conditional branch is fetched: not taken, the loop skips
      the offset byte; taken, it lands at the address after the offset byte
      plus the signed offset, except that a target equal to the address of the
      offset byte itself is advanced again, because the loop cannot tell it
      from "not moved".  Nothing but the program counter and the cycles changes. */
  lemma PerformBranch(m1: Machine, op: Opcode)
    requires IsBranch(op.mnemonic) && op.len == 2 && m1.pc < 0xFFFF
    ensures var target := (m1.pc + 1 + Signed(Read(m1, m1.pc))) % 0x10000;
      Perform(m1, op) == Running(m1.(cycles := m1.cycles + op.cycles,
        pc := if BranchCondition(op.mnemonic, m1.status) && target != m1.pc then target else m1.pc + 1))
  {
    var target := WrappingAdd16(m1.pc + 1, SignExtend(Read(m1, m1.pc)));
    assert target == (m1.pc + 1 + Signed(Read(m1, m1.pc))) % 0x10000;
  }

  /** The fetch of a decoded opcode moves the program counter past it. */
  lemma FetchDecoded(m: Machine, op: Opcode)
    requires m.pc < 0xFFFF && Decode(Read(m, m.pc)) == Some(op)
    ensures Fetch(m) == Fetched(m.(pc := m.pc + 1), op)
  {
  }

  /** After a successful fetch, the step is `Perform` of the fetched entry. */
  lemma StepPerforms(m: Machine, nmi: bool, m1: Machine, op: Opcode)
    requires Fetch(Service(m, nmi)) == Fetched(m1, op)
    ensures Step(m, nmi) == Perform(m1, op)
  {
  }

  /** Any instruction other than a branch, BRK, JMP, JSR, RTS or RTI that
      executes moves the program counter past its opcode and operand bytes and
      spends the cycles of its table entry. */
  lemma StepAdvancesByLength(m: Machine, op: Opcode)
    requires m.pc < 0xFFFF && Decode(Read(m, m.pc)) == Some(op)
    requires !ControlFlow(op.mnemonic) && m.pc + op.len <= 0xFFFF
    requires Execute(m.(pc := m.pc + 1), op).Ok?
    ensures Step(m, false).Running?
    ensures Step(m, false).m.pc == m.pc + op.len
    ensures Step(m, false).m.cycles == m.cycles + op.cycles
  {
    DecodeFacts(Read(m, m.pc));
    FetchDecoded(m, op);
    StepPerforms(m, false, m.(pc := m.pc + 1), op);
    PerformAdvancesByLength(m.(pc := m.pc + 1), op);
  }

  /** Every branch entry of the table is two bytes long. */
  lemma BranchEntryLength(code: u8, op: Opcode)
    requires Decode(code) == Some(op) && IsBranch(op.mnemonic)
    ensures op.len == 2
  {
    DecodeFacts(code);
    assert LengthFitsMode(op);
  }

  /** One step of a conditional branch in terms of the machine before the fetch. */
  lemma StepBranch(m: Machine, op: Opcode)
    requires m.pc < 0xFFFE && Decode(Read(m, m.pc)) == Some(op) && IsBranch(op.mnemonic)
    ensures var target := (m.pc + 2 + Signed(Read(m, m.pc + 1))) % 0x10000;
      Step(m, false) == Running(m.(cycles := m.cycles + op.cycles,
        pc := if BranchCondition(op.mnemonic, m.status) && target != m.pc + 1 then target else m.pc + 2))
  {
    BranchEntryLength(Read(m, m.pc), op);
    var m1 := m.(pc := m.pc + 1);
    FetchDecoded(m, op);
    StepPerforms(m, false, m1, op);
    PerformBranch(m1, op);
    assert Read(m1, m1.pc) == Read(m, m.pc + 1);
  }

  /** As written: a BNE taken with offset 0xFF should land on its own offset byte
      (pc + 1), but the loop sees the target equal to the address it saved after
      the fetch and moves on to pc + 2. */
  lemma BranchToOffsetByteAsWritten(m: Machine)
    requires m.pc < 0xFFFE && Read(m, m.pc) == 0xD0 && !m.status.zero && Read(m, m.pc + 1) == 0xFF
    ensures (m.pc + 2 + Signed(Read(m, m.pc + 1))) % 0x10000 == m.pc + 1
    ensures Step(m, false).Running? && Step(m, false).m.pc == m.pc + 2
  {
    var op := Opcode(0xD0, BNE, 2, 2, NoneAddressing);
    assert Decode(0xD0) == Some(op);
    assert BranchCondition(BNE, m.status);
    assert Signed(Read(m, m.pc + 1)) == -1;
    StepBranch(m, op);
  }

  // ---------------------------------------------------------------------
  // Shift and rotate handlers, as written

  /** On the accumulator, ASL, LSR and ROL update only the carry and return the
      shifted value; A itself is not written. */
  lemma AccumulatorShiftsKeepA(m: Machine)
    ensures Asl(m, NoneAddressing) == Ok((m.(status := m.status.(carry := Negative(m.a))), (m.a * 2) % 0x100))
    ensures Lsr(m, NoneAddressing) == Ok((m.(status := m.status.(carry := m.a % 2 == 1)), m.a / 2))
    ensures Rol(m, NoneAddressing) ==
      Ok((m.(status := m.status.(carry := Negative(m.a))), (m.a * 2) % 0x100 + BoolByte(m.status.carry)))
  {
  }

  /** On the accumulator, ROR does write A, with Z and N following it, changes no
      other flag and no other register, and returns 0. */
  lemma RorAccumulatorWritesA(m: Machine)
    ensures Ror(m, NoneAddressing).Ok?
    ensures var r := Ror(m, NoneAddressing).value;
      && r.1 == 0
      && r.0.a == m.a / 2 + 0x80 * BoolByte(m.status.carry)
      && r.0.status.carry == (m.a % 2 == 1)
      && r.0.status.zero == (r.0.a == 0)
      && r.0.status.negative == Negative(r.0.a)
      && r.0.status.(carry := m.status.carry, zero := m.status.zero,
                     negative := m.status.negative) == m.status
      && r.0.(a := m.a, status := m.status) == m
  {
  }

  /** On memory, ASL, ROL and LSR store the shifted byte and return 0; LSR also
      loads the shifted byte into A. */
  lemma MemoryShiftsReturnZero(m: Machine, mode: AddressingMode, addr: u16)
    requires mode != NoneAddressing && OperandAddress(m, mode) == Ok(addr)
    ensures Asl(m, mode).Ok? && Asl(m, mode).value.1 == 0
    ensures Read(Asl(m, mode).value.0, addr) == (Read(m, addr) * 2) % 0x100
    ensures Asl(m, mode).value.0.a == m.a
    ensures Rol(m, mode).Ok? && Rol(m, mode).value.1 == 0
    ensures Read(Rol(m, mode).value.0, addr) == (Read(m, addr) * 2) % 0x100 + BoolByte(m.status.carry)
    ensures Lsr(m, mode).Ok? && Lsr(m, mode).value.1 == 0
    ensures Read(Lsr(m, mode).value.0, addr) == Read(m, addr) / 2
    ensures Lsr(m, mode).value.0.a == Read(m, addr) / 2
  {
  }

  /** On memory, ROR stores and returns the rotated byte, and of Z and N updates
      only N: Z keeps its old value. */
  lemma MemoryRorKeepsZero(m: Machine, mode: AddressingMode, addr: u16)
    requires mode != NoneAddressing && OperandAddress(m, mode) == Ok(addr)
    ensures Ror(m, mode).Ok?
    ensures var r := Ror(m, mode).value;
      && r.1 == Read(m, addr) / 2 + 0x80 * BoolByte(m.status.carry)
      && Read(r.0, addr) == r.1
      && r.0.status.zero == m.status.zero
      && r.0.status.negative == Negative(r.1)
      && r.0.a == m.a
  {
  }

  /** SLO on memory ORs the 0 that ASL returns into A: A is kept and Z and N are
      refreshed from it. */
  lemma SloKeepsA(m: Machine, mode: AddressingMode, addr: u16)
    requires mode != NoneAddressing && OperandAddress(m, mode) == Ok(addr)
    ensures Slo(m, mode).Ok?
    ensures Slo(m, mode).value.a == m.a
    ensures Slo(m, mode).value.status.zero == (m.a == 0)
    ensures Read(Slo(m, mode).value, addr) == (Read(m, addr) * 2) % 0x100
  {
    ZeroOperand(m.a);
  }

  /** RLA on memory ANDs the 0 that ROL returns into A: A is cleared. */
  lemma RlaClearsA(m: Machine, mode: AddressingMode)
    requires mode != NoneAddressing && OperandAddress(m, mode).Ok?
    ensures Rla(m, mode).Ok?
    ensures Rla(m, mode).value.a == 0 && Rla(m, mode).value.status.zero
  {
    ZeroOperand(m.a);
  }

  /** SRE on memory XORs the 0 that LSR returns into the A that LSR loaded: A
      ends up holding the shifted byte. */
  lemma SreLoadsShiftedByte(m: Machine, mode: AddressingMode, addr: u16)
    requires mode != NoneAddressing && OperandAddress(m, mode) == Ok(addr)
    ensures Sre(m, mode).Ok?
    ensures Sre(m, mode).value.a == Read(m, addr) / 2
  {
    ZeroOperand(Read(m, addr) / 2);
  }

  /** DCP sets the carry when the decremented byte is at most A and otherwise
      leaves it as it was: it never clears it. */
  lemma DcpNeverClearsCarry(m: Machine, mode: AddressingMode, addr: u16)
    requires OperandAddress(m, mode) == Ok(addr)
    ensures Dcp(m, mode).Ok?
    ensures Dcp(m, mode).value.status.carry <==> m.status.carry || WrappingSub8(Read(m, addr), 1) <= m.a
    ensures Read(Dcp(m, mode).value, addr) == WrappingSub8(Read(m, addr), 1)
  {
  }

  // ---------------------------------------------------------------------
  // Whole programs

  /** LDA #imm (0xA9): A and Z/N take the operand, the loop moves two bytes on. */
  lemma StepLdaImmediate(m: Machine)
    requires m.pc < 0xFFFE && Read(m, m.pc) == 0xA9
    ensures var v := Read(m, m.pc + 1);
      Step(m, false) == Running(m.(a := v, status := UpdateZeroAndNegative(m.status, v),
                                   pc := m.pc + 2, cycles := m.cycles + 2))
  {
    var v := Read(m, m.pc + 1);
    var m1 := m.(pc := m.pc + 1);
    var op := Opcode(0xA9, LDA, 2, 2, Immediate);
    assert Decode(0xA9) == Some(op);
    FetchDecoded(m, op);
    StepPerforms(m, false, m1, op);
    assert Operand(m1, Immediate) == Ok(v);
    var m3 := m1.(a := v, status := UpdateZeroAndNegative(m.status, v));
    assert Execute(m1, op) == Ok(Executed(m3));
    PerformExecuted(m1, op, m3);
  }

  /** TAX (0xAA): X and Z/N take A, the loop moves one byte on. */
  lemma StepTax(m: Machine)
    requires m.pc < 0xFFFF && Read(m, m.pc) == 0xAA
    ensures Step(m, false) == Running(m.(x := m.a, status := UpdateZeroAndNegative(m.status, m.a),
                                         pc := m.pc + 1, cycles := m.cycles + 2))
  {
  }

  /** INX (0xE8): X grows by one modulo 256, the loop moves one byte on. */
  lemma StepInx(m: Machine)
    requires m.pc < 0xFFFF && Read(m, m.pc) == 0xE8
    ensures var v := WrappingAdd8(m.x, 1);
      Step(m, false) == Running(m.(x := v, status := UpdateZeroAndNegative(m.status, v),
                                   pc := m.pc + 1, cycles := m.cycles + 2))
  {
  }

  /** The bytes of `program` are in memory from `start` on. */
  predicate Loaded(m: Machine, start: nat, program: seq<u8>)
  {
    start + |program| <= 0x10000 && m.mem[start..start + |program|] == program
  }

  /** A loaded program's bytes are read back from their addresses. */
  lemma ReadLoaded(m: Machine, start: nat, program: seq<u8>, k: nat)
    requires Loaded(m, start, program) && k < |program|
    ensures Read(m, start + k) == program[k]
  {
    assert m.mem[start..start + |program|][k] == m.mem[start + k];
  }

  /** LDA #$05; TAX; INX; BRK stops with A = 5 and X = 6, one byte past the BRK. */
  lemma TransferAndIncrementProgram(m: Machine)
    requires m.pc < 0xFF00 && Loaded(m, m.pc, [0xA9, 0x05, 0xAA, 0xE8, 0x00])
    ensures Run(m, [false, false, false, false]).Stopped?
    ensures var r := Run(m, [false, false, false, false]).m;
      r.a == 5 && r.x == 6 && !r.status.zero && !r.status.negative && r.pc == m.pc + 5
  {
    var program: seq<u8> := [0xA9, 0x05, 0xAA, 0xE8, 0x00];
    ReadLoaded(m, m.pc, program, 0);
    ReadLoaded(m, m.pc, program, 1);
    ReadLoaded(m, m.pc, program, 2);
    ReadLoaded(m, m.pc, program, 3);
    ReadLoaded(m, m.pc, program, 4);
    StepLdaImmediate(m);
    var m1 := Step(m, false).m;
    assert Read(m1, m1.pc) == 0xAA;
    StepTax(m1);
    var m2 := Step(m1, false).m;
    assert Read(m2, m2.pc) == 0xE8;
    StepInx(m2);
    var m3 := Step(m2, false).m;
    assert Read(m3, m3.pc) == 0x00;
    StepBrk(m3);
    assert Run(m2, [false, false]) == Run(m3, [false]);
    assert Run(m1, [false, false, false]) == Run(m2, [false, false]);
    assert Run(m, [false, false, false, false]) == Run(m1, [false, false, false]);
  }

  /** ADC #imm (0x69): the loop moves two bytes on after the addition. */
  lemma StepAdcImmediate(m: Machine)
    requires m.pc < 0xFFFE && Read(m, m.pc) == 0x69
    ensures Step(m, false) ==
      Running(AddToRegisterA(m, Read(m, m.pc + 1)).(pc := m.pc + 2, cycles := m.cycles + 2))
  {
    var m1 := m.(pc := m.pc + 1);
    var op := Opcode(0x69, ADC, 2, 2, Immediate);
    assert Decode(0x69) == Some(op);
    FetchDecoded(m, op);
    StepPerforms(m, false, m1, op);
    assert Operand(m1, Immediate) == Ok(Read(m, m.pc + 1));
    var m3 := AddToRegisterA(m1, Read(m, m.pc + 1));
    assert Execute(m1, op) == Ok(Executed(m3));
    PerformExecuted(m1, op, m3);
  }

  /** 0xFF + 2 with the carry clear: 1 with the carry out, no signed overflow. */
  lemma AddTwoToAllOnes(m: Machine)
    requires m.a == 0xFF && !m.status.carry
    ensures var r := AddToRegisterA(m, 0x02);
      r.a == 1 && r.status.carry && !r.status.overflow && !r.status.zero && !r.status.negative
  {
    var s := AddWithCarry(m.a, 0x02, false);
    assert m.a + 0x02 + BoolByte(false) == 0x101;
    assert s.value == 1 && s.carry && !s.overflow;
  }

  /** A = 0xFF with the carry clear, then ADC #$02; BRK: A = 1, carry set, V, Z, N clear. */
  lemma AddThenBreak(m: Machine)
    requires m.pc < 0xFFFD && m.a == 0xFF && !m.status.carry
    requires Read(m, m.pc) == 0x69 && Read(m, m.pc + 1) == 0x02 && Read(m, m.pc + 2) == 0x00
    ensures Run(m, [false, false]).Stopped?
    ensures var r := Run(m, [false, false]).m;
      r.a == 1 && r.status.carry && !r.status.overflow && !r.status.zero && !r.status.negative
  {
    StepAdcImmediate(m);
    AddTwoToAllOnes(m);
    var m1 := Step(m, false).m;
    assert Read(m1, m1.pc) == 0x00;
    StepBrk(m1);
    assert Run(m, [false, false]) == Run(m1, [false]);
  }

  /** LDA #$FF; ADC #$02; BRK with the carry clear stops with A = 1 and the
      carry set, V, Z and N clear. */
  lemma AddWithCarryProgram(m: Machine)
    requires m.pc < 0xFF00 && !m.status.carry && Loaded(m, m.pc, [0xA9, 0xFF, 0x69, 0x02, 0x00])
    ensures Run(m, [false, false, false]).Stopped?
    ensures var r := Run(m, [false, false, false]).m;
      r.a == 1 && r.status.carry && !r.status.overflow && !r.status.zero && !r.status.negative
  {
    var program: seq<u8> := [0xA9, 0xFF, 0x69, 0x02, 0x00];
    ReadLoaded(m, m.pc, program, 0);
    ReadLoaded(m, m.pc, program, 1);
    ReadLoaded(m, m.pc, program, 2);
    ReadLoaded(m, m.pc, program, 3);
    ReadLoaded(m, m.pc, program, 4);
    StepLdaImmediate(m);
    var m1 := Step(m, false).m;
    assert m1.mem == m.mem && m1.pc == m.pc + 2 && m1.a == 0xFF && !m1.status.carry;
    AddThenBreak(m1);
    assert Run(m, [false, false, false]) == Run(m1, [false, false]);
  }

  // ---------------------------------------------------------------------
  // Power-on and reset

  /** The reset status byte 0x24 has exactly INTERRUPT_DISABLE and BREAK2 set. */
  lemma ResetStatus()
    ensures FromBitsTruncate(STATUS_RESET) == Flags(false, false, true, false, false, true, false, false)
    ensures Bits(FromBitsTruncate(STATUS_RESET)) == STATUS_RESET
  {
    BitsOfFromBits(STATUS_RESET);
  }

  /** Reset clears A and X, restores the reset status, loads the program counter
      from the reset vector and keeps Y, the stack pointer and memory. */
  lemma ResetState(m: Machine)
    ensures var r := Reset(m);
      && r.a == 0 && r.x == 0 && r.y == m.y && r.sp == m.sp && r.mem == m.mem
      && r.status.interruptDisable && r.status.brk2 && !r.status.carry && !r.status.zero
      && r.pc == Word(Read(m, 0xFFFD), Read(m, 0xFFFC))
  {
    ResetStatus();
  }
}
