/**
 * A value-level model of the 6502 core of src/core.rs.
 *
 * A `Machine` holds the registers, the status flags, the 64 KiB address space
 * the CPU sees through its bus, and the number of cycles handed to the bus so
 * far.  Every instruction handler of the source is a function from a machine
 * to the machine it leaves behind.  Rust arithmetic that is not written as
 * `wrapping_*` panics on overflow in a debug build; the model makes each such
 * panic an explicit `Fail(ArithmeticOverflow)` outcome.
 */
module CpuModel {
  import opened Wrappers
  import opened Bytes
  import opened Opcodes

  /** Base of the stack page. */
  const STACK: u16 := 0x0100
  /** Stack pointer after power-up. */
  const STACK_RESET: u8 := 0xFD
  /** Status byte after power-up and after reset: INTERRUPT_DISABLE and BREAK2. */
  const STATUS_RESET: u8 := 0x24
  /** Where reset reads the starting program counter. */
  const RESET_VECTOR: u16 := 0xFFFC
  /** Where a non-maskable interrupt reads its handler address. */
  const NMI_VECTOR: u16 := 0xFFFA

  /** What the CPU sees through its bus: one byte behind every 16-bit address. */
  type Ram = s: seq<u8> | |s| == 0x10000 witness seq(0x10000, _ => 0)

  datatype Machine = Machine(
    a: u8, x: u8, y: u8,
    status: Flags,
    pc: u16,
    sp: u8,
    mem: Ram,
    cycles: nat)

  /** Why the source would stop with a panic instead of continuing. */
  datatype Fault =
    | ArithmeticOverflow                     // a non-wrapping u16 or u8 operation overflowed
    | UnsupportedMode(mode: AddressingMode)  // an operand address was asked of NoneAddressing or Immediate
    | UnknownOpcode(code: u8)                // the fetched byte is not a key of the opcode table

  type Outcome<T> = Result<T, Fault>

  // ---------------------------------------------------------------------
  // Status flags

  /** `update_zero_and_negative_flag`: Z is set exactly when `v` is zero, N is
      bit 7 of `v`, no other flag moves. */
  function UpdateZeroAndNegative(status: Flags, v: u8): (r: Flags)
    ensures r.zero <==> v == 0
    ensures r.negative <==> Negative(v)
    ensures r.(zero := status.zero, negative := status.negative) == status
  {
    status.(zero := v == 0, negative := v / 0x80 == 1)
  }

  /** `update_negative_flags`: N is bit 7 of `v`; Z in particular is kept. */
  function UpdateNegative(status: Flags, v: u8): (r: Flags)
    ensures r.negative <==> Negative(v)
    ensures r.(negative := status.negative) == status
  {
    status.(negative := v / 0x80 == 1)
  }

  // ---------------------------------------------------------------------
  // Memory

  function Read(m: Machine, addr: u16): u8 { m.mem[addr] }

  /** A write changes the byte at `addr` and no other. */
  function Write(m: Machine, addr: u16, data: u8): (r: Machine)
    ensures Read(r, addr) == data
    ensures forall other: u16 :: other != addr ==> Read(r, other) == Read(m, other)
    ensures r.(mem := m.mem) == m
  {
    m.(mem := m.mem[addr := data])
  }

  /**
   * `mem_read_u16`: low byte at `pos`, high byte at `pos + 1`.  The source's
   * `pos + 1` overflows at 0xFFFF; callers test for that first and fail with
   * ArithmeticOverflow.
   */
  function ReadU16(m: Machine, pos: u16): (r: u16)
    requires pos < 0xFFFF
    ensures LowByte(r) == Read(m, pos) && HighByte(r) == Read(m, pos + 1)
  {
    Word(Read(m, pos + 1), Read(m, pos))
  }

  /**
   * `mem_write_u16`: low byte to `pos`, high byte to `pos + 1`, so that
   * `mem_read_u16` reads the word back; no other byte changes.  As for the
   * read, `pos + 1` must not overflow.
   */
  function WriteU16(m: Machine, pos: u16, data: u16): (r: Machine)
    requires pos < 0xFFFF
    ensures ReadU16(r, pos) == data
    ensures forall other: u16 :: other != pos && other != pos + 1 ==> Read(r, other) == Read(m, other)
    ensures r.(mem := m.mem) == m
  {
    WordOfBytes(data);
    Write(Write(m, pos, LowByte(data)), pos + 1, HighByte(data))
  }

  // ---------------------------------------------------------------------
  // Stack (page one, growing downwards, the pointer wraps)

  function StackAddress(sp: u8): (r: u16)
    ensures HighByte(r) == 1 && LowByte(r) == sp
  {
    STACK + sp
  }

  /** `stack_push`: store at the current slot, then move the pointer down. */
  function StackPush(m: Machine, data: u8): Machine
  {
    Write(m, StackAddress(m.sp), data).(sp := WrappingSub8(m.sp, 1))
  }

  /** `stack_pop`: move the pointer up, then read that slot. */
  function StackPop(m: Machine): (Machine, u8)
  {
    var m1 := m.(sp := WrappingAdd8(m.sp, 1));
    (m1, Read(m1, StackAddress(m1.sp)))
  }

  /** `stack_push_u16`: the high byte is pushed first, so the low byte ends up on top. */
  function StackPushU16(m: Machine, data: u16): Machine
  {
    StackPush(StackPush(m, HighByte(data)), LowByte(data))
  }

  /** `stack_pop_u16`: low byte first. */
  function StackPopU16(m: Machine): (Machine, u16)
  {
    var (m1, lo) := StackPop(m);
    var (m2, hi) := StackPop(m1);
    (m2, Word(hi, lo))
  }

  // ---------------------------------------------------------------------
  // Addressing modes

  /** `get_absolute_address`: the effective address of the operand stored at `addr`. */
  function AbsoluteAddress(m: Machine, mode: AddressingMode, addr: u16): Outcome<u16>
  {
    match mode
    case ZeroPage => Ok(Read(m, addr))
    case Absolute => if addr == 0xFFFF then Fail(ArithmeticOverflow) else Ok(ReadU16(m, addr))
    case ZeroPageX => Ok(WrappingAdd8(Read(m, addr), m.x))
    case ZeroPageY => Ok(WrappingAdd8(Read(m, addr), m.y))
    case AbsoluteX =>
      if addr == 0xFFFF then Fail(ArithmeticOverflow) else Ok(WrappingAdd16(ReadU16(m, addr), m.x))
    case AbsoluteY =>
      if addr == 0xFFFF then Fail(ArithmeticOverflow) else Ok(WrappingAdd16(ReadU16(m, addr), m.y))
    case IndirectX =>
      var ptr := WrappingAdd8(Read(m, addr), m.x);
      Ok(Word(Read(m, WrappingAdd8(ptr, 1)), Read(m, ptr)))
    case IndirectY =>
      var base := Read(m, addr);
      var derefBase := Word(Read(m, WrappingAdd8(base, 1)), Read(m, base));
      Ok(WrappingAdd16(derefBase, m.y))
    case _ => Fail(UnsupportedMode(mode))
  }

  /** `get_operand_address`: the operand of an immediate is the byte at the program counter. */
  function OperandAddress(m: Machine, mode: AddressingMode): Outcome<u16>
  {
    if mode == Immediate then Ok(m.pc) else AbsoluteAddress(m, mode, m.pc)
  }

  /** The byte an instruction operates on. */
  function Operand(m: Machine, mode: AddressingMode): Outcome<u8>
  {
    var addr :- OperandAddress(m, mode);
    Ok(Read(m, addr))
  }

  // ---------------------------------------------------------------------
  // Arithmetic

  datatype Sum = Sum(value: u8, carry: bool, overflow: bool)

  /** The signed-overflow test of `add_to_register_a`: the operands agree in
      sign and the result does not (`SourceOverflowTest` shows this is the
      source's bit-7 test). */
  predicate OverflowOf(a: u8, d: u8, result: u8)
  {
    Negative(a) == Negative(d) && Negative(result) != Negative(a)
  }

  /** The source computes the overflow as bit 7 of `(d ^ result) & (result ^ a)`:
      exactly OverflowOf. */
  lemma SourceOverflowTest(a: u8, d: u8, result: u8)
    ensures OverflowOf(a, d, result) <==> And(And(Xor(d, result), Xor(result, a)), 0x80) != 0
  {
    XorSign(d, result);
    XorSign(result, a);
    AndSign(Xor(d, result), Xor(result, a));
    AndSignMask(And(Xor(d, result), Xor(result, a)));
  }

  /**
   * The nine-bit addition of `add_to_register_a`: the low byte of the sum, the
   * carry out of bit 7, and the signed overflow.
   */
  function AddWithCarry(a: u8, d: u8, carryIn: bool): (r: Sum)
    ensures r.value == (a + d + BoolByte(carryIn)) % 0x100
    ensures r.carry <==> a + d + BoolByte(carryIn) > 0xFF
    ensures r.overflow <==> OverflowOf(a, d, r.value)
  {
    var sum := a + d + BoolByte(carryIn);
    var result := sum % 0x100;
    Sum(result, sum > 0xFF, OverflowOf(a, d, result))
  }

  /** The operand SBC adds in place of `d`: `(d as i8).wrapping_neg().wrapping_sub(1) as u8`. */
  function SbcOperand(d: u8): (r: u8)
    ensures r == 0xFF - d
  {
    WrappingSub8(WrappingSub8(0, d), 1)
  }

  /** ROL's byte: bits 0-6 move up one place, the carry enters bit 0 (bit 7 leaves). */
  function RotateLeft(d: u8, carryIn: bool): (r: u8)
    ensures r % 2 == BoolByte(carryIn) && r / 2 == d % 0x80
  {
    (d * 2) % 0x100 + BoolByte(carryIn)
  }

  /** ROR's byte: bits 1-7 move down one place, the carry enters bit 7 (bit 0 leaves). */
  function RotateRight(d: u8, carryIn: bool): (r: u8)
    ensures r / 0x80 == BoolByte(carryIn) && r % 0x80 == d / 2
  {
    d / 2 + 0x80 * BoolByte(carryIn)
  }

  // ---------------------------------------------------------------------
  // Instruction handlers

  /** `set_register_a`. */
  function SetRegisterA(m: Machine, v: u8): Machine
  {
    m.(a := v, status := UpdateZeroAndNegative(m.status, v))
  }

  /** `add_to_register_a`: C, then V, then A with Z and N. */
  function AddToRegisterA(m: Machine, d: u8): Machine
  {
    var s := AddWithCarry(m.a, d, m.status.carry);
    SetRegisterA(m.(status := m.status.(carry := s.carry, overflow := s.overflow)), s.value)
  }

  /** `sub_from_register_a`. */
  function SubFromRegisterA(m: Machine, d: u8): Machine
  {
    AddToRegisterA(m, SbcOperand(d))
  }

  function AndWithRegisterA(m: Machine, d: u8): Machine { SetRegisterA(m, And(d, m.a)) }

  function XorWithRegisterA(m: Machine, d: u8): Machine { SetRegisterA(m, Xor(d, m.a)) }

  function OrWithRegisterA(m: Machine, d: u8): Machine { SetRegisterA(m, Or(d, m.a)) }

  function Lda(m: Machine, mode: AddressingMode): Outcome<Machine>
  {
    var v :- Operand(m, mode);
    Ok(SetRegisterA(m, v))
  }

  function Ldx(m: Machine, mode: AddressingMode): Outcome<Machine>
  {
    var v :- Operand(m, mode);
    Ok(m.(x := v, status := UpdateZeroAndNegative(m.status, v)))
  }

  function Ldy(m: Machine, mode: AddressingMode): Outcome<Machine>
  {
    var v :- Operand(m, mode);
    Ok(m.(y := v, status := UpdateZeroAndNegative(m.status, v)))
  }

  /** STA, STX and STY: store `v` at the operand address. */
  function Store(m: Machine, mode: AddressingMode, v: u8): Outcome<Machine>
  {
    var addr :- OperandAddress(m, mode);
    Ok(Write(m, addr, v))
  }

  function Tax(m: Machine): Machine { m.(x := m.a, status := UpdateZeroAndNegative(m.status, m.a)) }

  function Tay(m: Machine): Machine { m.(y := m.a, status := UpdateZeroAndNegative(m.status, m.a)) }

  function Txa(m: Machine): Machine { SetRegisterA(m, m.x) }

  function Tya(m: Machine): Machine { SetRegisterA(m, m.y) }

  function Inx(m: Machine): Machine
  {
    var v := WrappingAdd8(m.x, 1);
    m.(x := v, status := UpdateZeroAndNegative(m.status, v))
  }

  function Iny(m: Machine): Machine
  {
    var v := WrappingAdd8(m.y, 1);
    m.(y := v, status := UpdateZeroAndNegative(m.status, v))
  }

  function Dex(m: Machine): Machine
  {
    var v := WrappingSub8(m.x, 1);
    m.(x := v, status := UpdateZeroAndNegative(m.status, v))
  }

  function Dey(m: Machine): Machine
  {
    var v := WrappingSub8(m.y, 1);
    m.(y := v, status := UpdateZeroAndNegative(m.status, v))
  }

  function Txs(m: Machine): Machine { m.(sp := m.x) }

  function Tsx(m: Machine): Machine { m.(x := m.sp, status := UpdateZeroAndNegative(m.status, m.sp)) }

  function Adc(m: Machine, mode: AddressingMode): Outcome<Machine>
  {
    var d :- Operand(m, mode);
    Ok(AddToRegisterA(m, d))
  }

  function Sbc(m: Machine, mode: AddressingMode): Outcome<Machine>
  {
    var d :- Operand(m, mode);
    Ok(SubFromRegisterA(m, d))
  }

  function AndOp(m: Machine, mode: AddressingMode): Outcome<Machine>
  {
    var d :- Operand(m, mode);
    Ok(AndWithRegisterA(m, d))
  }

  function Eor(m: Machine, mode: AddressingMode): Outcome<Machine>
  {
    var d :- Operand(m, mode);
    Ok(XorWithRegisterA(m, d))
  }

  function Ora(m: Machine, mode: AddressingMode): Outcome<Machine>
  {
    var d :- Operand(m, mode);
    Ok(OrWithRegisterA(m, d))
  }

  /** PHP pushes the status with both break bits set; the status itself is unchanged. */
  function Php(m: Machine): Machine
  {
    StackPush(m, Bits(m.status.(brk := true, brk2 := true)))
  }

  /** The popped byte always converts (every bit is a declared flag), so `unwrap` cannot panic. */
  function Plp(m: Machine): Machine
  {
    var (m1, b) := StackPop(m);
    FromBitsTotal(b);
    var flags := FromBits(b).value;
    m1.(status := flags.(brk := false, brk2 := true))
  }

  function Pha(m: Machine): Machine { StackPush(m, m.a) }

  function Pla(m: Machine): Machine
  {
    var (m1, b) := StackPop(m);
    SetRegisterA(m1, b)
  }

  /** `inc`: write the incremented byte back, update Z and N, and return it. */
  function Inc(m: Machine, mode: AddressingMode): Outcome<(Machine, u8)>
  {
    var addr :- OperandAddress(m, mode);
    var data := WrappingAdd8(Read(m, addr), 1);
    var m1 := Write(m, addr, data);
    Ok((m1.(status := UpdateZeroAndNegative(m1.status, data)), data))
  }

  /** `dec`: write the decremented byte back, update Z and N, and return it. */
  function Dec(m: Machine, mode: AddressingMode): Outcome<(Machine, u8)>
  {
    var addr :- OperandAddress(m, mode);
    var data := WrappingSub8(Read(m, addr), 1);
    var m1 := Write(m, addr, data);
    Ok((m1.(status := UpdateZeroAndNegative(m1.status, data)), data))
  }

  /**
   * LSR.  On the accumulator only the carry is updated and the shifted value
   * is returned, A is not written.  On memory the shifted byte is stored,
   * loaded into A as well, and 0 is returned.
   */
  function Lsr(m: Machine, mode: AddressingMode): Outcome<(Machine, u8)>
  {
    if mode == NoneAddressing then
      var d := m.a;
      Ok((m.(status := m.status.(carry := d % 2 == 1)), d / 2))
    else
      var addr :- OperandAddress(m, mode);
      var d := Read(m, addr);
      var m1 := m.(status := m.status.(carry := d % 2 == 1));
      var r := d / 2;
      var m2 := Write(m1, addr, r);
      var m3 := m2.(status := UpdateZeroAndNegative(m2.status, r));
      Ok((SetRegisterA(m3, r), 0))
  }

  /**
   * ASL.  On the accumulator only the carry is updated and the shifted value
   * is returned, A is not written.  On memory the shifted byte is stored, Z
   * and N follow it, and 0 is returned.
   */
  function Asl(m: Machine, mode: AddressingMode): Outcome<(Machine, u8)>
  {
    if mode == NoneAddressing then
      var d := m.a;
      Ok((m.(status := m.status.(carry := d / 0x80 == 1)), (d * 2) % 0x100))
    else
      var addr :- OperandAddress(m, mode);
      var d := Read(m, addr);
      var m1 := m.(status := m.status.(carry := d / 0x80 == 1));
      var r := (d * 2) % 0x100;
      var m2 := Write(m1, addr, r);
      Ok((m2.(status := UpdateZeroAndNegative(m2.status, r)), 0))
  }

  /** ROL: as ASL, with the old carry shifted into bit 0. */
  function Rol(m: Machine, mode: AddressingMode): Outcome<(Machine, u8)>
  {
    if mode == NoneAddressing then
      var d := m.a;
      var oldCarry := m.status.carry;
      var m1 := m.(status := m.status.(carry := d / 0x80 == 1));
      Ok((m1, RotateLeft(d, oldCarry)))
    else
      var addr :- OperandAddress(m, mode);
      var d := Read(m, addr);
      var oldCarry := m.status.carry;
      var m1 := m.(status := m.status.(carry := d / 0x80 == 1));
      var r := RotateLeft(d, oldCarry);
      var m2 := Write(m1, addr, r);
      Ok((m2.(status := UpdateZeroAndNegative(m2.status, r)), 0))
  }

  /**
   * ROR.  On the accumulator the rotated value goes to A and 0 is returned.
   * On memory the rotated byte is stored, only N follows it, and the byte is
   * returned.
   */
  function Ror(m: Machine, mode: AddressingMode): Outcome<(Machine, u8)>
  {
    if mode == NoneAddressing then
      var d := m.a;
      var oldCarry := m.status.carry;
      var m1 := m.(status := m.status.(carry := d % 2 == 1));
      var r := RotateRight(d, oldCarry);
      Ok((SetRegisterA(m1, r), 0))
    else
      var addr :- OperandAddress(m, mode);
      var d := Read(m, addr);
      var oldCarry := m.status.carry;
      var m1 := m.(status := m.status.(carry := d % 2 == 1));
      var r := RotateRight(d, oldCarry);
      var m2 := Write(m1, addr, r);
      Ok((m2.(status := UpdateNegative(m2.status, r)), r))
  }

  /** RLA: ROL, then AND its return value into A. */
  function Rla(m: Machine, mode: AddressingMode): Outcome<Machine>
  {
    var r :- Rol(m, mode);
    Ok(AndWithRegisterA(r.0, r.1))
  }

  /** RRA: ROR, then add its return value to A. */
  function Rra(m: Machine, mode: AddressingMode): Outcome<Machine>
  {
    var r :- Ror(m, mode);
    Ok(AddToRegisterA(r.0, r.1))
  }

  /** SRE: LSR, then XOR its return value into A. */
  function Sre(m: Machine, mode: AddressingMode): Outcome<Machine>
  {
    var r :- Lsr(m, mode);
    Ok(XorWithRegisterA(r.0, r.1))
  }

  /** SLO: ASL, then OR its return value into A. */
  function Slo(m: Machine, mode: AddressingMode): Outcome<Machine>
  {
    var r :- Asl(m, mode);
    Ok(OrWithRegisterA(r.0, r.1))
  }

  /** ISB: INC, then subtract the incremented byte from A. */
  function Isb(m: Machine, mode: AddressingMode): Outcome<Machine>
  {
    var r :- Inc(m, mode);
    Ok(SubFromRegisterA(r.0, r.1))
  }

  /** DCP: decrement memory, then compare with A; the carry is only ever set here. */
  function Dcp(m: Machine, mode: AddressingMode): Outcome<Machine>
  {
    var addr :- OperandAddress(m, mode);
    var data := WrappingSub8(Read(m, addr), 1);
    var m1 := Write(m, addr, data);
    var status := if data <= m.a then m1.status.(carry := true) else m1.status;
    Ok(m1.(status := UpdateZeroAndNegative(status, WrappingSub8(m.a, data))))
  }

  function Lax(m: Machine, mode: AddressingMode): Outcome<Machine>
  {
    var d :- Operand(m, mode);
    var m1 := SetRegisterA(m, d);
    Ok(m1.(x := m1.a))
  }

  function Aax(m: Machine, mode: AddressingMode): Outcome<Machine> { Store(m, mode, And(m.x, m.a)) }

  /** JSR pushes the address of its own last byte, then jumps to the absolute operand. */
  function Jsr(m: Machine): Outcome<Machine>
  {
    if m.pc + 2 > 0xFFFF then Fail(ArithmeticOverflow)
    else
      var m1 := StackPushU16(m, m.pc + 2 - 1);
      Ok(m1.(pc := ReadU16(m1, m.pc)))
  }

  /** RTS resumes one past the popped address. */
  function Rts(m: Machine): Outcome<Machine>
  {
    var (m1, ret) := StackPopU16(m);
    if ret + 1 > 0xFFFF then Fail(ArithmeticOverflow) else Ok(m1.(pc := ret + 1))
  }

  /** RTI pops the status, then the program counter; the break bits are normalised. */
  function Rti(m: Machine): Machine
  {
    var (m1, b) := StackPop(m);
    FromBitsTotal(b);
    var m2 := m1.(status := FromBits(b).value);
    var (m3, ret) := StackPopU16(m2);
    m3.(pc := ret, status := m3.status.(brk := false, brk2 := true))
  }

  /** `jump as u16` for `jump: i8`: the 16-bit two's complement of the offset. */
  function SignExtend(b: u8): (r: u16)
    ensures r % 0x10000 == Signed(b) % 0x10000
  {
    if b < 0x80 then b else b + 0xFF00
  }

  /** A taken branch jumps relative to the address after its offset byte. */
  function Branch(m: Machine, condition: bool): Machine
  {
    if condition then m.(pc := WrappingAdd16(WrappingAdd16(m.pc, 1), SignExtend(Read(m, m.pc))))
    else m
  }

  /** The flag test of each conditional branch. */
  predicate BranchCondition(mnemonic: Mnemonic, status: Flags)
  {
    match mnemonic
    case BCC => !status.carry
    case BCS => status.carry
    case BEQ => status.zero
    case BMI => status.negative
    case BNE => !status.zero
    case BPL => !status.negative
    case BVC => !status.overflow
    case BVS => status.overflow
    case _ => false
  }

  /** The status after comparing `register` with `d`: C iff `d` is at most the
      register, Z iff they are equal, N from bit 7 of their wrapping difference. */
  function CompareFlags(status: Flags, register: u8, d: u8): (r: Flags)
    ensures r.carry <==> d <= register
    ensures r.zero <==> d == register
    ensures r.negative <==> Negative(WrappingSub8(register, d))
    ensures r.(carry := status.carry, zero := status.zero, negative := status.negative) == status
  {
    UpdateZeroAndNegative(status.(carry := d <= register), WrappingSub8(register, d))
  }

  function Compare(m: Machine, mode: AddressingMode, register: u8): Outcome<Machine>
  {
    var d :- Operand(m, mode);
    Ok(m.(status := CompareFlags(m.status, register, d)))
  }

  /** The status after BIT: Z iff `a` and `d` share no bit, N and V copy bits 7 and 6 of `d`. */
  function BitFlags(status: Flags, a: u8, d: u8): (r: Flags)
    ensures r.zero <==> forall i :: 0 <= i < 8 ==> !(BitOf(a, i) && BitOf(d, i))
    ensures r.negative <==> Negative(d)
    ensures r.overflow <==> BitOf(d, 6)
    ensures r.(zero := status.zero, negative := status.negative, overflow := status.overflow) == status
  {
    AndZero(a, d);
    AndSignMask(d);
    SingleBitMask(d, 0x40, 6);
    status.(zero := And(a, d) == 0, negative := And(d, 0x80) > 0, overflow := And(d, 0x40) > 0)
  }

  function BitTest(m: Machine, mode: AddressingMode): Outcome<Machine>
  {
    var d :- Operand(m, mode);
    Ok(m.(status := BitFlags(m.status, m.a, d)))
  }

  /** The address an indirect JMP through `ptr` reaches, with the 6502 page bug:
      a pointer ending in 0xFF takes its high byte from the start of its page. */
  function IndirectTarget(m: Machine, ptr: u16): u16
  {
    if ptr % 0x100 == 0xFF then Word(Read(m, ptr - 0xFF), Read(m, ptr))
    else ReadU16(m, ptr)
  }

  /**
   * JMP.  The indirect form (mode NoneAddressing in the table) follows the
   * pointer with the page bug, the absolute form jumps to its operand, and
   * any other mode leaves the machine unchanged.
   */
  function Jmp(m: Machine, mode: AddressingMode): Outcome<Machine>
  {
    match mode
    case NoneAddressing =>
      if m.pc == 0xFFFF then Fail(ArithmeticOverflow)
      else Ok(m.(pc := IndirectTarget(m, ReadU16(m, m.pc))))
    case Absolute =>
      if m.pc == 0xFFFF then Fail(ArithmeticOverflow) else Ok(m.(pc := ReadU16(m, m.pc)))
    case _ => Ok(m)
  }

  // ---------------------------------------------------------------------
  // The interpreter loop

  /** The effect of dispatching one instruction: go on, or return from the loop (BRK). */
  datatype Dispatch = Executed(m: Machine) | Returned(m: Machine)

  function Continue(r: Outcome<Machine>): Outcome<Dispatch>
  {
    var m :- r;
    Ok(Executed(m))
  }

  function Discard(r: Outcome<(Machine, u8)>): Outcome<Dispatch>
  {
    var p :- r;
    Ok(Executed(p.0))
  }

  /** The `match operation.mnemonic` of the interpreter loop. */
  function Execute(m: Machine, op: Opcode): Outcome<Dispatch>
  {
    var mode := op.mode;
    match op.mnemonic
    case ADC => Continue(Adc(m, mode))
    case AND => Continue(AndOp(m, mode))
    case ASL => Discard(Asl(m, mode))
    case BCC | BCS | BEQ | BMI | BNE | BPL | BVC | BVS =>
      Ok(Executed(Branch(m, BranchCondition(op.mnemonic, m.status))))
    case BRK => Ok(Returned(m))
    case CLC => Ok(Executed(m.(status := m.status.(carry := false))))
    case CLD => Ok(Executed(m.(status := m.status.(decimalMode := false))))
    case CLI => Ok(Executed(m.(status := m.status.(interruptDisable := false))))
    case CLV => Ok(Executed(m.(status := m.status.(overflow := false))))
    case CMP => Continue(Compare(m, mode, m.a))
    case CPX => Continue(Compare(m, mode, m.x))
    case CPY => Continue(Compare(m, mode, m.y))
    case DEX => Ok(Executed(Dex(m)))
    case INX => Ok(Executed(Inx(m)))
    case INY => Ok(Executed(Iny(m)))
    case JSR => Continue(Jsr(m))
    case LDA => Continue(Lda(m, mode))
    case LDX => Continue(Ldx(m, mode))
    case PHA => Ok(Executed(Pha(m)))
    case PHP => Ok(Executed(Php(m)))
    case PLA => Ok(Executed(Pla(m)))
    case PLP => Ok(Executed(Plp(m)))
    case ROL => Discard(Rol(m, mode))
    case ROR => Discard(Ror(m, mode))
    case RTS => Continue(Rts(m))
    case SBC => Continue(Sbc(m, mode))
    case SEC => Ok(Executed(m.(status := m.status.(carry := true))))
    case SED => Ok(Executed(m.(status := m.status.(decimalMode := true))))
    case SEI => Ok(Executed(m.(status := m.status.(interruptDisable := true))))
    case STA => Continue(Store(m, mode, m.a))
    case TAX => Ok(Executed(Tax(m)))
    case TXA => Ok(Executed(Txa(m)))
    case LSR => Discard(Lsr(m, mode))
    case INC => Discard(Inc(m, mode))
    case BIT => Continue(BitTest(m, mode))
    case LDY => Continue(Ldy(m, mode))
    case NOP => Ok(Executed(m))
    case JMP => Continue(Jmp(m, mode))
    case DEC => Discard(Dec(m, mode))
    case TXS => Ok(Executed(Txs(m)))
    case TSX => Ok(Executed(Tsx(m)))
    case STX => Continue(Store(m, mode, m.x))
    case STY => Continue(Store(m, mode, m.y))
    case ORA => Continue(Ora(m, mode))
    case EOR => Continue(Eor(m, mode))
    case DEY => Ok(Executed(Dey(m)))
    case TAY => Ok(Executed(Tay(m)))
    case TYA => Ok(Executed(Tya(m)))
    case RTI => Ok(Executed(Rti(m)))
    case DOP => Ok(Executed(m))
    case TOP => Ok(Executed(m))
    case LAX => Continue(Lax(m, mode))
    case AAX => Continue(Aax(m, mode))
    case DCP => Continue(Dcp(m, mode))
    case ISB => Continue(Isb(m, mode))
    case SLO => Continue(Slo(m, mode))
    case RLA => Continue(Rla(m, mode))
    case SRE => Continue(Sre(m, mode))
    case RRA => Continue(Rra(m, mode))
  }

  /**
   * `interrupt_nmi`: push the program counter and the status (BREAK clear,
   * BREAK2 set), disable interrupts, spend two cycles and jump through the
   * NMI vector.
   */
  function InterruptNmi(m: Machine): Machine
  {
    var m1 := StackPushU16(m, m.pc);
    var flag := m1.status.(brk := false, brk2 := true);
    var m2 := StackPush(m1, Bits(flag));
    var m3 := m2.(status := m2.status.(interruptDisable := true), cycles := m2.cycles + 2);
    m3.(pc := ReadU16(m3, NMI_VECTOR))
  }

  datatype StepResult = Running(m: Machine) | Halted(m: Machine) | Faulted(fault: Fault)

  /**
   * After a handler: when it left the program counter where the fetch put
   * it, skip the instruction's operand bytes (`(len - 1) as u16`, added
   * without wrapping).
   */
  function AdvancePc(m: Machine, pcState: u16, len: nat): StepResult
  {
    if m.pc != pcState then Running(m)
    else if len == 0 then Faulted(ArithmeticOverflow)
    else if m.pc + (len - 1) > 0xFFFF then Faulted(ArithmeticOverflow)
    else Running(m.(pc := m.pc + (len - 1)))
  }

  /** The machine the fetch sees: with an NMI pending, the interrupt is serviced first. */
  function Service(m: Machine, nmi: bool): Machine
  {
    if nmi then InterruptNmi(m) else m
  }

  /** The fetch: the opcode byte at the program counter, its table entry, and
      the program counter moved past it (`+= 1`, which must not overflow). */
  datatype Fetched = Fetched(m1: Machine, op: Opcode) | Unfetched(fault: Fault)

  function Fetch(m0: Machine): Fetched
  {
    if m0.pc == 0xFFFF then Unfetched(ArithmeticOverflow)
    else
      match Decode(Read(m0, m0.pc))
      case None => Unfetched(UnknownOpcode(Read(m0, m0.pc)))
      case Some(op) => Fetched(m0.(pc := m0.pc + 1), op)
  }

  /**
   * One iteration of the interpreter loop, `nmi` being what the bus poll
   * reported: service the interrupt, fetch, then run the instruction.
   */
  function Step(m: Machine, nmi: bool): StepResult
  {
    match Fetch(Service(m, nmi))
    case Unfetched(f) => Faulted(f)
    case Fetched(m1, op) => Perform(m1, op)
  }

  /** The rest of an iteration once `op` is fetched and the program counter is
      past it: dispatch, spend the entry's cycles, advance.  The source ticks
      the bus before dispatching; no handler reads or changes the cycle count,
      so adding it afterwards gives the same machine. */
  function Perform(m1: Machine, op: Opcode): StepResult
  {
    match Execute(m1, op)
    case Fail(f) => Faulted(f)
    case Ok(Returned(m3)) => Halted(m3.(cycles := m3.cycles + op.cycles))
    case Ok(Executed(m3)) => AdvancePc(m3.(cycles := m3.cycles + op.cycles), m1.pc, op.len)
  }

  datatype RunResult = Stopped(m: Machine) | Panicked(fault: Fault) | OutOfPolls(m: Machine)

  /**
   * `run_with_callback` with one NMI poll answer per iteration.  The source
   * loops until BRK; the sequence of polls bounds the number of iterations.
   */
  function Run(m: Machine, polls: seq<bool>): RunResult
    decreases |polls|
  {
    if polls == [] then OutOfPolls(m)
    else
      match Step(m, polls[0])
      case Halted(m1) => Stopped(m1)
      case Faulted(f) => Panicked(f)
      case Running(m1) => Run(m1, polls[1..])
  }

  /** `Cpu::new`: a freshly created CPU over the given memory. */
  function PowerOn(mem: Ram): Machine
  {
    Machine(0, 0, 0, FromBitsTruncate(STATUS_RESET), 0, STACK_RESET, mem, 0)
  }

  /** `reset`: clears A and X, restores the status and loads the reset vector; Y and SP are kept. */
  function Reset(m: Machine): Machine
  {
    m.(a := 0, x := 0, status := FromBitsTruncate(STATUS_RESET), pc := ReadU16(m, RESET_VECTOR))
  }
}
