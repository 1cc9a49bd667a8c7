/**
 * The CPU of src/core.rs as the source writes it: an object whose registers,
 * status and program counter are fields updated in place, over a 64 KiB
 * memory array standing for the bus.  Every method is proved to leave the
 * object in the state the value-level model `CpuModel` computes from the
 * state it started in, so that the properties proved about the model hold
 * of the object.
 */
module Core {
  import opened Wrappers
  import opened Bytes
  import opened Opcodes
  import CpuModel
  import CpuProperties

  /** How one iteration of the interpreter loop ended. */
  datatype StepStatus = Continue | Break | Panic(fault: CpuModel.Fault)

  /** How the interpreter loop ended. */
  datatype RunStatus = Returned | Panicked(fault: CpuModel.Fault) | PollsExhausted

  /** What a dispatched handler asks of the loop. */
  datatype Flow = Proceed | Return

  class Cpu {
    var registerA: u8
    var registerX: u8
    var registerY: u8
    var status: Flags
    var programCounter: u16
    var stackPointer: u8
    /** The cycles handed to the bus so far. */
    var cycles: nat
    /** The address space behind the bus, one byte per 16-bit address. */
    const memory: array<u8>

    ghost predicate Valid()
      reads this
    {
      memory.Length == 0x10000
    }

    /** The object's whole state as a model machine. */
    function Snapshot(): CpuModel.Machine
      reads this, memory
      requires Valid()
    {
      CpuModel.Machine(registerA, registerX, registerY, status, programCounter, stackPointer,
                       memory[..], cycles)
    }

    /** Whether the object is where the model's outcome `e` leads, failing as it does. */
    ghost predicate Reaches(e: CpuModel.Outcome<CpuModel.Machine>, fault: Option<CpuModel.Fault>)
      reads this, memory
      requires Valid()
    {
      match e
      case Ok(m) => fault.None? && Snapshot() == m
      case Fail(f) => fault == Some(f)
    }

    /** As `Reaches`, for the handlers that also return a byte. */
    ghost predicate ReachesWith(e: CpuModel.Outcome<(CpuModel.Machine, u8)>, fault: Option<CpuModel.Fault>, value: u8)
      reads this, memory
      requires Valid()
    {
      match e
      case Ok(p) => fault.None? && Snapshot() == p.0 && value == p.1
      case Fail(f) => fault == Some(f)
    }

    /** Whether the object is where a dispatch outcome of the model leads. */
    ghost predicate Dispatched(e: CpuModel.Outcome<CpuModel.Dispatch>, r: CpuModel.Outcome<Flow>)
      reads this, memory
      requires Valid()
    {
      match e
      case Ok(Executed(m)) => r == Ok(Proceed) && Snapshot() == m
      case Ok(Returned(m)) => r == Ok(Return) && Snapshot() == m
      case Fail(f) => r == Fail(f)
    }

    /** Whether the object is where one model step leads, reporting it as `s`. */
    ghost predicate Stepped(e: CpuModel.StepResult, s: StepStatus)
      reads this, memory
      requires Valid()
    {
      match e
      case Running(m) => s == Continue && Snapshot() == m
      case Halted(m) => s == Break && Snapshot() == m
      case Faulted(f) => s == Panic(f)
    }

    /** Whether the object is where a model run leads, reporting it as `r`. */
    ghost predicate Ran(e: CpuModel.RunResult, r: RunStatus)
      reads this, memory
      requires Valid()
    {
      match e
      case Stopped(m) => r == Returned && Snapshot() == m
      case OutOfPolls(m) => r == PollsExhausted && Snapshot() == m
      case Panicked(f) => r == Panicked(f)
    }

    /** `Cpu::new` over a bus holding `mem`. */
    constructor(mem: CpuModel.Ram)
      ensures Valid() && fresh(memory)
      ensures Snapshot() == CpuModel.PowerOn(mem)
    {
      registerA := 0;
      registerX := 0;
      registerY := 0;
      stackPointer := CpuModel.STACK_RESET;
      programCounter := 0;
      status := FromBitsTruncate(CpuModel.STATUS_RESET);
      cycles := 0;
      memory := new u8[0x10000](i requires 0 <= i < 0x10000 => mem[i]);
      new;
      assert memory[..] == mem;
    }

    // -------------------------------------------------------------------
    // Memory

    method MemRead(addr: u16) returns (v: u8)
      requires Valid()
      ensures v == CpuModel.Read(Snapshot(), addr)
    {
      v := memory[addr];
    }

    method MemWrite(addr: u16, data: u8)
      requires Valid()
      modifies memory
      ensures Valid()
      ensures Snapshot() == CpuModel.Write(old(Snapshot()), addr, data)
    {
      memory[addr] := data;
    }

    /** `mem_read_u16`; the caller has ruled out `pos + 1` overflowing. */
    method MemReadU16(pos: u16) returns (v: u16)
      requires Valid() && pos < 0xFFFF
      ensures v == CpuModel.ReadU16(Snapshot(), pos)
    {
      var lo := MemRead(pos);
      var hi := MemRead(pos + 1);
      v := Word(hi, lo);
    }

    /** `mem_write_u16`; the caller has ruled out `pos + 1` overflowing. */
    method MemWriteU16(pos: u16, data: u16)
      requires Valid() && pos < 0xFFFF
      modifies memory
      ensures Valid()
      ensures Snapshot() == CpuModel.WriteU16(old(Snapshot()), pos, data)
    {
      var hi := HighByte(data);
      var lo := LowByte(data);
      MemWrite(pos, lo);
      MemWrite(pos + 1, hi);
    }

    // -------------------------------------------------------------------
    // Stack

    method StackPush(data: u8)
      requires Valid()
      modifies this, memory
      ensures Valid()
      ensures Snapshot() == CpuModel.StackPush(old(Snapshot()), data)
    {
      MemWrite(CpuModel.STACK + stackPointer, data);
      stackPointer := WrappingSub8(stackPointer, 1);
    }

    method StackPop() returns (data: u8)
      requires Valid()
      modifies this
      ensures Valid()
      ensures (Snapshot(), data) == CpuModel.StackPop(old(Snapshot()))
    {
      stackPointer := WrappingAdd8(stackPointer, 1);
      data := MemRead(CpuModel.STACK + stackPointer);
    }

    method StackPushU16(data: u16)
      requires Valid()
      modifies this, memory
      ensures Valid()
      ensures Snapshot() == CpuModel.StackPushU16(old(Snapshot()), data)
    {
      var hi := data / 0x100;
      var lo := data % 0x100;
      StackPush(hi);
      StackPush(lo);
    }

    method StackPopU16() returns (data: u16)
      requires Valid()
      modifies this
      ensures Valid()
      ensures (Snapshot(), data) == CpuModel.StackPopU16(old(Snapshot()))
    {
      var lo := StackPop();
      var hi := StackPop();
      data := Word(hi, lo);
    }

    // -------------------------------------------------------------------
    // Flags and register A

    method UpdateZeroAndNegativeFlag(v: u8)
      requires Valid()
      modifies this
      ensures Valid()
      ensures Snapshot() == old(Snapshot()).(status := CpuModel.UpdateZeroAndNegative(old(status), v))
    {
      var flags := status;
      if v == 0 {
        flags := flags.(zero := true);
      } else {
        flags := flags.(zero := false);
      }
      if v / 0x80 == 1 {
        flags := flags.(negative := true);
      } else {
        flags := flags.(negative := false);
      }
      status := flags;
    }

    method UpdateNegativeFlag(v: u8)
      requires Valid()
      modifies this
      ensures Valid()
      ensures Snapshot() == old(Snapshot()).(status := CpuModel.UpdateNegative(old(status), v))
    {
      var flags := status;
      if v / 0x80 == 1 {
        flags := flags.(negative := true);
      } else {
        flags := flags.(negative := false);
      }
      status := flags;
    }

    method SetRegisterA(v: u8)
      requires Valid()
      modifies this
      ensures Valid()
      ensures Snapshot() == CpuModel.SetRegisterA(old(Snapshot()), v)
    {
      registerA := v;
      UpdateZeroAndNegativeFlag(registerA);
    }

    /** `add_to_register_a`, the overflow test written as the source writes it. */
    method AddToRegisterA(data: u8)
      requires Valid()
      modifies this
      ensures Valid()
      ensures Snapshot() == CpuModel.AddToRegisterA(old(Snapshot()), data)
    {
      var sum := registerA + data + BoolByte(status.carry);
      var carry := sum > 0xFF;
      status := status.(carry := carry);
      var result: u8 := sum % 0x100;
      CpuModel.SourceOverflowTest(registerA, data, result);
      var overflow := And(And(Xor(data, result), Xor(result, registerA)), 0x80) != 0;
      status := status.(overflow := overflow);
      SetRegisterA(result);
    }
  
    method SubFromRegisterA(data: u8)
      requires Valid()
      modifies this
      ensures Valid()
      ensures Snapshot() == CpuModel.SubFromRegisterA(old(Snapshot()), data)
    {
      AddToRegisterA(CpuModel.SbcOperand(data));
    }

    // -------------------------------------------------------------------
    // Addressing modes

    method GetAbsoluteAddress(mode: AddressingMode, addr: u16) returns (r: CpuModel.Outcome<u16>)
      requires Valid()
      ensures r == CpuModel.AbsoluteAddress(Snapshot(), mode, addr)
    {
      match mode
      case ZeroPage =>
        var b := MemRead(addr);
        r := Ok(b);
      case Absolute =>
        if addr == 0xFFFF {
          r := Fail(CpuModel.ArithmeticOverflow);
        } else {
          var w := MemReadU16(addr);
          r := Ok(w);
        }
      case ZeroPageX =>
        var pos := MemRead(addr);
        r := Ok(WrappingAdd8(pos, registerX));
      case ZeroPageY =>
        var pos := MemRead(addr);
        r := Ok(WrappingAdd8(pos, registerY));
      case AbsoluteX =>
        if addr == 0xFFFF {
          r := Fail(CpuModel.ArithmeticOverflow);
        } else {
          var base := MemReadU16(addr);
          r := Ok(WrappingAdd16(base, registerX));
        }
      case AbsoluteY =>
        if addr == 0xFFFF {
          r := Fail(CpuModel.ArithmeticOverflow);
        } else {
          var base := MemReadU16(addr);
          r := Ok(WrappingAdd16(base, registerY));
        }
      case IndirectX =>
        var base := MemRead(addr);
        var ptr := WrappingAdd8(base, registerX);
        var lo := MemRead(ptr);
        var hi := MemRead(WrappingAdd8(ptr, 1));
        r := Ok(Word(hi, lo));
      case IndirectY =>
        var base := MemRead(addr);
        var lo := MemRead(base);
        var hi := MemRead(WrappingAdd8(base, 1));
        r := Ok(WrappingAdd16(Word(hi, lo), registerY));
      case _ =>
        r := Fail(CpuModel.UnsupportedMode(mode));
    }

    method GetOperandAddress(mode: AddressingMode) returns (r: CpuModel.Outcome<u16>)
      requires Valid()
      ensures r == CpuModel.OperandAddress(Snapshot(), mode)
    {
      if mode == Immediate {
        r := Ok(programCounter);
      } else {
        r := GetAbsoluteAddress(mode, programCounter);
      }
    }

    // -------------------------------------------------------------------
    // Loads, stores and transfers

    method Lda(mode: AddressingMode) returns (fault: Option<CpuModel.Fault>)
      requires Valid()
      modifies this
      ensures Valid()
      ensures Reaches(CpuModel.Lda(old(Snapshot()), mode), fault)
    {
      var addr := GetOperandAddress(mode);
      if addr.Fail? { return Some(addr.error); }
      var value := MemRead(addr.value);
      registerA := value;
      UpdateZeroAndNegativeFlag(registerA);
      return None;
    }

    method Ldx(mode: AddressingMode) returns (fault: Option<CpuModel.Fault>)
      requires Valid()
      modifies this
      ensures Valid()
      ensures Reaches(CpuModel.Ldx(old(Snapshot()), mode), fault)
    {
      var addr := GetOperandAddress(mode);
      if addr.Fail? { return Some(addr.error); }
      var value := MemRead(addr.value);
      registerX := value;
      UpdateZeroAndNegativeFlag(registerX);
      return None;
    }

    method Ldy(mode: AddressingMode) returns (fault: Option<CpuModel.Fault>)
      requires Valid()
      modifies this
      ensures Valid()
      ensures Reaches(CpuModel.Ldy(old(Snapshot()), mode), fault)
    {
      var addr := GetOperandAddress(mode);
      if addr.Fail? { return Some(addr.error); }
      var value := MemRead(addr.value);
      registerY := value;
      UpdateZeroAndNegativeFlag(registerY);
      return None;
    }

    /** STA, STX, STY and (with `x & a`) AAX. */
    method Store(mode: AddressingMode, v: u8) returns (fault: Option<CpuModel.Fault>)
      requires Valid()
      modifies memory
      ensures Valid()
      ensures Reaches(CpuModel.Store(old(Snapshot()), mode, v), fault)
    {
      var addr := GetOperandAddress(mode);
      if addr.Fail? { return Some(addr.error); }
      MemWrite(addr.value, v);
      return None;
    }

    method Tax()
      requires Valid()
      modifies this
      ensures Valid()
      ensures Snapshot() == CpuModel.Tax(old(Snapshot()))
    {
      registerX := registerA;
      UpdateZeroAndNegativeFlag(registerX);
    }

    method Tay()
      requires Valid()
      modifies this
      ensures Valid()
      ensures Snapshot() == CpuModel.Tay(old(Snapshot()))
    {
      registerY := registerA;
      UpdateZeroAndNegativeFlag(registerY);
    }

    method Txa()
      requires Valid()
      modifies this
      ensures Valid()
      ensures Snapshot() == CpuModel.Txa(old(Snapshot()))
    {
      registerA := registerX;
      UpdateZeroAndNegativeFlag(registerA);
    }

    method Tya()
      requires Valid()
      modifies this
      ensures Valid()
      ensures Snapshot() == CpuModel.Tya(old(Snapshot()))
    {
      registerA := registerY;
      UpdateZeroAndNegativeFlag(registerA);
    }

    method Inx()
      requires Valid()
      modifies this
      ensures Valid()
      ensures Snapshot() == CpuModel.Inx(old(Snapshot()))
    {
      registerX := WrappingAdd8(registerX, 1);
      UpdateZeroAndNegativeFlag(registerX);
    }

    method Iny()
      requires Valid()
      modifies this
      ensures Valid()
      ensures Snapshot() == CpuModel.Iny(old(Snapshot()))
    {
      registerY := WrappingAdd8(registerY, 1);
      UpdateZeroAndNegativeFlag(registerY);
    }

    method Dex()
      requires Valid()
      modifies this
      ensures Valid()
      ensures Snapshot() == CpuModel.Dex(old(Snapshot()))
    {
      registerX := WrappingSub8(registerX, 1);
      UpdateZeroAndNegativeFlag(registerX);
    }

    method Dey()
      requires Valid()
      modifies this
      ensures Valid()
      ensures Snapshot() == CpuModel.Dey(old(Snapshot()))
    {
      registerY := WrappingSub8(registerY, 1);
      UpdateZeroAndNegativeFlag(registerY);
    }

    method Txs()
      requires Valid()
      modifies this
      ensures Valid()
      ensures Snapshot() == CpuModel.Txs(old(Snapshot()))
    {
      stackPointer := registerX;
    }

    method Tsx()
      requires Valid()
      modifies this
      ensures Valid()
      ensures Snapshot() == CpuModel.Tsx(old(Snapshot()))
    {
      registerX := stackPointer;
      UpdateZeroAndNegativeFlag(registerX);
    }

    // -------------------------------------------------------------------
    // Arithmetic and logic on A

    method Adc(mode: AddressingMode) returns (fault: Option<CpuModel.Fault>)
      requires Valid()
      modifies this
      ensures Valid()
      ensures Reaches(CpuModel.Adc(old(Snapshot()), mode), fault)
    {
      var addr := GetOperandAddress(mode);
      if addr.Fail? { return Some(addr.error); }
      var value := MemRead(addr.value);
      AddToRegisterA(value);
      return None;
    }

    method Sbc(mode: AddressingMode) returns (fault: Option<CpuModel.Fault>)
      requires Valid()
      modifies this
      ensures Valid()
      ensures Reaches(CpuModel.Sbc(old(Snapshot()), mode), fault)
    {
      var addr := GetOperandAddress(mode);
      if addr.Fail? { return Some(addr.error); }
      var data := MemRead(addr.value);
      AddToRegisterA(CpuModel.SbcOperand(data));
      return None;
    }

    method AndOp(mode: AddressingMode) returns (fault: Option<CpuModel.Fault>)
      requires Valid()
      modifies this
      ensures Valid()
      ensures Reaches(CpuModel.AndOp(old(Snapshot()), mode), fault)
    {
      var addr := GetOperandAddress(mode);
      if addr.Fail? { return Some(addr.error); }
      var data := MemRead(addr.value);
      SetRegisterA(And(data, registerA));
      return None;
    }

    method Eor(mode: AddressingMode) returns (fault: Option<CpuModel.Fault>)
      requires Valid()
      modifies this
      ensures Valid()
      ensures Reaches(CpuModel.Eor(old(Snapshot()), mode), fault)
    {
      var addr := GetOperandAddress(mode);
      if addr.Fail? { return Some(addr.error); }
      var data := MemRead(addr.value);
      SetRegisterA(Xor(data, registerA));
      return None;
    }

    method Ora(mode: AddressingMode) returns (fault: Option<CpuModel.Fault>)
      requires Valid()
      modifies this
      ensures Valid()
      ensures Reaches(CpuModel.Ora(old(Snapshot()), mode), fault)
    {
      var addr := GetOperandAddress(mode);
      if addr.Fail? { return Some(addr.error); }
      var data := MemRead(addr.value);
      SetRegisterA(Or(data, registerA));
      return None;
    }

    method Compare(mode: AddressingMode, compareWith: u8) returns (fault: Option<CpuModel.Fault>)
      requires Valid()
      modifies this
      ensures Valid()
      ensures Reaches(CpuModel.Compare(old(Snapshot()), mode, compareWith), fault)
    {
      var addr := GetOperandAddress(mode);
      if addr.Fail? { return Some(addr.error); }
      var data := MemRead(addr.value);
      if data <= compareWith {
        status := status.(carry := true);
      } else {
        status := status.(carry := false);
      }
      UpdateZeroAndNegativeFlag(WrappingSub8(compareWith, data));
      return None;
    }

    method BitTest(mode: AddressingMode) returns (fault: Option<CpuModel.Fault>)
      requires Valid()
      modifies this
      ensures Valid()
      ensures Reaches(CpuModel.BitTest(old(Snapshot()), mode), fault)
    {
      var addr := GetOperandAddress(mode);
      if addr.Fail? { return Some(addr.error); }
      var data := MemRead(addr.value);
      var zero := And(registerA, data) == 0;
      var negative := And(data, 0x80) > 0;
      var overflow := And(data, 0x40) > 0;
      status := status.(zero := zero, negative := negative, overflow := overflow);
      return None;
    }

    // -------------------------------------------------------------------
    // Stack instructions

    method Php()
      requires Valid()
      modifies this, memory
      ensures Valid()
      ensures Snapshot() == CpuModel.Php(old(Snapshot()))
    {
      var flags := status.(brk := true, brk2 := true);
      StackPush(Bits(flags));
    }

    method Plp()
      requires Valid()
      modifies this
      ensures Valid()
      ensures Snapshot() == CpuModel.Plp(old(Snapshot()))
    {
      var b := StackPop();
      FromBitsTotal(b);
      status := FromBits(b).value;
      status := status.(brk := false, brk2 := true);
    }

    method Pha()
      requires Valid()
      modifies this, memory
      ensures Valid()
      ensures Snapshot() == CpuModel.Pha(old(Snapshot()))
    {
      StackPush(registerA);
    }

    method Pla()
      requires Valid()
      modifies this
      ensures Valid()
      ensures Snapshot() == CpuModel.Pla(old(Snapshot()))
    {
      var data := StackPop();
      SetRegisterA(data);
    }

    // -------------------------------------------------------------------
    // Read-modify-write instructions

    method Inc(mode: AddressingMode) returns (fault: Option<CpuModel.Fault>, data: u8)
      requires Valid()
      modifies this, memory
      ensures Valid()
      ensures ReachesWith(CpuModel.Inc(old(Snapshot()), mode), fault, data)
    {
      var addr := GetOperandAddress(mode);
      if addr.Fail? { return Some(addr.error), 0; }
      data := MemRead(addr.value);
      data := WrappingAdd8(data, 1);
      MemWrite(addr.value, data);
      UpdateZeroAndNegativeFlag(data);
      fault := None;
    }

    method Dec(mode: AddressingMode) returns (fault: Option<CpuModel.Fault>, data: u8)
      requires Valid()
      modifies this, memory
      ensures Valid()
      ensures ReachesWith(CpuModel.Dec(old(Snapshot()), mode), fault, data)
    {
      var addr := GetOperandAddress(mode);
      if addr.Fail? { return Some(addr.error), 0; }
      data := MemRead(addr.value);
      data := WrappingSub8(data, 1);
      MemWrite(addr.value, data);
      UpdateZeroAndNegativeFlag(data);
      fault := None;
    }

    method Lsr(mode: AddressingMode) returns (fault: Option<CpuModel.Fault>, result: u8)
      requires Valid()
      modifies this, memory
      ensures Valid()
      ensures ReachesWith(CpuModel.Lsr(old(Snapshot()), mode), fault, result)
    {
      if mode == NoneAddressing {
        var data := registerA;
        status := status.(carry := data % 2 == 1);
        return None, data / 2;
      }
      var addr := GetOperandAddress(mode);
      if addr.Fail? { return Some(addr.error), 0; }
      var data := MemRead(addr.value);
      status := status.(carry := data % 2 == 1);
      data := data / 2;
      MemWrite(addr.value, data);
      UpdateZeroAndNegativeFlag(data);
      SetRegisterA(data);
      return None, 0;
    }

    method Asl(mode: AddressingMode) returns (fault: Option<CpuModel.Fault>, result: u8)
      requires Valid()
      modifies this, memory
      ensures Valid()
      ensures ReachesWith(CpuModel.Asl(old(Snapshot()), mode), fault, result)
    {
      if mode == NoneAddressing {
        var data := registerA;
        status := status.(carry := data / 0x80 == 1);
        return None, (data as int * 2) % 0x100;
      }
      var addr := GetOperandAddress(mode);
      if addr.Fail? { return Some(addr.error), 0; }
      var data := MemRead(addr.value);
      status := status.(carry := data / 0x80 == 1);
      data := (data as int * 2) % 0x100;
      MemWrite(addr.value, data);
      UpdateZeroAndNegativeFlag(data);
      return None, 0;
    }

    method Rol(mode: AddressingMode) returns (fault: Option<CpuModel.Fault>, result: u8)
      requires Valid()
      modifies this, memory
      ensures Valid()
      ensures ReachesWith(CpuModel.Rol(old(Snapshot()), mode), fault, result)
    {
      if mode == NoneAddressing {
        var data := registerA;
        var oldCarry := status.carry;
        status := status.(carry := data / 0x80 == 1);
        var rotated := CpuModel.RotateLeft(data, oldCarry);
        return None, rotated;
      }
      var addr := GetOperandAddress(mode);
      if addr.Fail? { return Some(addr.error), 0; }
      var data := MemRead(addr.value);
      var oldCarry := status.carry;
      status := status.(carry := data / 0x80 == 1);
      var rotated := CpuModel.RotateLeft(data, oldCarry);
      MemWrite(addr.value, rotated);
      UpdateZeroAndNegativeFlag(rotated);
      return None, 0;
    }

    method Ror(mode: AddressingMode) returns (fault: Option<CpuModel.Fault>, result: u8)
      requires Valid()
      modifies this, memory
      ensures Valid()
      ensures ReachesWith(CpuModel.Ror(old(Snapshot()), mode), fault, result)
    {
      if mode == NoneAddressing {
        var data := registerA;
        var oldCarry := status.carry;
        status := status.(carry := data % 2 == 1);
        data := CpuModel.RotateRight(data, oldCarry);
        SetRegisterA(data);
        return None, 0;
      }
      var addr := GetOperandAddress(mode);
      if addr.Fail? { return Some(addr.error), 0; }
      var data := MemRead(addr.value);
      var oldCarry := status.carry;
      status := status.(carry := data % 2 == 1);
      data := CpuModel.RotateRight(data, oldCarry);
      MemWrite(addr.value, data);
      UpdateNegativeFlag(data);
      return None, data;
    }

    // -------------------------------------------------------------------
    // Unofficial combinations

    method Rla(mode: AddressingMode) returns (fault: Option<CpuModel.Fault>)
      requires Valid()
      modifies this, memory
      ensures Valid()
      ensures Reaches(CpuModel.Rla(old(Snapshot()), mode), fault)
    {
      var f, data := Rol(mode);
      if f.Some? { return f; }
      SetRegisterA(And(data, registerA));
      return None;
    }

    method Rra(mode: AddressingMode) returns (fault: Option<CpuModel.Fault>)
      requires Valid()
      modifies this, memory
      ensures Valid()
      ensures Reaches(CpuModel.Rra(old(Snapshot()), mode), fault)
    {
      var f, data := Ror(mode);
      if f.Some? { return f; }
      AddToRegisterA(data);
      return None;
    }

    method Sre(mode: AddressingMode) returns (fault: Option<CpuModel.Fault>)
      requires Valid()
      modifies this, memory
      ensures Valid()
      ensures Reaches(CpuModel.Sre(old(Snapshot()), mode), fault)
    {
      var f, data := Lsr(mode);
      if f.Some? { return f; }
      SetRegisterA(Xor(data, registerA));
      return None;
    }

    method Slo(mode: AddressingMode) returns (fault: Option<CpuModel.Fault>)
      requires Valid()
      modifies this, memory
      ensures Valid()
      ensures Reaches(CpuModel.Slo(old(Snapshot()), mode), fault)
    {
      var f, data := Asl(mode);
      if f.Some? { return f; }
      SetRegisterA(Or(data, registerA));
      return None;
    }

    method Isb(mode: AddressingMode) returns (fault: Option<CpuModel.Fault>)
      requires Valid()
      modifies this, memory
      ensures Valid()
      ensures Reaches(CpuModel.Isb(old(Snapshot()), mode), fault)
    {
      var f, data := Inc(mode);
      if f.Some? { return f; }
      SubFromRegisterA(data);
      return None;
    }

    method Dcp(mode: AddressingMode) returns (fault: Option<CpuModel.Fault>)
      requires Valid()
      modifies this, memory
      ensures Valid()
      ensures Reaches(CpuModel.Dcp(old(Snapshot()), mode), fault)
    {
      var addr := GetOperandAddress(mode);
      if addr.Fail? { return Some(addr.error); }
      var data := MemRead(addr.value);
      data := WrappingSub8(data, 1);
      MemWrite(addr.value, data);
      if data <= registerA {
        status := status.(carry := true);
      }
      UpdateZeroAndNegativeFlag(WrappingSub8(registerA, data));
      return None;
    }

    method Lax(mode: AddressingMode) returns (fault: Option<CpuModel.Fault>)
      requires Valid()
      modifies this
      ensures Valid()
      ensures Reaches(CpuModel.Lax(old(Snapshot()), mode), fault)
    {
      var addr := GetOperandAddress(mode);
      if addr.Fail? { return Some(addr.error); }
      var data := MemRead(addr.value);
      SetRegisterA(data);
      registerX := registerA;
      return None;
    }

    // -------------------------------------------------------------------
    // Control flow

    method Jsr() returns (fault: Option<CpuModel.Fault>)
      requires Valid()
      modifies this, memory
      ensures Valid()
      ensures Reaches(CpuModel.Jsr(old(Snapshot())), fault)
    {
      if programCounter as int + 2 > 0xFFFF { return Some(CpuModel.ArithmeticOverflow); }
      StackPushU16(programCounter + 2 - 1);
      var targetAddress := MemReadU16(programCounter);
      programCounter := targetAddress;
      return None;
    }

    method Rts() returns (fault: Option<CpuModel.Fault>)
      requires Valid()
      modifies this
      ensures Valid()
      ensures Reaches(CpuModel.Rts(old(Snapshot())), fault)
    {
      var ret := StackPopU16();
      if ret as int + 1 > 0xFFFF { return Some(CpuModel.ArithmeticOverflow); }
      programCounter := ret + 1;
      return None;
    }

    method Rti()
      requires Valid()
      modifies this
      ensures Valid()
      ensures Snapshot() == CpuModel.Rti(old(Snapshot()))
    {
      var b := StackPop();
      FromBitsTotal(b);
      status := FromBits(b).value;
      var ret := StackPopU16();
      programCounter := ret;
      status := status.(brk := false, brk2 := true);
    }

    method Branch(condition: bool)
      requires Valid()
      modifies this
      ensures Valid()
      ensures Snapshot() == CpuModel.Branch(old(Snapshot()), condition)
    {
      if condition {
        var jump := MemRead(programCounter);
        programCounter := WrappingAdd16(WrappingAdd16(programCounter, 1), CpuModel.SignExtend(jump));
      }
    }

    method Jmp(mode: AddressingMode) returns (fault: Option<CpuModel.Fault>)
      requires Valid()
      modifies this
      ensures Valid()
      ensures Reaches(CpuModel.Jmp(old(Snapshot()), mode), fault)
    {
      match mode
      case NoneAddressing =>
        if programCounter == 0xFFFF { return Some(CpuModel.ArithmeticOverflow); }
        var memAddress := MemReadU16(programCounter);
        var indirectRef;
        if memAddress % 0x100 == 0xFF {
          var lo := MemRead(memAddress);
          var hi := MemRead(memAddress - 0xFF);
          indirectRef := Word(hi, lo);
        } else {
          indirectRef := MemReadU16(memAddress);
        }
        programCounter := indirectRef;
        return None;
      case Absolute =>
        if programCounter == 0xFFFF { return Some(CpuModel.ArithmeticOverflow); }
        var memAddress := MemReadU16(programCounter);
        programCounter := memAddress;
        return None;
      case _ =>
        return None;
    }
  
    // -------------------------------------------------------------------
    // The interpreter loop

    /** The `match operation.mnemonic` of the interpreter loop, in four groups. */
    method Execute(op: Opcode) returns (r: CpuModel.Outcome<Flow>)
      requires Valid()
      modifies this, memory
      ensures Valid()
      ensures Dispatched(CpuModel.Execute(old(Snapshot()), op), r)
    {
      if IsImplied(op.mnemonic) {
        r := ExecuteImplied(op);
      } else if IsControl(op.mnemonic) {
        r := ExecuteControl(op);
      } else if IsUnofficial(op.mnemonic) {
        r := ExecuteUnofficial(op);
      } else {
        r := ExecuteOperand(op);
      }
    }

    /** Register, flag and stack instructions, which have no operand. */
    method ExecuteImplied(op: Opcode) returns (r: CpuModel.Outcome<Flow>)
      requires Valid()
      requires IsImplied(op.mnemonic)
      modifies this, memory
      ensures Valid()
      ensures Dispatched(CpuModel.Execute(old(Snapshot()), op), r)
    {
      var mode := op.mode;
      match op.mnemonic
      case CLC =>
        status := status.(carry := false); r := Ok(Proceed);
      case CLD =>
        status := status.(decimalMode := false); r := Ok(Proceed);
      case CLI =>
        status := status.(interruptDisable := false); r := Ok(Proceed);
      case CLV =>
        status := status.(overflow := false); r := Ok(Proceed);
      case SEC =>
        status := status.(carry := true); r := Ok(Proceed);
      case SED =>
        status := status.(decimalMode := true); r := Ok(Proceed);
      case SEI =>
        status := status.(interruptDisable := true); r := Ok(Proceed);
      case DEX =>
        Dex(); r := Ok(Proceed);
      case INX =>
        Inx(); r := Ok(Proceed);
      case INY =>
        Iny(); r := Ok(Proceed);
      case DEY =>
        Dey(); r := Ok(Proceed);
      case TAX =>
        Tax(); r := Ok(Proceed);
      case TAY =>
        Tay(); r := Ok(Proceed);
      case TXA =>
        Txa(); r := Ok(Proceed);
      case TYA =>
        Tya(); r := Ok(Proceed);
      case TXS =>
        Txs(); r := Ok(Proceed);
      case TSX =>
        Tsx(); r := Ok(Proceed);
      case PHA =>
        StackPush(registerA); r := Ok(Proceed);
      case PHP =>
        Php(); r := Ok(Proceed);
      case PLA =>
        Pla(); r := Ok(Proceed);
      case PLP =>
        Plp(); r := Ok(Proceed);
      case _ =>
        assert false;
        r := Ok(Proceed);
    }

    /** Branches, jumps, subroutine and interrupt returns, BRK and the NOPs. */
    method ExecuteControl(op: Opcode) returns (r: CpuModel.Outcome<Flow>)
      requires Valid()
      requires IsControl(op.mnemonic)
      modifies this, memory
      ensures Valid()
      ensures Dispatched(CpuModel.Execute(old(Snapshot()), op), r)
    {
      var mode := op.mode;
      match op.mnemonic
      case BCC =>
        Branch(!status.carry); r := Ok(Proceed);
      case BCS =>
        Branch(status.carry); r := Ok(Proceed);
      case BEQ =>
        Branch(status.zero); r := Ok(Proceed);
      case BMI =>
        Branch(status.negative); r := Ok(Proceed);
      case BNE =>
        Branch(!status.zero); r := Ok(Proceed);
      case BPL =>
        Branch(!status.negative); r := Ok(Proceed);
      case BVC =>
        Branch(!status.overflow); r := Ok(Proceed);
      case BVS =>
        Branch(status.overflow); r := Ok(Proceed);
      case BRK =>
        r := Ok(Return);
      case JSR =>
        var f := Jsr(); r := Proceeding(f);
      case RTS =>
        var f := Rts(); r := Proceeding(f);
      case RTI =>
        Rti(); r := Ok(Proceed);
      case JMP =>
        var f := Jmp(mode); r := Proceeding(f);
      case NOP =>
        r := Ok(Proceed);
      case DOP =>
        r := Ok(Proceed);
      case TOP =>
        r := Ok(Proceed);
      case _ =>
        assert false;
        r := Ok(Proceed);
    }

    /** The unofficial combined instructions. */
    method ExecuteUnofficial(op: Opcode) returns (r: CpuModel.Outcome<Flow>)
      requires Valid()
      requires IsUnofficial(op.mnemonic)
      modifies this, memory
      ensures Valid()
      ensures Dispatched(CpuModel.Execute(old(Snapshot()), op), r)
    {
      var mode := op.mode;
      match op.mnemonic
      case LAX =>
        var f := Lax(mode); r := Proceeding(f);
      case AAX =>
        var f := Store(mode, And(registerX, registerA)); r := Proceeding(f);
      case DCP =>
        var f := Dcp(mode); r := Proceeding(f);
      case ISB =>
        var f := Isb(mode); r := Proceeding(f);
      case SLO =>
        var f := Slo(mode); r := Proceeding(f);
      case RLA =>
        var f := Rla(mode); r := Proceeding(f);
      case SRE =>
        var f := Sre(mode); r := Proceeding(f);
      case RRA =>
        var f := Rra(mode); r := Proceeding(f);
      case _ =>
        assert false;
        r := Ok(Proceed);
    }

    /** The official instructions that read or write an operand. */
    method ExecuteOperand(op: Opcode) returns (r: CpuModel.Outcome<Flow>)
      requires Valid()
      requires !IsImplied(op.mnemonic) && !IsControl(op.mnemonic) && !IsUnofficial(op.mnemonic)
      modifies this, memory
      ensures Valid()
      ensures Dispatched(CpuModel.Execute(old(Snapshot()), op), r)
    {
      var mode := op.mode;
      match op.mnemonic
      case ADC =>
        var f := Adc(mode); r := Proceeding(f);
      case AND =>
        var f := AndOp(mode); r := Proceeding(f);
      case ASL =>
        var f, _ := Asl(mode); r := Proceeding(f);
      case CMP =>
        var f := Compare(mode, registerA); r := Proceeding(f);
      case CPX =>
        var f := Compare(mode, registerX); r := Proceeding(f);
      case CPY =>
        var f := Compare(mode, registerY); r := Proceeding(f);
      case LDA =>
        var f := Lda(mode); r := Proceeding(f);
      case LDX =>
        var f := Ldx(mode); r := Proceeding(f);
      case LDY =>
        var f := Ldy(mode); r := Proceeding(f);
      case STA =>
        var f := Store(mode, registerA); r := Proceeding(f);
      case STX =>
        var f := Store(mode, registerX); r := Proceeding(f);
      case STY =>
        var f := Store(mode, registerY); r := Proceeding(f);
      case SBC =>
        var f := Sbc(mode); r := Proceeding(f);
      case ROL =>
        var f, _ := Rol(mode); r := Proceeding(f);
      case ROR =>
        var f, _ := Ror(mode); r := Proceeding(f);
      case LSR =>
        var f, _ := Lsr(mode); r := Proceeding(f);
      case INC =>
        var f, _ := Inc(mode); r := Proceeding(f);
      case DEC =>
        var f, _ := Dec(mode); r := Proceeding(f);
      case BIT =>
        var f := BitTest(mode); r := Proceeding(f);
      case ORA =>
        var f := Ora(mode); r := Proceeding(f);
      case EOR =>
        var f := Eor(mode); r := Proceeding(f);
      case _ =>
        assert false;
        r := Ok(Proceed);
    }

    /** `interrupt_nmi`. */
    method InterruptNmi()
      requires Valid()
      modifies this, memory
      ensures Valid()
      ensures Snapshot() == CpuModel.InterruptNmi(old(Snapshot()))
    {
      ghost var m0 := Snapshot();
      StackPushU16(programCounter);
      ghost var m1 := Snapshot();
      assert m1 == CpuModel.StackPushU16(m0, m0.pc);
      var flag := status.(brk := false, brk2 := true);
      StackPush(Bits(flag));
      assert Snapshot() == CpuModel.StackPush(m1, Bits(flag));
      status := status.(interruptDisable := true);
      cycles := cycles + 2;
      var target := MemReadU16(CpuModel.NMI_VECTOR);
      programCounter := target;
    }

    /** The fetch: read the opcode byte, move past it, look it up in the table. */
    method Fetch() returns (entry: CpuModel.Outcome<Opcode>)
      requires Valid()
      modifies this
      ensures Valid()
      ensures match CpuModel.Fetch(old(Snapshot()))
              case Unfetched(f) => entry == Fail(f)
              case Fetched(m1, op) => entry == Ok(op) && Snapshot() == m1
    {
      if programCounter == 0xFFFF { return Fail(CpuModel.ArithmeticOverflow); }
      var opcode := MemRead(programCounter);
      programCounter := programCounter + 1;
      var operation := Decode(opcode);
      if operation.None? { return Fail(CpuModel.UnknownOpcode(opcode)); }
      entry := Ok(operation.value);
    }

    /** Dispatch a fetched instruction, spend its cycles and skip its operand
        bytes unless the handler moved the program counter.  The source ticks
        the bus before dispatching; no handler reads the cycle count, so the
        tick is taken after it here. */
    method Perform(op: Opcode) returns (s: StepStatus)
      requires Valid()
      modifies this, memory
      ensures Valid()
      ensures Stepped(CpuModel.Perform(old(Snapshot()), op), s)
    {
      var programCounterState := programCounter;
      var flow := Execute(op);
      if flow.Fail? { return Panic(flow.error); }
      cycles := cycles + op.cycles;
      if flow.value == Return { return Break; }
      if programCounterState == programCounter {
        if op.len == 0 || programCounter as int + (op.len - 1) > 0xFFFF {
          return Panic(CpuModel.ArithmeticOverflow);
        }
        programCounter := programCounter + (op.len - 1);
      }
      return Continue;
    }

    /** One iteration of the interpreter loop; `nmi` is what the bus poll reported. */
    method Step(nmi: bool) returns (s: StepStatus)
      requires Valid()
      modifies this, memory
      ensures Valid()
      ensures Stepped(CpuModel.Step(old(Snapshot()), nmi), s)
    {
      if nmi {
        InterruptNmi();
      }
      var entry := Fetch();
      if entry.Fail? { return Panic(entry.error); }
      CpuProperties.StepPerforms(old(Snapshot()), nmi, Snapshot(), entry.value);
      s := Perform(entry.value);
    }

    /** `run_with_callback` with one NMI poll answer per iteration: loop until
        BRK, a panic, or the end of the polls. */
    method Run(polls: seq<bool>) returns (r: RunStatus)
      requires Valid()
      modifies this, memory
      ensures Valid()
      ensures Ran(CpuModel.Run(old(Snapshot()), polls), r)
    {
      var i := 0;
      while i < |polls|
        invariant Valid()
        invariant 0 <= i <= |polls|
        invariant CpuModel.Run(old(Snapshot()), polls) == CpuModel.Run(Snapshot(), polls[i..])
      {
        var s := Step(polls[i]);
        match s
        case Break => return Returned;
        case Panic(f) => return Panicked(f);
        case Continue =>
        i := i + 1;
      }
      return PollsExhausted;
    }

    /** `reset`. */
    method Reset()
      requires Valid()
      modifies this
      ensures Valid()
      ensures Snapshot() == CpuModel.Reset(old(Snapshot()))
    {
      registerA := 0;
      registerX := 0;
      status := FromBitsTruncate(CpuModel.STATUS_RESET);
      var start := MemReadU16(CpuModel.RESET_VECTOR);
      programCounter := start;
    }
  }

  /** The dispatch groups of `Cpu.Execute`. */
  predicate IsImplied(mnemonic: Mnemonic)
  {
    mnemonic in {CLC, CLD, CLI, CLV, SEC, SED, SEI, DEX, INX, INY, DEY, TAX, TAY, TXA, TYA, TXS, TSX, PHA, PHP, PLA, PLP}
  }

  predicate IsControl(mnemonic: Mnemonic)
  {
    mnemonic in {BCC, BCS, BEQ, BMI, BNE, BPL, BVC, BVS, BRK, JSR, RTS, RTI, JMP, NOP, DOP, TOP}
  }

  predicate IsUnofficial(mnemonic: Mnemonic)
  {
    mnemonic in {LAX, AAX, DCP, ISB, SLO, RLA, SRE, RRA}
  }

  /** A handler's fault, or the instruction to go on. */
  function Proceeding(fault: Option<CpuModel.Fault>): CpuModel.Outcome<Flow>
  {
    if fault.Some? then Fail(fault.value) else Ok(Proceed)
  }
}
