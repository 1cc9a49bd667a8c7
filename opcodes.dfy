/** The opcode table of the 6502 engine and the layout of its status flags
    (src/opcodes.rs).  The source keeps a vector of descriptors and inserts each
    one into a hash map keyed by its code; since the codes are pairwise distinct
    that map is a function from a byte to at most one descriptor, written here as
    `Decode`, one row per high nibble of the code. */
module Opcodes {
  import opened Wrappers
  import opened Bytes

  /** The status register `CpuFlags` (src/opcodes.rs:19-28), one field per flag. */
  datatype Flags = Flags(
    carry: bool, zero: bool, interruptDisable: bool, decimalMode: bool,
    brk: bool, brk2: bool, overflow: bool, negative: bool)

  // The bit each flag occupies in the status byte.
  const CARRY: u8             := 0x01
  const ZERO: u8              := 0x02
  const INTERRUPT_DISABLE: u8 := 0x04
  const DECIMAL_MODE: u8      := 0x08
  const BREAK: u8             := 0x10
  const BREAK2: u8            := 0x20
  const OVERFLOW: u8          := 0x40
  const NEGATIVE: u8          := 0x80

  /** The masks in bit order. */
  const MASKS: seq<u8> := [CARRY, ZERO, INTERRUPT_DISABLE, DECIMAL_MODE, BREAK, BREAK2, OVERFLOW, NEGATIVE]

  /** The union of all declared flags, `CpuFlags::all().bits()`. */
  const ALL_FLAGS: u8 := CARRY + ZERO + INTERRUPT_DISABLE + DECIMAL_MODE + BREAK + BREAK2 + OVERFLOW + NEGATIVE

  /** The flags in bit order. */
  function FlagList(f: Flags): seq<bool>
  {
    [f.carry, f.zero, f.interruptDisable, f.decimalMode, f.brk, f.brk2, f.overflow, f.negative]
  }

  /** `bits()`: the byte whose binary digits, least significant first, are the
      flags in bit order, so that each set flag contributes its own mask. */
  function Bits(f: Flags): u8
  {
    Pow2Byte();
    FromBitList(FlagList(f))
  }

  /** `from_bits_truncate`: flag `k` is bit `k` of the byte; bits that are no
      flag would be dropped, but every bit is one. */
  function FromBitsTruncate(bits: u8): (f: Flags)
    ensures FlagList(f) == BitList(bits, 8)
  {
    Flags(BitOf(bits, 0), BitOf(bits, 1), BitOf(bits, 2), BitOf(bits, 3),
          BitOf(bits, 4), BitOf(bits, 5), BitOf(bits, 6), BitOf(bits, 7))
  }

  /** `from_bits`: defined exactly when no bit outside ALL_FLAGS is set. */
  function FromBits(bits: u8): (r: Option<Flags>)
    ensures r.Some? ==> r.value == FromBitsTruncate(bits)
  {
    if And(bits, 0xFF - ALL_FLAGS) == 0 then Some(FromBitsTruncate(bits)) else None
  }

  /** The eight flags are the eight single bits `2^k` of the byte, in order, and
      together they cover it. */
  lemma FlagsLayout()
    ensures forall k :: 0 <= k < 8 ==> MASKS[k] == Pow2(k)
    ensures ALL_FLAGS == 0xFF
    ensures Bits(Flags(true, true, true, true, true, true, true, true)) == ALL_FLAGS
  {
    assert Pow2(8) == 0x100;
  }

  /** Converting flags to their byte and back gives the same flags. */
  lemma FromBitsOfBits(f: Flags)
    ensures FromBitsTruncate(Bits(f)) == f
  {
    BitListOfFromBitList(FlagList(f));
  }

  /** No bit is lost converting a byte to flags and back. */
  lemma BitsOfFromBits(bits: u8)
    ensures Bits(FromBitsTruncate(bits)) == bits
  {
    Pow2Byte();
    FromBitListOfBitList(bits, 8);
  }

  /** Since all eight bits are flags, `from_bits` never fails: the `unwrap` in
      PLP and the `expect` in RTI cannot panic. */
  lemma FromBitsTotal(bits: u8)
    ensures FromBits(bits) == Some(FromBitsTruncate(bits))
  {
    FlagsLayout();
    ZeroOperand(bits);
  }


  datatype AddressingMode =
    | Immediate
    | ZeroPage | ZeroPageX | ZeroPageY
    | Absolute | AbsoluteX | AbsoluteY
    | IndirectX | IndirectY
    | NoneAddressing

  /** The mnemonics that occur in the table; the dispatch in the engine has an arm
      for each of them. */
  datatype Mnemonic =
    | BRK | PHP | CLC | JSR | PLP | SEC | RTI | PHA | CLI | RTS | PLA
    | SEI | DEY | TXA | TYA | TXS | TAY | TAX | CLV | TSX | INY | DEX
    | CLD | INX | SED | ADC | STA | LDA | LDX | LDY | SBC | AND | ASL
    | ROL | ROR | CMP | CPX | CPY | BPL | BMI | BVC | BVS | BCC | BCS
    | BNE | BEQ | LSR | INC | BIT | NOP | DOP | TOP | JMP | DEC | STX
    | STY | ORA | EOR | LAX | AAX | DCP | ISB | SLO | RLA | SRE | RRA

  /** An instruction descriptor: code, mnemonic, length in bytes, base cycle
      count and addressing mode. */
  datatype Opcode = Opcode(code: u8, mnemonic: Mnemonic, len: nat, cycles: nat, mode: AddressingMode)

  /** `OPCODES_MAP.get(&code)`: the descriptor for a byte, if the table has one. */
  function Decode(code: u8): Option<Opcode>
  {
    match code / 16
    case 0 => Row0(code)
    case 1 => Row1(code)
    case 2 => Row2(code)
    case 3 => Row3(code)
    case 4 => Row4(code)
    case 5 => Row5(code)
    case 6 => Row6(code)
    case 7 => Row7(code)
    case 8 => Row8(code)
    case 9 => Row9(code)
    case 10 => RowA(code)
    case 11 => RowB(code)
    case 12 => RowC(code)
    case 13 => RowD(code)
    case 14 => RowE(code)
    case 15 => RowF(code)
  }

  function Row0(code: u8): Option<Opcode>
  {
    match code
    case 0x00 => Some(Opcode(0x00, BRK, 1, 7, NoneAddressing))
    case 0x01 => Some(Opcode(0x01, ORA, 2, 6, IndirectX))
    case 0x03 => Some(Opcode(0x03, SLO, 2, 8, IndirectX))
    case 0x04 => Some(Opcode(0x04, DOP, 2, 3, ZeroPage))
    case 0x05 => Some(Opcode(0x05, ORA, 2, 3, ZeroPage))
    case 0x06 => Some(Opcode(0x06, ASL, 2, 5, ZeroPage))
    case 0x07 => Some(Opcode(0x07, SLO, 2, 5, ZeroPage))
    case 0x08 => Some(Opcode(0x08, PHP, 1, 3, NoneAddressing))
    case 0x09 => Some(Opcode(0x09, ORA, 2, 2, Immediate))
    case 0x0A => Some(Opcode(0x0A, ASL, 1, 2, NoneAddressing))
    case 0x0C => Some(Opcode(0x0C, TOP, 3, 4, Absolute))
    case 0x0D => Some(Opcode(0x0D, ORA, 3, 4, Absolute))
    case 0x0E => Some(Opcode(0x0E, ASL, 3, 6, Absolute))
    case 0x0F => Some(Opcode(0x0F, SLO, 3, 6, Absolute))
    case _ => None
  }

  function Row1(code: u8): Option<Opcode>
  {
    match code
    case 0x10 => Some(Opcode(0x10, BPL, 2, 2, NoneAddressing))
    case 0x11 => Some(Opcode(0x11, ORA, 2, 5, IndirectY))
    case 0x13 => Some(Opcode(0x13, SLO, 2, 8, IndirectY))
    case 0x14 => Some(Opcode(0x14, DOP, 2, 4, ZeroPageX))
    case 0x15 => Some(Opcode(0x15, ORA, 2, 4, ZeroPageX))
    case 0x16 => Some(Opcode(0x16, ASL, 2, 6, ZeroPageX))
    case 0x17 => Some(Opcode(0x17, SLO, 2, 6, ZeroPageX))
    case 0x18 => Some(Opcode(0x18, CLC, 1, 0, NoneAddressing))
    case 0x19 => Some(Opcode(0x19, ORA, 3, 4, AbsoluteY))
    case 0x1A => Some(Opcode(0x1A, NOP, 1, 2, NoneAddressing))
    case 0x1B => Some(Opcode(0x1B, SLO, 3, 7, AbsoluteY))
    case 0x1C => Some(Opcode(0x1C, TOP, 3, 4, AbsoluteX))
    case 0x1D => Some(Opcode(0x1D, ORA, 3, 4, AbsoluteX))
    case 0x1E => Some(Opcode(0x1E, ASL, 3, 7, AbsoluteX))
    case 0x1F => Some(Opcode(0x1F, SLO, 3, 7, AbsoluteX))
    case _ => None
  }

  function Row2(code: u8): Option<Opcode>
  {
    match code
    case 0x20 => Some(Opcode(0x20, JSR, 3, 6, Absolute))
    case 0x21 => Some(Opcode(0x21, AND, 2, 6, IndirectX))
    case 0x23 => Some(Opcode(0x23, RLA, 2, 8, IndirectX))
    case 0x24 => Some(Opcode(0x24, BIT, 2, 3, ZeroPage))
    case 0x25 => Some(Opcode(0x25, AND, 2, 3, ZeroPage))
    case 0x26 => Some(Opcode(0x26, ROL, 2, 5, ZeroPage))
    case 0x27 => Some(Opcode(0x27, RLA, 2, 5, ZeroPage))
    case 0x28 => Some(Opcode(0x28, PLP, 1, 4, NoneAddressing))
    case 0x29 => Some(Opcode(0x29, AND, 2, 2, Immediate))
    case 0x2A => Some(Opcode(0x2A, ROL, 1, 2, NoneAddressing))
    case 0x2C => Some(Opcode(0x2C, BIT, 3, 4, Absolute))
    case 0x2D => Some(Opcode(0x2D, AND, 3, 4, Absolute))
    case 0x2E => Some(Opcode(0x2E, ROL, 3, 6, Absolute))
    case 0x2F => Some(Opcode(0x2F, RLA, 3, 6, Absolute))
    case _ => None
  }

  function Row3(code: u8): Option<Opcode>
  {
    match code
    case 0x30 => Some(Opcode(0x30, BMI, 2, 2, NoneAddressing))
    case 0x31 => Some(Opcode(0x31, AND, 2, 5, IndirectY))
    case 0x33 => Some(Opcode(0x33, RLA, 2, 8, IndirectY))
    case 0x34 => Some(Opcode(0x34, DOP, 2, 4, ZeroPageX))
    case 0x35 => Some(Opcode(0x35, AND, 2, 4, ZeroPageX))
    case 0x36 => Some(Opcode(0x36, ROL, 2, 6, ZeroPageX))
    case 0x37 => Some(Opcode(0x37, RLA, 2, 6, ZeroPageX))
    case 0x38 => Some(Opcode(0x38, SEC, 1, 0, NoneAddressing))
    case 0x39 => Some(Opcode(0x39, AND, 3, 4, AbsoluteY))
    case 0x3A => Some(Opcode(0x3A, NOP, 1, 2, NoneAddressing))
    case 0x3B => Some(Opcode(0x3B, RLA, 3, 7, AbsoluteY))
    case 0x3C => Some(Opcode(0x3C, TOP, 3, 4, AbsoluteX))
    case 0x3D => Some(Opcode(0x3D, AND, 3, 4, AbsoluteX))
    case 0x3E => Some(Opcode(0x3E, ROL, 3, 7, AbsoluteX))
    case 0x3F => Some(Opcode(0x3F, RLA, 3, 7, AbsoluteX))
    case _ => None
  }

  function Row4(code: u8): Option<Opcode>
  {
    match code
    case 0x40 => Some(Opcode(0x40, RTI, 1, 6, NoneAddressing))
    case 0x41 => Some(Opcode(0x41, EOR, 2, 6, IndirectX))
    case 0x43 => Some(Opcode(0x43, SRE, 2, 8, IndirectX))
    case 0x44 => Some(Opcode(0x44, DOP, 2, 3, ZeroPage))
    case 0x45 => Some(Opcode(0x45, EOR, 2, 3, ZeroPage))
    case 0x46 => Some(Opcode(0x46, LSR, 2, 5, ZeroPage))
    case 0x47 => Some(Opcode(0x47, SRE, 2, 5, ZeroPage))
    case 0x48 => Some(Opcode(0x48, PHA, 1, 0, NoneAddressing))
    case 0x49 => Some(Opcode(0x49, EOR, 2, 2, Immediate))
    case 0x4A => Some(Opcode(0x4A, LSR, 1, 2, NoneAddressing))
    case 0x4C => Some(Opcode(0x4C, JMP, 3, 3, Absolute))
    case 0x4D => Some(Opcode(0x4D, EOR, 3, 4, Absolute))
    case 0x4E => Some(Opcode(0x4E, LSR, 3, 6, Absolute))
    case 0x4F => Some(Opcode(0x4F, SRE, 3, 6, Absolute))
    case _ => None
  }

  function Row5(code: u8): Option<Opcode>
  {
    match code
    case 0x50 => Some(Opcode(0x50, BVC, 2, 2, NoneAddressing))
    case 0x51 => Some(Opcode(0x51, EOR, 2, 5, IndirectY))
    case 0x53 => Some(Opcode(0x53, SRE, 2, 8, IndirectY))
    case 0x54 => Some(Opcode(0x54, DOP, 2, 4, ZeroPageX))
    case 0x55 => Some(Opcode(0x55, EOR, 2, 4, ZeroPageX))
    case 0x56 => Some(Opcode(0x56, LSR, 2, 6, ZeroPageX))
    case 0x57 => Some(Opcode(0x57, SRE, 2, 6, ZeroPageX))
    case 0x58 => Some(Opcode(0x58, CLI, 1, 0, NoneAddressing))
    case 0x59 => Some(Opcode(0x59, EOR, 3, 4, AbsoluteY))
    case 0x5A => Some(Opcode(0x5A, NOP, 1, 2, NoneAddressing))
    case 0x5B => Some(Opcode(0x5B, SRE, 3, 7, AbsoluteY))
    case 0x5C => Some(Opcode(0x5C, TOP, 3, 4, AbsoluteX))
    case 0x5D => Some(Opcode(0x5D, EOR, 3, 4, AbsoluteX))
    case 0x5E => Some(Opcode(0x5E, LSR, 3, 7, AbsoluteX))
    case 0x5F => Some(Opcode(0x5F, SRE, 3, 7, AbsoluteX))
    case _ => None
  }

  function Row6(code: u8): Option<Opcode>
  {
    match code
    case 0x60 => Some(Opcode(0x60, RTS, 1, 6, NoneAddressing))
    case 0x61 => Some(Opcode(0x61, ADC, 2, 6, IndirectX))
    case 0x63 => Some(Opcode(0x63, RRA, 2, 8, IndirectX))
    case 0x64 => Some(Opcode(0x64, DOP, 2, 3, ZeroPage))
    case 0x65 => Some(Opcode(0x65, ADC, 2, 3, ZeroPage))
    case 0x66 => Some(Opcode(0x66, ROR, 2, 5, ZeroPage))
    case 0x67 => Some(Opcode(0x67, RRA, 2, 5, ZeroPage))
    case 0x68 => Some(Opcode(0x68, PLA, 1, 0, NoneAddressing))
    case 0x69 => Some(Opcode(0x69, ADC, 2, 2, Immediate))
    case 0x6A => Some(Opcode(0x6A, ROR, 1, 2, NoneAddressing))
    case 0x6C => Some(Opcode(0x6C, JMP, 3, 5, NoneAddressing))
    case 0x6D => Some(Opcode(0x6D, ADC, 3, 4, Absolute))
    case 0x6E => Some(Opcode(0x6E, ROR, 3, 6, Absolute))
    case 0x6F => Some(Opcode(0x6F, RRA, 3, 6, Absolute))
    case _ => None
  }

  function Row7(code: u8): Option<Opcode>
  {
    match code
    case 0x70 => Some(Opcode(0x70, BVS, 2, 2, NoneAddressing))
    case 0x71 => Some(Opcode(0x71, ADC, 2, 5, IndirectY))
    case 0x73 => Some(Opcode(0x73, RRA, 2, 8, IndirectY))
    case 0x74 => Some(Opcode(0x74, DOP, 2, 4, ZeroPageX))
    case 0x75 => Some(Opcode(0x75, ADC, 2, 4, ZeroPageX))
    case 0x76 => Some(Opcode(0x76, ROR, 2, 6, ZeroPageX))
    case 0x77 => Some(Opcode(0x77, RRA, 2, 6, ZeroPageX))
    case 0x78 => Some(Opcode(0x78, SEI, 1, 0, NoneAddressing))
    case 0x79 => Some(Opcode(0x79, ADC, 3, 4, AbsoluteY))
    case 0x7A => Some(Opcode(0x7A, NOP, 1, 2, NoneAddressing))
    case 0x7B => Some(Opcode(0x7B, RRA, 3, 7, AbsoluteY))
    case 0x7C => Some(Opcode(0x7C, TOP, 3, 4, AbsoluteX))
    case 0x7D => Some(Opcode(0x7D, ADC, 3, 4, AbsoluteX))
    case 0x7E => Some(Opcode(0x7E, ROR, 3, 7, AbsoluteX))
    case 0x7F => Some(Opcode(0x7F, RRA, 3, 7, AbsoluteX))
    case _ => None
  }

  function Row8(code: u8): Option<Opcode>
  {
    match code
    case 0x80 => Some(Opcode(0x80, DOP, 2, 2, Immediate))
    case 0x81 => Some(Opcode(0x81, STA, 2, 6, IndirectX))
    case 0x82 => Some(Opcode(0x82, DOP, 2, 2, Immediate))
    case 0x83 => Some(Opcode(0x83, AAX, 2, 6, IndirectX))
    case 0x84 => Some(Opcode(0x84, STY, 2, 3, ZeroPage))
    case 0x85 => Some(Opcode(0x85, STA, 2, 3, ZeroPage))
    case 0x86 => Some(Opcode(0x86, STX, 2, 3, ZeroPage))
    case 0x87 => Some(Opcode(0x87, AAX, 2, 3, ZeroPage))
    case 0x88 => Some(Opcode(0x88, DEY, 1, 2, NoneAddressing))
    case 0x89 => Some(Opcode(0x89, DOP, 2, 2, Immediate))
    case 0x8A => Some(Opcode(0x8A, TXA, 1, 2, NoneAddressing))
    case 0x8C => Some(Opcode(0x8C, STY, 3, 4, Absolute))
    case 0x8D => Some(Opcode(0x8D, STA, 3, 4, Absolute))
    case 0x8E => Some(Opcode(0x8E, STX, 3, 4, Absolute))
    case 0x8F => Some(Opcode(0x8F, AAX, 3, 4, Absolute))
    case _ => None
  }

  function Row9(code: u8): Option<Opcode>
  {
    match code
    case 0x90 => Some(Opcode(0x90, BCC, 2, 2, NoneAddressing))
    case 0x91 => Some(Opcode(0x91, STA, 2, 6, IndirectY))
    case 0x94 => Some(Opcode(0x94, STY, 2, 4, ZeroPageX))
    case 0x95 => Some(Opcode(0x95, STA, 2, 4, ZeroPageX))
    case 0x96 => Some(Opcode(0x96, STX, 2, 4, ZeroPageY))
    case 0x97 => Some(Opcode(0x97, AAX, 2, 4, ZeroPageY))
    case 0x98 => Some(Opcode(0x98, TYA, 1, 2, NoneAddressing))
    case 0x99 => Some(Opcode(0x99, STA, 3, 5, AbsoluteY))
    case 0x9A => Some(Opcode(0x9A, TXS, 1, 2, NoneAddressing))
    case 0x9D => Some(Opcode(0x9D, STA, 3, 5, AbsoluteX))
    case _ => None
  }

  function RowA(code: u8): Option<Opcode>
  {
    match code
    case 0xA0 => Some(Opcode(0xA0, LDY, 2, 2, Immediate))
    case 0xA1 => Some(Opcode(0xA1, LDA, 2, 6, IndirectX))
    case 0xA2 => Some(Opcode(0xA2, LDX, 2, 2, Immediate))
    case 0xA3 => Some(Opcode(0xA3, LAX, 2, 6, IndirectX))
    case 0xA4 => Some(Opcode(0xA4, LDY, 2, 3, ZeroPage))
    case 0xA5 => Some(Opcode(0xA5, LDA, 2, 3, ZeroPage))
    case 0xA6 => Some(Opcode(0xA6, LDX, 2, 3, ZeroPage))
    case 0xA7 => Some(Opcode(0xA7, LAX, 2, 3, ZeroPage))
    case 0xA8 => Some(Opcode(0xA8, TAY, 1, 2, NoneAddressing))
    case 0xA9 => Some(Opcode(0xA9, LDA, 2, 2, Immediate))
    case 0xAA => Some(Opcode(0xAA, TAX, 1, 2, NoneAddressing))
    case 0xAC => Some(Opcode(0xAC, LDY, 3, 4, Absolute))
    case 0xAD => Some(Opcode(0xAD, LDA, 3, 4, Absolute))
    case 0xAE => Some(Opcode(0xAE, LDX, 3, 4, Absolute))
    case 0xAF => Some(Opcode(0xAF, LAX, 3, 4, Absolute))
    case _ => None
  }

  function RowB(code: u8): Option<Opcode>
  {
    match code
    case 0xB0 => Some(Opcode(0xB0, BCS, 2, 2, NoneAddressing))
    case 0xB1 => Some(Opcode(0xB1, LDA, 2, 5, IndirectY))
    case 0xB3 => Some(Opcode(0xB3, LAX, 2, 5, IndirectY))
    case 0xB4 => Some(Opcode(0xB4, LDY, 2, 4, ZeroPageX))
    case 0xB5 => Some(Opcode(0xB5, LDA, 2, 4, ZeroPageX))
    case 0xB6 => Some(Opcode(0xB6, LDX, 2, 4, ZeroPageY))
    case 0xB7 => Some(Opcode(0xB7, LAX, 2, 4, ZeroPageY))
    case 0xB8 => Some(Opcode(0xB8, CLV, 1, 0, NoneAddressing))
    case 0xB9 => Some(Opcode(0xB9, LDA, 3, 4, AbsoluteY))
    case 0xBA => Some(Opcode(0xBA, TSX, 1, 2, NoneAddressing))
    case 0xBC => Some(Opcode(0xBC, LDY, 3, 4, AbsoluteX))
    case 0xBD => Some(Opcode(0xBD, LDA, 3, 4, AbsoluteX))
    case 0xBE => Some(Opcode(0xBE, LDX, 3, 4, AbsoluteY))
    case 0xBF => Some(Opcode(0xBF, LAX, 3, 4, AbsoluteY))
    case _ => None
  }

  function RowC(code: u8): Option<Opcode>
  {
    match code
    case 0xC0 => Some(Opcode(0xC0, CPY, 2, 2, Immediate))
    case 0xC1 => Some(Opcode(0xC1, CMP, 2, 6, IndirectX))
    case 0xC2 => Some(Opcode(0xC2, DOP, 2, 2, Immediate))
    case 0xC3 => Some(Opcode(0xC3, DCP, 2, 8, IndirectX))
    case 0xC4 => Some(Opcode(0xC4, CPY, 2, 3, ZeroPage))
    case 0xC5 => Some(Opcode(0xC5, CMP, 2, 3, ZeroPage))
    case 0xC6 => Some(Opcode(0xC6, DEC, 2, 5, ZeroPage))
    case 0xC7 => Some(Opcode(0xC7, DCP, 2, 5, ZeroPage))
    case 0xC8 => Some(Opcode(0xC8, INY, 1, 2, NoneAddressing))
    case 0xC9 => Some(Opcode(0xC9, CMP, 2, 2, Immediate))
    case 0xCA => Some(Opcode(0xCA, DEX, 1, 2, NoneAddressing))
    case 0xCC => Some(Opcode(0xCC, CPY, 3, 4, Absolute))
    case 0xCD => Some(Opcode(0xCD, CMP, 3, 4, Absolute))
    case 0xCE => Some(Opcode(0xCE, DEC, 3, 6, Absolute))
    case 0xCF => Some(Opcode(0xCF, DCP, 3, 6, Absolute))
    case _ => None
  }

  function RowD(code: u8): Option<Opcode>
  {
    match code
    case 0xD0 => Some(Opcode(0xD0, BNE, 2, 2, NoneAddressing))
    case 0xD1 => Some(Opcode(0xD1, CMP, 2, 5, IndirectY))
    case 0xD3 => Some(Opcode(0xD3, DCP, 2, 8, IndirectY))
    case 0xD4 => Some(Opcode(0xD4, DOP, 2, 4, ZeroPageX))
    case 0xD5 => Some(Opcode(0xD5, CMP, 2, 4, ZeroPageX))
    case 0xD6 => Some(Opcode(0xD6, DEC, 2, 6, ZeroPageX))
    case 0xD7 => Some(Opcode(0xD7, DCP, 2, 6, ZeroPageX))
    case 0xD8 => Some(Opcode(0xD8, CLD, 1, 0, NoneAddressing))
    case 0xD9 => Some(Opcode(0xD9, CMP, 3, 4, AbsoluteY))
    case 0xDA => Some(Opcode(0xDA, NOP, 1, 2, NoneAddressing))
    case 0xDB => Some(Opcode(0xDB, DCP, 3, 7, AbsoluteY))
    case 0xDC => Some(Opcode(0xDC, TOP, 3, 4, AbsoluteX))
    case 0xDD => Some(Opcode(0xDD, CMP, 3, 4, AbsoluteX))
    case 0xDE => Some(Opcode(0xDE, DEC, 3, 7, AbsoluteX))
    case 0xDF => Some(Opcode(0xDF, DCP, 3, 7, AbsoluteX))
    case _ => None
  }

  function RowE(code: u8): Option<Opcode>
  {
    match code
    case 0xE0 => Some(Opcode(0xE0, CPX, 2, 2, Immediate))
    case 0xE1 => Some(Opcode(0xE1, SBC, 2, 6, IndirectX))
    case 0xE2 => Some(Opcode(0xE2, DOP, 2, 2, Immediate))
    case 0xE3 => Some(Opcode(0xE3, ISB, 2, 8, IndirectX))
    case 0xE4 => Some(Opcode(0xE4, CPX, 2, 3, ZeroPage))
    case 0xE5 => Some(Opcode(0xE5, SBC, 2, 3, ZeroPage))
    case 0xE6 => Some(Opcode(0xE6, INC, 2, 5, ZeroPage))
    case 0xE7 => Some(Opcode(0xE7, ISB, 2, 5, ZeroPage))
    case 0xE8 => Some(Opcode(0xE8, INX, 1, 2, NoneAddressing))
    case 0xE9 => Some(Opcode(0xE9, SBC, 2, 2, Immediate))
    case 0xEA => Some(Opcode(0xEA, NOP, 1, 2, NoneAddressing))
    case 0xEB => Some(Opcode(0xEB, SBC, 2, 2, Immediate))
    case 0xEC => Some(Opcode(0xEC, CPX, 3, 4, Absolute))
    case 0xED => Some(Opcode(0xED, SBC, 3, 4, Absolute))
    case 0xEE => Some(Opcode(0xEE, INC, 3, 6, Absolute))
    case 0xEF => Some(Opcode(0xEF, ISB, 3, 6, Absolute))
    case _ => None
  }

  function RowF(code: u8): Option<Opcode>
  {
    match code
    case 0xF0 => Some(Opcode(0xF0, BEQ, 2, 2, NoneAddressing))
    case 0xF1 => Some(Opcode(0xF1, SBC, 2, 5, IndirectY))
    case 0xF3 => Some(Opcode(0xF3, ISB, 2, 8, IndirectY))
    case 0xF4 => Some(Opcode(0xF4, DOP, 2, 4, ZeroPageX))
    case 0xF5 => Some(Opcode(0xF5, SBC, 2, 4, ZeroPageX))
    case 0xF6 => Some(Opcode(0xF6, INC, 2, 6, ZeroPageX))
    case 0xF7 => Some(Opcode(0xF7, ISB, 2, 6, ZeroPageX))
    case 0xF8 => Some(Opcode(0xF8, SED, 1, 0, NoneAddressing))
    case 0xF9 => Some(Opcode(0xF9, SBC, 3, 4, AbsoluteY))
    case 0xFA => Some(Opcode(0xFA, NOP, 1, 2, NoneAddressing))
    case 0xFB => Some(Opcode(0xFB, ISB, 3, 7, AbsoluteY))
    case 0xFC => Some(Opcode(0xFC, TOP, 3, 4, AbsoluteX))
    case 0xFD => Some(Opcode(0xFD, SBC, 3, 4, AbsoluteX))
    case 0xFE => Some(Opcode(0xFE, INC, 3, 7, AbsoluteX))
    case 0xFF => Some(Opcode(0xFF, ISB, 3, 7, AbsoluteX))
    case _ => None
  }

  /** The bytes the table has no entry for; decoding one of them makes the engine panic. */
  const ABSENT_CODES: set<u8> := {
    0x02, 0x0B, 0x12, 0x22, 0x2B, 0x32, 0x42, 0x4B, 0x52, 0x62, 0x6B, 0x72, 0x8B, 0x92, 0x93, 0x9B, 0x9C, 0x9E, 0x9F, 0xAB, 0xB2, 0xBB, 0xCB, 0xD2, 0xF2
  }

  predicate IsBranch(mnemonic: Mnemonic)
  {
    mnemonic in {BPL, BMI, BVC, BVS, BCC, BCS, BNE, BEQ}
  }

  /** The length of an entry agrees with its addressing mode: one operand byte for
      the immediate, zero-page and indirect modes, two for the absolute modes, none
      for the implied mode, except that the relative branches carry one offset byte
      and the indirect JMP 0x6C a two-byte pointer.  Branches use the implied mode. */
  predicate LengthFitsMode(op: Opcode)
  {
    1 <= op.len <= 3 &&
    (IsBranch(op.mnemonic) ==> op.mode == NoneAddressing) &&
    (op.mode in {Immediate, ZeroPage, ZeroPageX, ZeroPageY, IndirectX, IndirectY} ==> op.len == 2) &&
    (op.mode in {Absolute, AbsoluteX, AbsoluteY} ==> op.len == 3) &&
    (op.mode == NoneAddressing ==>
       op.len == (if IsBranch(op.mnemonic) then 2 else if op.code == 0x6C then 3 else 1))
  }

  /** What one row of the table satisfies. */
  predicate RowFacts(k: u8, entry: Option<Opcode>)
  {
    (entry.None? <==> k in ABSENT_CODES) &&
    (entry.Some? ==> entry.value.code == k && LengthFitsMode(entry.value))
  }

  lemma Row0Facts(k: u8)
    requires k / 16 == 0
    ensures RowFacts(k, Row0(k))
  {
  }

  lemma Row1Facts(k: u8)
    requires k / 16 == 1
    ensures RowFacts(k, Row1(k))
  {
  }

  lemma Row2Facts(k: u8)
    requires k / 16 == 2
    ensures RowFacts(k, Row2(k))
  {
  }

  lemma Row3Facts(k: u8)
    requires k / 16 == 3
    ensures RowFacts(k, Row3(k))
  {
  }

  lemma Row4Facts(k: u8)
    requires k / 16 == 4
    ensures RowFacts(k, Row4(k))
  {
  }

  lemma Row5Facts(k: u8)
    requires k / 16 == 5
    ensures RowFacts(k, Row5(k))
  {
  }

  lemma Row6Facts(k: u8)
    requires k / 16 == 6
    ensures RowFacts(k, Row6(k))
  {
  }

  lemma Row7Facts(k: u8)
    requires k / 16 == 7
    ensures RowFacts(k, Row7(k))
  {
  }

  lemma Row8Facts(k: u8)
    requires k / 16 == 8
    ensures RowFacts(k, Row8(k))
  {
  }

  lemma Row9Facts(k: u8)
    requires k / 16 == 9
    ensures RowFacts(k, Row9(k))
  {
  }

  lemma RowAFacts(k: u8)
    requires k / 16 == 10
    ensures RowFacts(k, RowA(k))
  {
  }

  lemma RowBFacts(k: u8)
    requires k / 16 == 11
    ensures RowFacts(k, RowB(k))
  {
  }

  lemma RowCFacts(k: u8)
    requires k / 16 == 12
    ensures RowFacts(k, RowC(k))
  {
  }

  lemma RowDFacts(k: u8)
    requires k / 16 == 13
    ensures RowFacts(k, RowD(k))
  {
  }

  lemma RowEFacts(k: u8)
    requires k / 16 == 14
    ensures RowFacts(k, RowE(k))
  {
  }

  lemma RowFFacts(k: u8)
    requires k / 16 == 15
    ensures RowFacts(k, RowF(k))
  {
  }

  /** The table is defined on every byte except ABSENT_CODES, the entry for a byte
      carries that byte as its code (so `OPCODES_MAP[&k].code == k`), and every
      entry's length fits its addressing mode. */
  lemma DecodeFacts(k: u8)
    ensures Decode(k).None? <==> k in ABSENT_CODES
    ensures Decode(k).Some? ==> Decode(k).value.code == k && LengthFitsMode(Decode(k).value)
  {
    match k / 16
    case 0 => Row0Facts(k);
    case 1 => Row1Facts(k);
    case 2 => Row2Facts(k);
    case 3 => Row3Facts(k);
    case 4 => Row4Facts(k);
    case 5 => Row5Facts(k);
    case 6 => Row6Facts(k);
    case 7 => Row7Facts(k);
    case 8 => Row8Facts(k);
    case 9 => Row9Facts(k);
    case 10 => RowAFacts(k);
    case 11 => RowBFacts(k);
    case 12 => RowCFacts(k);
    case 13 => RowDFacts(k);
    case 14 => RowEFacts(k);
    case 15 => RowFFacts(k);
  }
}
