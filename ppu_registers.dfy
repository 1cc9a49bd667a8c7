/**
 * The PPU registers of src/ppu_registers.rs: PPUCTRL, PPUMASK and PPUSTATUS
 * are bit-flag bytes (every one of their eight bits is a declared flag), and
 * PPUSCROLL is a pair of bytes written alternately through a latch.  The
 * decoders are functions of the register byte; the registers themselves are
 * objects whose methods update them in place.
 */
module PpuRegisters {
  import opened Bytes

  // ---------------------------------------------------------------------
  // Flag operations of the `bitflags` registers

  /** Every bit of the three flag registers is a declared flag. */
  const ALL_BITS: u8 := 0xFF

  /** `contains(flag)`: all the bits of `flag` are set. */
  predicate Contains(bits: u8, flag: u8)
  {
    And(bits, flag) == flag
  }

  /** `insert(flag)`. */
  function Insert(bits: u8, flag: u8): u8
  {
    Or(bits, flag)
  }

  /** `remove(flag)`: `bits & !flag`. */
  function Remove(bits: u8, flag: u8): u8
  {
    And(bits, ALL_BITS - flag)
  }

  /** `set(flag, on)`. */
  function Set(bits: u8, flag: u8, on: bool): u8
  {
    if on then Insert(bits, flag) else Remove(bits, flag)
  }

  /** `from_bits_truncate`: nothing is lost, since every bit is declared. */
  function Truncate(data: u8): (r: u8)
    ensures r == data
  {
    AndAllOnes(data);
    And(data, ALL_BITS)
  }

  /** A single-bit flag is contained exactly when its bit is set. */
  lemma ContainsBit(bits: u8, flag: u8, j: nat)
    requires j < 8 && flag == Pow2(j)
    ensures Contains(bits, flag) <==> BitOf(bits, j)
  {
    Pow2Byte();
    BitwiseBits(Conj, bits, flag, 8);
    Pow2Bits(j, 8);
    var masked := And(bits, flag);
    if BitOf(bits, j) {
      assert BitList(masked, 8) == BitList(flag, 8);
      FromBitListOfBitList(masked, 8);
      FromBitListOfBitList(flag, 8);
    } else {
      assert BitList(masked, 8)[j] != BitList(flag, 8)[j];
    }
  }

  /** Setting a single-bit flag to `on` makes its bit `on` and keeps every other bit. */
  lemma SetBit(bits: u8, flag: u8, j: nat, on: bool)
    requires j < 8 && flag == Pow2(j)
    ensures BitList(Set(bits, flag, on), 8) == BitList(bits, 8)[j := on]
  {
    Pow2Byte();
    Pow2Bits(j, 8);
    if on {
      BitwiseBits(Disj, bits, flag, 8);
    } else {
      var complement := ALL_BITS - flag;
      ComplementBits(flag, 8);
      assert complement == Pow2(8) - 1 - flag;
      BitwiseBits(Conj, bits, complement, 8);
      forall i | 0 <= i < 8
        ensures BitList(Remove(bits, flag), 8)[i] == BitList(bits, 8)[j := false][i]
      {
        assert BitList(complement, 8)[i] == !BitList(flag, 8)[i];
      }
    }
  }

  // ---------------------------------------------------------------------
  // PPUCTRL

  const NAMETABLE1: u8 := 0x01
  const NAMETABLE2: u8 := 0x02
  const VRAM_ADD_INCREMENT: u8 := 0x04
  const SPRITE_PATTERN_ADDR: u8 := 0x08
  const BACKGROUND_PATTERN_ADDR: u8 := 0x10
  const SPRITE_SIZE: u8 := 0x20
  const MASTER_SLAVE_SELECT: u8 := 0x40
  const GENERATE_NMI: u8 := 0x80

  /** `nametable_addr`: bits 0 and 1 select one of the four nametables at $2000,
      $2400, $2800 and $2C00; the two-bit value leaves no other case. */
  function NametableAddr(ctrl: u8): (r: u16)
    ensures r == 0x2000 + 0x400 * (ctrl % 4)
  {
    AndLowBits(ctrl);
    var low := And(ctrl, 0x03);
    if low == 0 then 0x2000
    else if low == 1 then 0x2400
    else if low == 2 then 0x2800
    else 0x2C00
  }

  /** The nametable is selected by NAMETABLE1 (bit 0, +$400) and NAMETABLE2 (bit 1, +$800). */
  lemma NametableAddrBits(ctrl: u8)
    ensures NametableAddr(ctrl) == 0x2000 + 0x400 * BoolByte(BitOf(ctrl, 0)) + 0x800 * BoolByte(BitOf(ctrl, 1))
    ensures NametableAddr(ctrl) in {0x2000, 0x2400, 0x2800, 0x2C00}
  {
    BitOfShr(ctrl, 0);
    BitOfShr(ctrl, 1);
    assert ctrl % 4 == ctrl % 2 + 2 * ((ctrl / 2) % 2);
  }

  /** `vram_addr_increment`: 32 (going down) when bit 2 is set, else 1 (going across). */
  function VramAddrIncrement(ctrl: u8): (r: u8)
    ensures r == if BitOf(ctrl, 2) then 32 else 1
  {
    ContainsBit(ctrl, VRAM_ADD_INCREMENT, 2);
    if !Contains(ctrl, VRAM_ADD_INCREMENT) then 1 else 32
  }

  /** `sprt_pattern_addr`: the 8x8 sprite pattern table is at $1000 when bit 3 is set. */
  function SpritePatternAddr(ctrl: u8): (r: u16)
    ensures r == 0x1000 * BoolByte(BitOf(ctrl, 3))
  {
    ContainsBit(ctrl, SPRITE_PATTERN_ADDR, 3);
    if !Contains(ctrl, SPRITE_PATTERN_ADDR) then 0 else 0x1000
  }

  /** `bknd_pattern_addr`: the background pattern table is at $1000 when bit 4 is set. */
  function BackgroundPatternAddr(ctrl: u8): (r: u16)
    ensures r == 0x1000 * BoolByte(BitOf(ctrl, 4))
  {
    ContainsBit(ctrl, BACKGROUND_PATTERN_ADDR, 4);
    if !Contains(ctrl, BACKGROUND_PATTERN_ADDR) then 0 else 0x1000
  }

  /** `sprite_size`: sprites are 16 pixels tall when bit 5 is set, else 8. */
  function SpriteSize(ctrl: u8): (r: u8)
    ensures r == 8 + 8 * BoolByte(BitOf(ctrl, 5))
  {
    ContainsBit(ctrl, SPRITE_SIZE, 5);
    if !Contains(ctrl, SPRITE_SIZE) then 8 else 16
  }

  /** `master_slave_select`: bit 6 as 0 or 1. */
  function MasterSlaveSelect(ctrl: u8): (r: u8)
    ensures r == BoolByte(BitOf(ctrl, 6))
  {
    ContainsBit(ctrl, MASTER_SLAVE_SELECT, 6);
    if !Contains(ctrl, MASTER_SLAVE_SELECT) then 0 else 1
  }

  /** `generate_vblank_nmi`: bit 7, the top bit of the byte. */
  function GenerateVblankNmi(ctrl: u8): (r: bool)
    ensures r <==> BitOf(ctrl, 7)
    ensures r <==> ctrl >= 0x80
  {
    ContainsBit(ctrl, GENERATE_NMI, 7);
    SignBit(ctrl);
    Contains(ctrl, GENERATE_NMI)
  }

  // ---------------------------------------------------------------------
  // PPUMASK

  const GREYSCALE: u8 := 0x01
  const LEFTMOST_8PXL_BACKGROUND: u8 := 0x02
  const LEFTMOST_8PXL_SPRITE: u8 := 0x04
  const SHOW_BACKGROUND: u8 := 0x08
  const SHOW_SPRITES: u8 := 0x10
  const EMPHASISE_RED: u8 := 0x20
  const EMPHASISE_GREEN: u8 := 0x40
  const EMPHASISE_BLUE: u8 := 0x80

  function IsGrayscale(mask: u8): (r: bool)
    ensures r <==> BitOf(mask, 0)
  {
    ContainsBit(mask, GREYSCALE, 0);
    Contains(mask, GREYSCALE)
  }

  function Leftmost8pxlBackground(mask: u8): (r: bool)
    ensures r <==> BitOf(mask, 1)
  {
    ContainsBit(mask, LEFTMOST_8PXL_BACKGROUND, 1);
    Contains(mask, LEFTMOST_8PXL_BACKGROUND)
  }

  function Leftmost8pxlSprite(mask: u8): (r: bool)
    ensures r <==> BitOf(mask, 2)
  {
    ContainsBit(mask, LEFTMOST_8PXL_SPRITE, 2);
    Contains(mask, LEFTMOST_8PXL_SPRITE)
  }

  function ShowBackground(mask: u8): (r: bool)
    ensures r <==> BitOf(mask, 3)
  {
    ContainsBit(mask, SHOW_BACKGROUND, 3);
    Contains(mask, SHOW_BACKGROUND)
  }

  function ShowSprites(mask: u8): (r: bool)
    ensures r <==> BitOf(mask, 4)
  {
    ContainsBit(mask, SHOW_SPRITES, 4);
    Contains(mask, SHOW_SPRITES)
  }

  datatype Color = Red | Green | Blue

  /** The emphasised colours, in the order `emphasise` pushes them: red, blue, green. */
  function Emphasis(mask: u8): seq<Color>
  {
    (if Contains(mask, EMPHASISE_RED) then [Red] else [])
    + (if Contains(mask, EMPHASISE_BLUE) then [Blue] else [])
    + (if Contains(mask, EMPHASISE_GREEN) then [Green] else [])
  }

  /** Where each colour stands in the emphasis list. */
  function EmphasisRank(c: Color): nat
  {
    match c
    case Red => 0
    case Blue => 1
    case Green => 2
  }

  /** Red is listed iff bit 5 is set, green iff bit 6, blue iff bit 7; the list
      is in the order red, blue, green, so no colour repeats; and its length is
      the number of those bits set. */
  lemma EmphasisContents(mask: u8)
    ensures var r := Emphasis(mask);
      && (Red in r <==> BitOf(mask, 5))
      && (Green in r <==> BitOf(mask, 6))
      && (Blue in r <==> BitOf(mask, 7))
      && (forall i, j :: 0 <= i < j < |r| ==> EmphasisRank(r[i]) < EmphasisRank(r[j]))
      && |r| == BoolByte(BitOf(mask, 5)) + BoolByte(BitOf(mask, 6)) + BoolByte(BitOf(mask, 7))
  {
    ContainsBit(mask, EMPHASISE_RED, 5);
    ContainsBit(mask, EMPHASISE_GREEN, 6);
    ContainsBit(mask, EMPHASISE_BLUE, 7);
  }

  // ---------------------------------------------------------------------
  // PPUSTATUS

  const SPRITE_OVERFLOW: u8 := 0x20
  const SPRITE_ZERO_HIT: u8 := 0x40
  const VBLANK_STARTED: u8 := 0x80

  /** `is_in_vblank`: bit 7. */
  function IsInVblank(status: u8): (r: bool)
    ensures r <==> BitOf(status, 7)
  {
    ContainsBit(status, VBLANK_STARTED, 7);
    Contains(status, VBLANK_STARTED)
  }

  /** Setting or clearing the vblank flag changes bit 7 to `on` and no other bit,
      and the flag then reads back as `on`. */
  lemma SetVblankOnlyBit7(status: u8, on: bool)
    ensures IsInVblank(Set(status, VBLANK_STARTED, on)) == on
    ensures forall i :: 0 <= i < 7 ==> BitOf(Set(status, VBLANK_STARTED, on), i) == BitOf(status, i)
  {
    SetBit(status, VBLANK_STARTED, 7, on);
  }

  /** Clearing the vblank flag is setting it to false. */
  lemma ResetVblankClears(status: u8)
    ensures !IsInVblank(Remove(status, VBLANK_STARTED))
    ensures forall i :: 0 <= i < 7 ==> BitOf(Remove(status, VBLANK_STARTED), i) == BitOf(status, i)
  {
    SetVblankOnlyBit7(status, false);
  }

  // ---------------------------------------------------------------------
  // PPUSCROLL

  /** The scroll register's state: the two offsets and the write latch. */
  datatype ScrollState = ScrollState(x: u8, y: u8, latch: bool)

  /** `write`: the first write of a pair sets x, the second sets y; each flips the latch. */
  function ScrollWrite(s: ScrollState, data: u8): ScrollState
  {
    if !s.latch then s.(x := data, latch := true) else s.(y := data, latch := false)
  }

  /** Each write stores into exactly one offset, chosen by the latch, and flips the latch. */
  lemma ScrollWriteEffect(s: ScrollState, data: u8)
    ensures ScrollWrite(s, data).latch == !s.latch
    ensures !s.latch ==> ScrollWrite(s, data) == ScrollState(data, s.y, true)
    ensures s.latch ==> ScrollWrite(s, data) == ScrollState(s.x, data, false)
  {
  }

  /** Two writes from a cleared latch set x and then y, and clear the latch again. */
  lemma ScrollWritePair(s: ScrollState, x: u8, y: u8)
    requires !s.latch
    ensures ScrollWrite(ScrollWrite(s, x), y) == ScrollState(x, y, false)
  {
  }

  // ---------------------------------------------------------------------
  // The registers as objects

  class ControlRegister {
    var bits: u8

    constructor()
      ensures bits == 0
    {
      bits := Truncate(0);
    }

    /** `update`: the register takes the written byte. */
    method Update(data: u8)
      modifies this
      ensures bits == data
    {
      bits := Truncate(data);
    }
  }

  class MaskRegister {
    var bits: u8

    constructor()
      ensures bits == 0
    {
      bits := Truncate(0);
    }

    method Update(data: u8)
      modifies this
      ensures bits == data
    {
      bits := Truncate(data);
    }

    /** `emphasise`, built by pushes. */
    method Emphasise() returns (result: seq<Color>)
      ensures result == Emphasis(bits)
    {
      result := [];
      if Contains(bits, EMPHASISE_RED) {
        result := result + [Red];
      }
      if Contains(bits, EMPHASISE_BLUE) {
        result := result + [Blue];
      }
      if Contains(bits, EMPHASISE_GREEN) {
        result := result + [Green];
      }
    }
  }

  class StatusRegister {
    var bits: u8

    constructor()
      ensures bits == 0
    {
      bits := Truncate(0);
    }

    method SetVblankStatus(status: bool)
      modifies this
      ensures bits == Set(old(bits), VBLANK_STARTED, status)
    {
      bits := Set(bits, VBLANK_STARTED, status);
    }

    method SetSpriteZeroHit(status: bool)
      modifies this
      ensures bits == Set(old(bits), SPRITE_ZERO_HIT, status)
    {
      bits := Set(bits, SPRITE_ZERO_HIT, status);
    }

    method SetSpriteOverflow(status: bool)
      modifies this
      ensures bits == Set(old(bits), SPRITE_OVERFLOW, status)
    {
      bits := Set(bits, SPRITE_OVERFLOW, status);
    }

    method ResetVblankStatus()
      modifies this
      ensures bits == Remove(old(bits), VBLANK_STARTED)
    {
      bits := Remove(bits, VBLANK_STARTED);
    }

    /** `snapshot`: the raw register byte. */
    method Snapshot() returns (r: u8)
      ensures r == bits
    {
      r := bits;
    }
  }

  class ScrollRegister {
    var scrollX: u8
    var scrollY: u8
    var latch: bool

    function State(): ScrollState
      reads this
    {
      ScrollState(scrollX, scrollY, latch)
    }

    constructor()
      ensures State() == ScrollState(0, 0, false)
    {
      scrollX := 0;
      scrollY := 0;
      latch := false;
    }

    method Write(data: u8)
      modifies this
      ensures State() == ScrollWrite(old(State()), data)
    {
      if !latch {
        scrollX := data;
      } else {
        scrollY := data;
      }
      latch := !latch;
    }

    /** `reset_latch`: only the latch changes. */
    method ResetLatch()
      modifies this
      ensures State() == old(State()).(latch := false)
    {
      latch := false;
    }
  }
}
