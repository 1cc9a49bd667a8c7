/**
 * The frame renderer of src/render.rs: the background is drawn from two
 * nametables (chosen by the mirroring and PPUCTRL), each tile decoded from
 * its two bit planes and coloured from the palette its attribute byte
 * selects; then the 64 sprites are drawn over it, last entry first, skipping
 * transparent pixels.  Colours are indices into the 64-entry system palette.
 */
module Render {
  import opened Wrappers
  import opened Bytes
  import opened PpuRegisters

  const WIDTH: nat := 256
  const HEIGHT: nat := 240

  /** An index into the system palette. */
  type Colour = c: int | 0 <= c < 64

  /** The cartridge's nametable arrangement. */
  datatype Mirroring = Vertical | Horizontal | FourScreen

  /** What the renderer reads of the PPU. */
  datatype Ppu = Ppu(
    chrRom: seq<u8>,
    paletteTable: seq<u8>,
    vram: seq<u8>,
    oamData: seq<u8>,
    mirroring: Mirroring,
    ctrl: u8,
    scrollX: u8,
    scrollY: u8)

  /** The sizes of the PPU memories, and palette bytes that index the system palette. */
  predicate ValidPpu(p: Ppu)
  {
    && |p.chrRom| >= 0x2000
    && |p.paletteTable| == 32
    && |p.vram| == 0x800
    && |p.oamData| == 256
    && forall i :: 0 <= i < |p.paletteTable| ==> p.paletteTable[i] < 64
  }

  // ---------------------------------------------------------------------
  // Palettes

  /** The attribute byte of a tile: one byte per block of 4x4 tiles, eight blocks to a row. */
  function AttributeIndex(tileColumn: nat, tileRow: nat): (r: nat)
    requires tileColumn < 32 && tileRow < 30
    ensures r < 64
  {
    tileRow / 4 * 8 + tileColumn / 4
  }

  /** Attribute byte r belongs to the block in column r % 8 and row r / 8 of
      blocks, and every tile of that block shares it. */
  lemma AttributeIndexBlock(tileColumn: nat, tileRow: nat)
    requires tileColumn < 32 && tileRow < 30
    ensures var r := AttributeIndex(tileColumn, tileRow);
      r % 8 == tileColumn / 4 && r / 8 == tileRow / 4
  {
  }

  /** Which 2x2-tile quadrant of its block a tile is in: 0 top left, 1 top right,
      2 bottom left, 3 bottom right. */
  function Quadrant(tileColumn: nat, tileRow: nat): nat
  {
    2 * (tileRow % 4 / 2) + tileColumn % 4 / 2
  }

  /** The palette number of a tile: the 2-bit field of the attribute byte for
      its quadrant (bits 0-1 top left, 2-3 top right, 4-5 bottom left, 6-7
      bottom right). */
  function PaletteIndex(attrByte: u8, tileColumn: nat, tileRow: nat): (r: nat)
    ensures r < 4
  {
    var qx := tileColumn % 4 / 2;
    var qy := tileRow % 4 / 2;
    if qx == 0 && qy == 0 then attrByte % 4
    else if qx == 1 && qy == 0 then attrByte / 4 % 4
    else if qx == 0 && qy == 1 then attrByte / 16 % 4
    else attrByte / 64 % 4
  }

  /** The palette number is what `bg_pallette` computes with shifts and masks:
      the attribute byte shifted right by twice the quadrant number, masked
      with 0b11. */
  lemma PaletteIndexBits(attrByte: u8, tileColumn: nat, tileRow: nat)
    ensures var s := Shr(attrByte, 2 * Quadrant(tileColumn, tileRow));
      s < 256 && PaletteIndex(attrByte, tileColumn, tileRow) == And(s, 0x03)
  {
    ShrPairs(attrByte);
    var s := Shr(attrByte, 2 * Quadrant(tileColumn, tileRow));
    AndLowBits(s);
  }

  /** Shifting right by 2, 4 or 6 divides by 4, 16 or 64. */
  lemma ShrPairs(v: u8)
    ensures Shr(v, 0) == v && Shr(v, 2) == v / 4 && Shr(v, 4) == v / 16 && Shr(v, 6) == v / 64
  {
    ShrStep(v, 0); ShrStep(v, 1); ShrStep(v, 2); ShrStep(v, 3); ShrStep(v, 4); ShrStep(v, 5);
  }

  /** `bg_pallette`: the universal background colour, then three colours of
      the tile's background palette. */
  function BgPalette(paletteTable: seq<u8>, attributeTable: seq<u8>, tileColumn: nat, tileRow: nat): (r: seq<u8>)
    requires |paletteTable| == 32 && |attributeTable| == 64 && tileColumn < 32 && tileRow < 30
    ensures |r| == 4
  {
    var attrByte := attributeTable[AttributeIndex(tileColumn, tileRow)];
    var palletIdx := PaletteIndex(attrByte, tileColumn, tileRow);
    var palleteStart := 1 + palletIdx * 4;
    [paletteTable[0], paletteTable[palleteStart], paletteTable[palleteStart + 1], paletteTable[palleteStart + 2]]
  }

  /** Entry 0 of a background palette is palette byte 0; entry k of palette
      number n is palette byte 4n + k, always among the first 16 bytes. */
  lemma BgPaletteEntries(paletteTable: seq<u8>, attributeTable: seq<u8>, tileColumn: nat, tileRow: nat)
    requires |paletteTable| == 32 && |attributeTable| == 64 && tileColumn < 32 && tileRow < 30
    ensures var r := BgPalette(paletteTable, attributeTable, tileColumn, tileRow);
      var idx := PaletteIndex(attributeTable[AttributeIndex(tileColumn, tileRow)], tileColumn, tileRow);
      r[0] == paletteTable[0] && forall k :: 1 <= k < 4 ==> 4 * idx + k < 16 && r[k] == paletteTable[4 * idx + k]
  {
    var r := BgPalette(paletteTable, attributeTable, tileColumn, tileRow);
    var idx := PaletteIndex(attributeTable[AttributeIndex(tileColumn, tileRow)], tileColumn, tileRow);
    assert r == [paletteTable[0], paletteTable[1 + idx * 4], paletteTable[2 + idx * 4], paletteTable[3 + idx * 4]];
  }

  /** `sprite_palette`: entry 0 (transparent, never drawn), then three colours
      of sprite palette `idx`, all among the palette bytes 0x11 to 0x1F. */
  function SpritePalette(paletteTable: seq<u8>, palleteIdx: u8): (r: seq<u8>)
    requires |paletteTable| == 32 && palleteIdx < 4
    ensures |r| == 4 && r[0] == 0
    ensures forall k :: 1 <= k < 4 ==>
      0x11 <= 0x10 + 4 * palleteIdx + k <= 0x1F && r[k] == paletteTable[0x10 + 4 * palleteIdx + k]
  {
    var start := 0x11 + palleteIdx * 4;
    [0, paletteTable[start], paletteTable[start + 1], paletteTable[start + 2]]
  }

  // ---------------------------------------------------------------------
  // Tiles

  /** The colour number (0 to 3) of pixel (x, y) of the tile at `base`: the
      low bit of row y of the high plane (bytes 8 to 15) and of the low plane
      (bytes 0 to 7), each shifted right 7 - x times. */
  function TilePixel(chr: seq<u8>, base: nat, x: nat, y: nat): (v: nat)
    requires base + 16 <= |chr| && x < 8 && y < 8
    ensures v < 4
  {
    2 * (Shr(chr[base + y + 8], 7 - x) % 2) + Shr(chr[base + y], 7 - x) % 2
  }

  /** Pixel x of a tile row is bit 7 - x of its plane bytes: the leftmost pixel
      is the most significant bit. */
  lemma TilePixelBits(chr: seq<u8>, base: nat, x: nat, y: nat)
    requires base + 16 <= |chr| && x < 8 && y < 8
    ensures TilePixel(chr, base, x, y) % 2 == 1 <==> BitOf(chr[base + y], 7 - x)
    ensures TilePixel(chr, base, x, y) / 2 == 1 <==> BitOf(chr[base + y + 8], 7 - x)
  {
    BitOfShr(chr[base + y], 7 - x);
    BitOfShr(chr[base + y + 8], 7 - x);
  }

  /** The first byte of tile `tileIdx` of the pattern table at `bank`. */
  function TileBase(bank: u16, tileIdx: u8): (r: nat)
    requires bank <= 0x1000
    ensures r + 16 <= 0x2000
  {
    bank + tileIdx * 16
  }

  // ---------------------------------------------------------------------
  // Nametables

  /** The VRAM offsets of the main and the second nametable, for the two
      supported mirrorings; `None` where the source panics. */
  function Nametables(mirroring: Mirroring, addr: u16): (r: Option<(nat, nat)>)
    ensures r.Some? ==> r.value == (0, 0x400) || r.value == (0x400, 0)
  {
    if (mirroring == Vertical && (addr == 0x2000 || addr == 0x2800))
      || (mirroring == Horizontal && (addr == 0x2000 || addr == 0x2400))
    then Some((0, 0x400))
    else if (mirroring == Vertical && (addr == 0x2400 || addr == 0x2C00))
      || (mirroring == Horizontal && (addr == 0x2800 || addr == 0x2C00))
    then Some((0x400, 0))
    else None
  }

  /** For every PPUCTRL value the selection panics only under four-screen
      mirroring, and otherwise yields the two distinct 1 KiB halves of VRAM:
      the first half is the main one for vertical mirroring with nametable 0
      or 2 and for horizontal mirroring with nametable 0 or 1. */
  lemma NametableSelection(mirroring: Mirroring, ctrl: u8)
    ensures var r := Nametables(mirroring, NametableAddr(ctrl));
      && (r.None? <==> mirroring == FourScreen)
      && (r.Some? ==> {r.value.0, r.value.1} == {0, 0x400})
      && (r.Some? ==> (r.value.0 == 0 <==>
            (mirroring == Vertical && ctrl % 2 == 0) || (mirroring == Horizontal && ctrl % 4 < 2)))
  {
    NametableAddrBits(ctrl);
  }

  // ---------------------------------------------------------------------
  // The frame

  class Frame {
    /** One colour per pixel, indexed by (x, y). */
    const pixels: array2<Colour>

    ghost predicate Valid()
      reads this
    {
      pixels.Length0 == WIDTH && pixels.Length1 == HEIGHT
    }

    constructor()
      ensures Valid() && fresh(pixels)
    {
      pixels := new Colour[WIDTH, HEIGHT]((x, y) => 0);
    }

    /** `set_pixel`, writing inside the 256x240 frame; a target off the frame is dropped. */
    method SetPixel(x: int, y: int, rgb: Colour)
      requires Valid()
      modifies pixels
      ensures forall fx, fy | 0 <= fx < WIDTH && 0 <= fy < HEIGHT ::
        pixels[fx, fy] == if fx == x && fy == y then rgb else old(pixels[fx, fy])
    {
      if 0 <= x < WIDTH && 0 <= y < HEIGHT {
        pixels[x, y] := rgb;
      }
    }
  }

  /** A colour painted over `before`, or `before` where nothing is painted. */
  function Paint(c: Option<Colour>, before: Colour): Colour
  {
    if c.Some? then c.value else before
  }

  // ---------------------------------------------------------------------
  // Background

  datatype Rect = Rect(x1: int, y1: int, x2: int, y2: int)

  /** The colour of pixel (x, y) of tile i of a nametable: its colour number
      from the tile's pattern, looked up in the palette its attribute selects. */
  function TileColour(p: Ppu, nameTable: seq<u8>, i: nat, x: nat, y: nat): Colour
    requires ValidPpu(p) && |nameTable| == 0x400 && i < 0x3C0 && x < 8 && y < 8
  {
    var palette := BgPalette(p.paletteTable, nameTable[0x3C0..0x400], i % 32, i / 32);
    var value := TilePixel(p.chrRom, TileBase(BackgroundPatternAddr(p.ctrl), nameTable[i]), x, y);
    if value == 0 then p.paletteTable[0] else palette[value]
  }

  /** The colour of pixel (px, py) of a nametable's 256x240 picture. */
  function BackgroundColour(p: Ppu, nameTable: seq<u8>, px: int, py: int): Colour
    requires ValidPpu(p) && |nameTable| == 0x400 && 0 <= px < WIDTH && 0 <= py < HEIGHT
  {
    TileColour(p, nameTable, (py / 8) * 32 + px / 8, px % 8, py % 8)
  }

  /** Whether a pass with this viewport and shift paints frame pixel (fx, fy):
      the picture pixel it shows, (fx - shiftX, fy - shiftY), is inside the viewport. */
  predicate InPass(viewPort: Rect, shiftX: int, shiftY: int, fx: int, fy: int)
  {
    var px := fx - shiftX;
    var py := fy - shiftY;
    0 <= px < WIDTH && 0 <= py < HEIGHT
    && viewPort.x1 <= px < viewPort.x2 && viewPort.y1 <= py < viewPort.y2
  }

  /** What one pass leaves at frame pixel (fx, fy). */
  function PassPixel(p: Ppu, nameTable: seq<u8>, viewPort: Rect, shiftX: int, shiftY: int,
                     fx: int, fy: int, before: Colour): Colour
    requires ValidPpu(p) && |nameTable| == 0x400
  {
    if InPass(viewPort, shiftX, shiftY, fx, fy) then BackgroundColour(p, nameTable, fx - shiftX, fy - shiftY)
    else before
  }

  /** The step at which the loops of `render_name_table` reach picture pixel
      (px, py): tile by tile, row by row within a tile, and from column 7 down
      to column 0 within a row. */
  function DrawOrder(px: int, py: int): int
  {
    ((py / 8) * 32 + px / 8) * 64 + (py % 8) * 8 + (7 - px % 8)
  }

  /** Whether one of the steps `lo` to `hi - 1` of a pass paints frame pixel (fx, fy). */
  predicate Drawn(viewPort: Rect, shiftX: int, shiftY: int, fx: int, fy: int, lo: int, hi: int)
  {
    InPass(viewPort, shiftX, shiftY, fx, fy) && lo <= DrawOrder(fx - shiftX, fy - shiftY) < hi
  }

  /** A pass after its steps `lo` to `hi - 1`, starting from `before`. */
  function PassSteps(p: Ppu, nameTable: seq<u8>, viewPort: Rect, shiftX: int, shiftY: int,
                     fx: int, fy: int, lo: int, hi: int, before: Colour): Colour
    requires ValidPpu(p) && |nameTable| == 0x400
  {
    if Drawn(viewPort, shiftX, shiftY, fx, fy, lo, hi)
    then BackgroundColour(p, nameTable, fx - shiftX, fy - shiftY)
    else before
  }

  /** Three base-8 digits below a base-64 one name a number uniquely. */
  lemma DigitsUnique(a: int, b: int, c: int, a': int, b': int, c': int)
    requires 0 <= b < 8 && 0 <= c < 8 && 0 <= b' < 8 && 0 <= c' < 8
    requires a * 64 + b * 8 + c == a' * 64 + b' * 8 + c'
    ensures a == a' && b == b' && c == c'
  {
  }

  /** Step `i * 64 + y * 8 + 7 - x` draws column x of row y of tile i, and only that pixel. */
  lemma {:induction false} DrawOrderAt(px: int, py: int, i: nat, y: nat, x: nat)
    requires 0 <= px < WIDTH && 0 <= py < HEIGHT && i < 0x3C0 && y < 8 && x < 8
    ensures DrawOrder(px, py) == i * 64 + y * 8 + 7 - x <==>
      px == (i % 32) * 8 + x && py == (i / 32) * 8 + y
  {
    var tile := (py / 8) * 32 + px / 8;
    if px == (i % 32) * 8 + x && py == (i / 32) * 8 + y {
      assert px / 8 == i % 32 && px % 8 == x;
      assert py / 8 == i / 32 && py % 8 == y;
    }
    if DrawOrder(px, py) == i * 64 + y * 8 + 7 - x {
      DigitsUnique(tile, py % 8, 7 - px % 8, i, y, 7 - x);
      assert tile % 32 == px / 8 && tile / 32 == py / 8;
    }
  }

  /** Every pixel of the picture is drawn by one of the 0x3C0 * 64 steps. */
  lemma DrawOrderBound(px: int, py: int)
    requires 0 <= px < WIDTH && 0 <= py < HEIGHT
    ensures 0 <= DrawOrder(px, py) < 0x3C0 * 64
  {
  }

  /** Step `k` of a pass paints exactly the target of its own picture pixel,
      when that pixel is inside the viewport. */
  lemma StepTarget(viewPort: Rect, shiftX: int, shiftY: int, i: nat, y: nat, x: nat, fx: int, fy: int)
    requires i < 0x3C0 && y < 8 && x < 8 && 0 <= fx < WIDTH && 0 <= fy < HEIGHT
    ensures var px := (i % 32) * 8 + x;
      var py := (i / 32) * 8 + y;
      var k := i * 64 + y * 8 + 7 - x;
      Drawn(viewPort, shiftX, shiftY, fx, fy, k, k + 1) <==>
        fx == shiftX + px && fy == shiftY + py
        && viewPort.x1 <= px < viewPort.x2 && viewPort.y1 <= py < viewPort.y2
  {
    if 0 <= fx - shiftX < WIDTH && 0 <= fy - shiftY < HEIGHT {
      DrawOrderAt(fx - shiftX, fy - shiftY, i, y, x);
    }
  }

  /** `render_name_table`: every tile of the nametable, decoded row by row from
      its two bit planes, with the pixels inside the viewport drawn at their
      position plus the shift. */
  method RenderNameTable(p: Ppu, frame: Frame, nameTable: seq<u8>, viewPort: Rect, shiftX: int, shiftY: int)
    requires ValidPpu(p) && frame.Valid() && |nameTable| == 0x400
    modifies frame.pixels
    ensures forall fx, fy | 0 <= fx < WIDTH && 0 <= fy < HEIGHT ::
      frame.pixels[fx, fy] == PassPixel(p, nameTable, viewPort, shiftX, shiftY, fx, fy, old(frame.pixels[fx, fy]))
  {
    var bank := BackgroundPatternAddr(p.ctrl);
    var attributeTable := nameTable[0x3C0..0x400];
    var i := 0;
    while i < 0x3C0
      invariant 0 <= i <= 0x3C0
      invariant forall fx, fy | 0 <= fx < WIDTH && 0 <= fy < HEIGHT ::
        frame.pixels[fx, fy] == PassSteps(p, nameTable, viewPort, shiftX, shiftY, fx, fy, 0, i * 64, old(frame.pixels[fx, fy]))
    {
      var tileColumn := i % 32;
      var tileRow := i / 32;
      var tileBase := TileBase(bank, nameTable[i]);
      var palette := BgPalette(p.paletteTable, attributeTable, tileColumn, tileRow);
      var y := 0;
      while y < 8
        invariant 0 <= y <= 8
        invariant forall fx, fy | 0 <= fx < WIDTH && 0 <= fy < HEIGHT ::
          frame.pixels[fx, fy] == PassSteps(p, nameTable, viewPort, shiftX, shiftY, fx, fy, 0, i * 64 + y * 8, old(frame.pixels[fx, fy]))
      {
        DrawTileRow(p, frame, nameTable, viewPort, shiftX, shiftY, i, y, tileBase, palette);
        y := y + 1;
      }
      i := i + 1;
    }
    forall fx, fy | 0 <= fx < WIDTH && 0 <= fy < HEIGHT
      ensures frame.pixels[fx, fy] == PassPixel(p, nameTable, viewPort, shiftX, shiftY, fx, fy, old(frame.pixels[fx, fy]))
    {
      if InPass(viewPort, shiftX, shiftY, fx, fy) {
        DrawOrderBound(fx - shiftX, fy - shiftY);
      }
    }
  }

  /** The innermost loop of `render_name_table`: row y of tile i, shifting the
      two plane bytes right once per column, from column 7 down to column 0;
      it performs the steps `i * 64 + y * 8` to `i * 64 + y * 8 + 7`. */
  method DrawTileRow(p: Ppu, frame: Frame, nameTable: seq<u8>, viewPort: Rect, shiftX: int, shiftY: int,
                     i: nat, y: nat, tileBase: nat, palette: seq<u8>)
    requires ValidPpu(p) && frame.Valid() && |nameTable| == 0x400 && i < 0x3C0 && y < 8
    requires tileBase == TileBase(BackgroundPatternAddr(p.ctrl), nameTable[i])
    requires palette == BgPalette(p.paletteTable, nameTable[0x3C0..0x400], i % 32, i / 32)
    modifies frame.pixels
    ensures forall fx, fy | 0 <= fx < WIDTH && 0 <= fy < HEIGHT ::
      frame.pixels[fx, fy] == PassSteps(p, nameTable, viewPort, shiftX, shiftY, fx, fy, i * 64 + y * 8, i * 64 + y * 8 + 8, old(frame.pixels[fx, fy]))
  {
    var upper: nat := p.chrRom[tileBase + y];
    var lower: nat := p.chrRom[tileBase + y + 8];
    ghost var lo := i * 64 + y * 8;
    var x := 8;
    while x > 0
      invariant 0 <= x <= 8
      invariant upper == Shr(p.chrRom[tileBase + y], 8 - x) && lower == Shr(p.chrRom[tileBase + y + 8], 8 - x)
      invariant forall fx, fy | 0 <= fx < WIDTH && 0 <= fy < HEIGHT ::
        frame.pixels[fx, fy] == PassSteps(p, nameTable, viewPort, shiftX, shiftY, fx, fy, lo, lo + 8 - x, old(frame.pixels[fx, fy]))
    {
      x := x - 1;
      var value := (lower % 2) * 2 + upper % 2;
      PixelValue(p.chrRom, tileBase, x, y, upper, lower);
      upper := upper / 2;
      lower := lower / 2;
      var rgb: Colour := if value == 0 then p.paletteTable[0] else palette[value];
      TileColourAt(p, nameTable, i, x, y, tileBase, palette, value);
      DrawPixel(p, frame, nameTable, viewPort, shiftX, shiftY, i, y, x, rgb);
    }
  }

  /** The body of the innermost loop of `render_name_table`, once the colour
      is known: step `i * 64 + y * 8 + 7 - x` of the pass. */
  method DrawPixel(p: Ppu, frame: Frame, nameTable: seq<u8>, viewPort: Rect, shiftX: int, shiftY: int,
                   i: nat, y: nat, x: nat, rgb: Colour)
    requires ValidPpu(p) && frame.Valid() && |nameTable| == 0x400 && i < 0x3C0 && y < 8 && x < 8
    requires rgb == TileColour(p, nameTable, i, x, y)
    modifies frame.pixels
    ensures var k := i * 64 + y * 8 + 7 - x;
      forall fx, fy | 0 <= fx < WIDTH && 0 <= fy < HEIGHT ::
        frame.pixels[fx, fy] == PassSteps(p, nameTable, viewPort, shiftX, shiftY, fx, fy, k, k + 1, old(frame.pixels[fx, fy]))
  {
    var pixelX := i % 32 * 8 + x;
    var pixelY := i / 32 * 8 + y;
    BackgroundPixelAt(p, nameTable, i, x, y, pixelX, pixelY);
    if viewPort.x1 <= pixelX < viewPort.x2 && viewPort.y1 <= pixelY < viewPort.y2 {
      frame.SetPixel(shiftX + pixelX, shiftY + pixelY, rgb);
    }
    forall fx, fy | 0 <= fx < WIDTH && 0 <= fy < HEIGHT
      ensures var k := i * 64 + y * 8 + 7 - x;
        frame.pixels[fx, fy] == PassSteps(p, nameTable, viewPort, shiftX, shiftY, fx, fy, k, k + 1, old(frame.pixels[fx, fy]))
    {
      PixelStep(p, nameTable, viewPort, shiftX, shiftY, i, y, x, pixelX, pixelY, fx, fy, rgb, old(frame.pixels[fx, fy]), frame.pixels[fx, fy]);
    }
  }

  /** One step of a pass at one frame pixel: what the step leaves there is
      what the pass specification says its step `k` leaves. */
  lemma PixelStep(p: Ppu, nameTable: seq<u8>, viewPort: Rect, shiftX: int, shiftY: int,
                  i: nat, y: nat, x: nat, px: int, py: int, fx: int, fy: int, rgb: Colour, before: Colour, after: Colour)
    requires ValidPpu(p) && |nameTable| == 0x400 && i < 0x3C0 && y < 8 && x < 8
    requires px == (i % 32) * 8 + x && py == (i / 32) * 8 + y
    requires 0 <= px < WIDTH && 0 <= py < HEIGHT && rgb == BackgroundColour(p, nameTable, px, py)
    requires 0 <= fx < WIDTH && 0 <= fy < HEIGHT
    requires after == if viewPort.x1 <= px < viewPort.x2 && viewPort.y1 <= py < viewPort.y2
      && fx == shiftX + px && fy == shiftY + py then rgb else before
    ensures var k := i * 64 + y * 8 + 7 - x;
      after == PassSteps(p, nameTable, viewPort, shiftX, shiftY, fx, fy, k, k + 1, before)
  {
    StepTarget(viewPort, shiftX, shiftY, i, y, x, fx, fy);
  }

  /** The low bits of the two plane bytes, shifted right 7 - x times, make the
      colour number of pixel x; one more shift right moves to pixel x - 1. */
  lemma PixelValue(chr: seq<u8>, base: nat, x: nat, y: nat, upper: nat, lower: nat)
    requires base + 16 <= |chr| && x < 8 && y < 8
    requires upper == Shr(chr[base + y], 7 - x) && lower == Shr(chr[base + y + 8], 7 - x)
    ensures (lower % 2) * 2 + upper % 2 == TilePixel(chr, base, x, y)
    ensures upper / 2 == Shr(chr[base + y], 8 - x) && lower / 2 == Shr(chr[base + y + 8], 8 - x)
  {
    ShrStep(chr[base + y], 7 - x);
    ShrStep(chr[base + y + 8], 7 - x);
  }

  /** The colour the loop picks from the colour number and the tile's palette. */
  lemma TileColourAt(p: Ppu, nameTable: seq<u8>, i: nat, x: nat, y: nat, tileBase: nat, palette: seq<u8>, value: nat)
    requires ValidPpu(p) && |nameTable| == 0x400 && i < 0x3C0 && x < 8 && y < 8
    requires tileBase == TileBase(BackgroundPatternAddr(p.ctrl), nameTable[i])
    requires palette == BgPalette(p.paletteTable, nameTable[0x3C0..0x400], i % 32, i / 32)
    requires value == TilePixel(p.chrRom, tileBase, x, y)
    ensures TileColour(p, nameTable, i, x, y) == if value == 0 then p.paletteTable[0] else palette[value]
  {
  }

  /** The colour the loop picks for column x of row y of tile i is the colour
      of that picture pixel. */
  lemma BackgroundPixelAt(p: Ppu, nameTable: seq<u8>, i: nat, x: nat, y: nat, px: int, py: int)
    requires ValidPpu(p) && |nameTable| == 0x400 && i < 0x3C0 && x < 8 && y < 8
    requires px == (i % 32) * 8 + x && py == (i / 32) * 8 + y
    ensures 0 <= px < WIDTH && 0 <= py < HEIGHT
    ensures BackgroundColour(p, nameTable, px, py) == TileColour(p, nameTable, i, x, y)
  {
    PixelOfTile(i, x, y, px, py);
  }

  /** Column x of row y of tile i is picture pixel (px, py). */
  lemma PixelOfTile(i: nat, x: nat, y: nat, px: int, py: int)
    requires i < 0x3C0 && x < 8 && y < 8
    requires px == (i % 32) * 8 + x && py == (i / 32) * 8 + y
    ensures 0 <= px < WIDTH && 0 <= py < HEIGHT
    ensures (py / 8) * 32 + px / 8 == i && px % 8 == x && py % 8 == y
  {
    assert px / 8 == i % 32 && px % 8 == x;
    assert py / 8 == i / 32 && py % 8 == y;
  }

  // ---------------------------------------------------------------------
  // Sprites

  /** Bit 7 of the attribute byte, `>> 7 & 1`: the sprite is flipped vertically. */
  function FlipVertical(attr: u8): bool
  {
    Shr(attr, 7) % 2 == 1
  }

  /** Bit 6 of the attribute byte, `>> 6 & 1`: the sprite is flipped horizontally. */
  function FlipHorizontal(attr: u8): bool
  {
    Shr(attr, 6) % 2 == 1
  }

  lemma FlipBits(attr: u8)
    ensures FlipVertical(attr) <==> BitOf(attr, 7)
    ensures FlipHorizontal(attr) <==> BitOf(attr, 6)
  {
    BitOfShr(attr, 7);
    BitOfShr(attr, 6);
  }

  /** The palette of sprite n: the low two bits of its attribute byte. */
  function SpritePaletteOf(p: Ppu, n: nat): (r: seq<u8>)
    requires ValidPpu(p) && n < 64
    ensures |r| == 4 && forall k :: 1 <= k < 4 ==> r[k] < 64
  {
    var attr := p.oamData[4 * n + 2];
    AndLowBits(attr);
    SpritePalette(p.paletteTable, And(attr, 0x03))
  }

  /** The first byte of the pattern of sprite n. */
  function SpriteTile(p: Ppu, n: nat): nat
    requires ValidPpu(p) && n < 64
  {
    TileBase(SpritePatternAddr(p.ctrl), p.oamData[4 * n + 1])
  }

  /** The pixel of its tile that sprite n shows at frame pixel (fx, fy), if
      its 8x8 box covers it: OAM bytes 0 and 3 place the box, and the flips
      mirror the tile inside it. */
  function SpriteCoords(p: Ppu, n: nat, fx: int, fy: int): (r: Option<(nat, nat)>)
    requires ValidPpu(p) && n < 64
    ensures r.Some? ==> r.value.0 < 8 && r.value.1 < 8
  {
    var attr := p.oamData[4 * n + 2];
    var dx := fx - p.oamData[4 * n + 3];
    var dy := fy - p.oamData[4 * n];
    if 0 <= dx < 8 && 0 <= dy < 8 then
      Some((if FlipHorizontal(attr) then 7 - dx else dx, if FlipVertical(attr) then 7 - dy else dy))
    else None
  }

  /** The colour sprite n paints at frame pixel (fx, fy); `None` off the
      sprite and where its colour number is 0 (transparent). */
  function SpritePixel(p: Ppu, n: nat, fx: int, fy: int): Option<Colour>
    requires ValidPpu(p) && n < 64
  {
    match SpriteCoords(p, n, fx, fy)
    case None => None
    case Some((x, y)) =>
      var value := TilePixel(p.chrRom, SpriteTile(p, n), x, y);
      if value == 0 then None else Some(SpritePaletteOf(p, n)[value] as Colour)
  }

  /** The colour that sprites n to 63 leave at frame pixel (fx, fy): the one of
      the lowest-numbered sprite that is opaque there, since the sprites are
      drawn from the last to the first. */
  function TopSprite(p: Ppu, n: nat, fx: int, fy: int): Option<Colour>
    requires ValidPpu(p) && n <= 64
    decreases 64 - n
  {
    if n == 64 then None
    else if SpritePixel(p, n, fx, fy).Some? then SpritePixel(p, n, fx, fy)
    else TopSprite(p, n + 1, fx, fy)
  }

  /** The step at which the loops of a sprite reach pixel (x, y) of its tile:
      row by row, from column 7 down to column 0. */
  function SpriteOrder(c: (nat, nat)): int
  {
    c.1 * 8 + 7 - c.0
  }

  /** Whether one of the steps `lo` to `hi - 1` of sprite n paints frame pixel (fx, fy). */
  predicate SpriteDrawn(p: Ppu, n: nat, fx: int, fy: int, lo: int, hi: int)
    requires ValidPpu(p) && n < 64
  {
    SpritePixel(p, n, fx, fy).Some? && lo <= SpriteOrder(SpriteCoords(p, n, fx, fy).value) < hi
  }

  /** Sprite n after its steps `lo` to `hi - 1`, starting from `before`. */
  function SpriteSteps(p: Ppu, n: nat, fx: int, fy: int, lo: int, hi: int, before: Colour): Colour
    requires ValidPpu(p) && n < 64
  {
    if SpriteDrawn(p, n, fx, fy, lo, hi) then SpritePixel(p, n, fx, fy).value else before
  }

  /** The frame pixel at which sprite n shows pixel (x, y) of its tile. */
  function SpriteTarget(p: Ppu, n: nat, x: nat, y: nat): (int, int)
    requires ValidPpu(p) && n < 64
  {
    var attr := p.oamData[4 * n + 2];
    var tileX := p.oamData[4 * n + 3];
    var tileY := p.oamData[4 * n];
    match (FlipHorizontal(attr), FlipVertical(attr))
    case (false, false) => (tileX + x, tileY + y)
    case (true, false) => (tileX + 7 - x, tileY + y)
    case (false, true) => (tileX + x, tileY + 7 - y)
    case (true, true) => (tileX + 7 - x, tileY + 7 - y)
  }

  /** A frame pixel shows pixel (x, y) of the sprite's tile exactly when it is
      where the sprite puts that pixel: the flips are their own inverses. */
  lemma SpriteTargetCoords(p: Ppu, n: nat, x: nat, y: nat, fx: int, fy: int)
    requires ValidPpu(p) && n < 64 && x < 8 && y < 8
    ensures SpriteCoords(p, n, fx, fy) == Some((x, y)) <==> (fx, fy) == SpriteTarget(p, n, x, y)
  {
  }

  /** The inner loops of the sprite pass of `render` for sprite n. */
  method DrawSprite(p: Ppu, frame: Frame, n: nat)
    requires ValidPpu(p) && frame.Valid() && n < 64
    modifies frame.pixels
    ensures forall fx, fy | 0 <= fx < WIDTH && 0 <= fy < HEIGHT ::
      frame.pixels[fx, fy] == Paint(SpritePixel(p, n, fx, fy), old(frame.pixels[fx, fy]))
  {
    var y := 0;
    while y < 8
      invariant 0 <= y <= 8
      invariant forall fx, fy | 0 <= fx < WIDTH && 0 <= fy < HEIGHT ::
        frame.pixels[fx, fy] == SpriteSteps(p, n, fx, fy, 0, y * 8, old(frame.pixels[fx, fy]))
    {
      DrawSpriteRow(p, frame, n, y);
      y := y + 1;
    }
    forall fx, fy | 0 <= fx < WIDTH && 0 <= fy < HEIGHT
      ensures frame.pixels[fx, fy] == Paint(SpritePixel(p, n, fx, fy), old(frame.pixels[fx, fy]))
    {
    }
  }

  /** Row y of sprite n: the plane bytes shifted right once per column, from
      column 7 down to column 0; steps `y * 8` to `y * 8 + 7`. */
  method DrawSpriteRow(p: Ppu, frame: Frame, n: nat, y: nat)
    requires ValidPpu(p) && frame.Valid() && n < 64 && y < 8
    modifies frame.pixels
    ensures forall fx, fy | 0 <= fx < WIDTH && 0 <= fy < HEIGHT ::
      frame.pixels[fx, fy] == SpriteSteps(p, n, fx, fy, y * 8, y * 8 + 8, old(frame.pixels[fx, fy]))
  {
    var tileBase := SpriteTile(p, n);
    var palette := SpritePaletteOf(p, n);
    var upper: nat := p.chrRom[tileBase + y];
    var lower: nat := p.chrRom[tileBase + y + 8];
    var x := 8;
    while x > 0
      invariant 0 <= x <= 8
      invariant upper == Shr(p.chrRom[tileBase + y], 8 - x) && lower == Shr(p.chrRom[tileBase + y + 8], 8 - x)
      invariant forall fx, fy | 0 <= fx < WIDTH && 0 <= fy < HEIGHT ::
        frame.pixels[fx, fy] == SpriteSteps(p, n, fx, fy, y * 8, y * 8 + 8 - x, old(frame.pixels[fx, fy]))
    {
      x := x - 1;
      var value := (lower % 2) * 2 + upper % 2;
      PixelValue(p.chrRom, tileBase, x, y, upper, lower);
      upper := upper / 2;
      lower := lower / 2;
      DrawSpritePixel(p, frame, n, y, x, value, palette);
    }
  }

  /** The body of the innermost sprite loop: skip colour number 0, otherwise
      paint the pixel at the flipped position. */
  method DrawSpritePixel(p: Ppu, frame: Frame, n: nat, y: nat, x: nat, value: nat, palette: seq<u8>)
    requires ValidPpu(p) && frame.Valid() && n < 64 && y < 8 && x < 8
    requires value == TilePixel(p.chrRom, SpriteTile(p, n), x, y)
    requires palette == SpritePaletteOf(p, n)
    modifies frame.pixels
    ensures var k := y * 8 + 7 - x;
      forall fx, fy | 0 <= fx < WIDTH && 0 <= fy < HEIGHT ::
        frame.pixels[fx, fy] == SpriteSteps(p, n, fx, fy, k, k + 1, old(frame.pixels[fx, fy]))
  {
    if value == 0 {
      forall fx, fy | 0 <= fx < WIDTH && 0 <= fy < HEIGHT
        ensures var k := y * 8 + 7 - x;
          frame.pixels[fx, fy] == SpriteSteps(p, n, fx, fy, k, k + 1, old(frame.pixels[fx, fy]))
      {
        SpritePixelStep(p, n, y, x, value, 0, fx, fy, frame.pixels[fx, fy], frame.pixels[fx, fy]);
      }
      return;
    }
    var rgb: Colour := palette[value];
    var (targetX, targetY) := SpriteTarget(p, n, x, y);
    frame.SetPixel(targetX, targetY, rgb);
    forall fx, fy | 0 <= fx < WIDTH && 0 <= fy < HEIGHT
      ensures var k := y * 8 + 7 - x;
        frame.pixels[fx, fy] == SpriteSteps(p, n, fx, fy, k, k + 1, old(frame.pixels[fx, fy]))
    {
      SpritePixelStep(p, n, y, x, value, rgb, fx, fy, old(frame.pixels[fx, fy]), frame.pixels[fx, fy]);
    }
  }

  /** One step of a sprite at one frame pixel: what the step leaves there is
      what the sprite specification says its step `k` leaves. */
  lemma SpritePixelStep(p: Ppu, n: nat, y: nat, x: nat, value: nat, rgb: Colour, fx: int, fy: int,
                        before: Colour, after: Colour)
    requires ValidPpu(p) && n < 64 && y < 8 && x < 8 && 0 <= fx < WIDTH && 0 <= fy < HEIGHT
    requires value == TilePixel(p.chrRom, SpriteTile(p, n), x, y)
    requires value != 0 ==> rgb == SpritePaletteOf(p, n)[value]
    requires after == if value != 0 && (fx, fy) == SpriteTarget(p, n, x, y) then rgb else before
    ensures var k := y * 8 + 7 - x;
      after == SpriteSteps(p, n, fx, fy, k, k + 1, before)
  {
    SpriteTargetCoords(p, n, x, y, fx, fy);
    var c := SpriteCoords(p, n, fx, fy);
    if c.Some? && SpriteOrder(c.value) == y * 8 + 7 - x {
      DigitsUnique(0, c.value.1, 7 - c.value.0, 0, y, 7 - x);
    }
  }

  /** The sprite pass of `render`: OAM entries from the last (offset 252) to
      the first (offset 0), four bytes each. */
  method RenderSprites(p: Ppu, frame: Frame)
    requires ValidPpu(p) && frame.Valid()
    modifies frame.pixels
    ensures forall fx, fy | 0 <= fx < WIDTH && 0 <= fy < HEIGHT ::
      frame.pixels[fx, fy] == Paint(TopSprite(p, 0, fx, fy), old(frame.pixels[fx, fy]))
  {
    var i := |p.oamData|;
    while i > 0
      invariant 0 <= i <= 256 && i % 4 == 0
      invariant forall fx, fy | 0 <= fx < WIDTH && 0 <= fy < HEIGHT ::
        frame.pixels[fx, fy] == Paint(TopSprite(p, i / 4, fx, fy), old(frame.pixels[fx, fy]))
    {
      i := i - 4;
      DrawSprite(p, frame, i / 4);
    }
  }

  // ---------------------------------------------------------------------
  // The frame

  /** Where `render` panics: a mirroring without two nametables, and the
      unsigned subtraction `240 - scroll_y` with a vertical scroll past 240. */
  datatype RenderFault = UnsupportedMirroring | ScrollUnderflow

  predicate Supported(p: Ppu)
  {
    Nametables(p.mirroring, NametableAddr(p.ctrl)).Some?
  }

  function MainNametable(p: Ppu): (r: seq<u8>)
    requires ValidPpu(p) && Supported(p)
    ensures |r| == 0x400
  {
    var offset := Nametables(p.mirroring, NametableAddr(p.ctrl)).value.0;
    p.vram[offset..offset + 0x400]
  }

  function SecondNametable(p: Ppu): (r: seq<u8>)
    requires ValidPpu(p) && Supported(p)
    ensures |r| == 0x400
  {
    var offset := Nametables(p.mirroring, NametableAddr(p.ctrl)).value.1;
    p.vram[offset..offset + 0x400]
  }

  /** The main nametable moved left by the horizontal and up by the vertical scroll. */
  function MainPassPixel(p: Ppu, fx: int, fy: int, before: Colour): Colour
    requires ValidPpu(p) && Supported(p)
  {
    PassPixel(p, MainNametable(p), Rect(p.scrollX, p.scrollY, WIDTH, HEIGHT), -(p.scrollX as int), -(p.scrollY as int), fx, fy, before)
  }

  /** The frame after both background passes: the second nametable fills the
      strip the horizontal scroll uncovers at the right or, with no horizontal
      scroll, the strip the vertical scroll uncovers at the bottom. */
  function BackgroundPixel(p: Ppu, fx: int, fy: int, before: Colour): Colour
    requires ValidPpu(p) && Supported(p) && (p.scrollX > 0 || p.scrollY <= HEIGHT)
  {
    var main := MainPassPixel(p, fx, fy, before);
    if p.scrollX > 0 then
      PassPixel(p, SecondNametable(p), Rect(0, 0, p.scrollX, HEIGHT), WIDTH - p.scrollX, 0, fx, fy, main)
    else if p.scrollY > 0 then
      PassPixel(p, SecondNametable(p), Rect(0, 0, WIDTH, p.scrollY), 0, HEIGHT - p.scrollY, fx, fy, main)
    else main
  }

  /** The frame `render` leaves: the top opaque sprite over the background. */
  function RenderedPixel(p: Ppu, fx: int, fy: int, before: Colour): Colour
    requires ValidPpu(p) && Supported(p) && (p.scrollX > 0 || p.scrollY <= HEIGHT)
  {
    Paint(TopSprite(p, 0, fx, fy), BackgroundPixel(p, fx, fy, before))
  }

  /** `render`: both nametable passes for the scroll, then the sprites. */
  method Render(p: Ppu, frame: Frame) returns (fault: Option<RenderFault>)
    requires ValidPpu(p) && frame.Valid()
    modifies frame.pixels
    ensures fault == Some(UnsupportedMirroring) <==> p.mirroring == FourScreen
    ensures fault == Some(ScrollUnderflow) <==>
      p.mirroring != FourScreen && p.scrollX == 0 && p.scrollY > HEIGHT
    ensures fault == Some(UnsupportedMirroring) ==>
      forall fx, fy | 0 <= fx < WIDTH && 0 <= fy < HEIGHT :: frame.pixels[fx, fy] == old(frame.pixels[fx, fy])
    ensures fault == Some(ScrollUnderflow) ==> (Supported(p) &&
      forall fx, fy | 0 <= fx < WIDTH && 0 <= fy < HEIGHT ::
        frame.pixels[fx, fy] == MainPassPixel(p, fx, fy, old(frame.pixels[fx, fy])))
    ensures fault.None? ==> (Supported(p) && (p.scrollX > 0 || p.scrollY <= HEIGHT) &&
      forall fx, fy | 0 <= fx < WIDTH && 0 <= fy < HEIGHT ::
        frame.pixels[fx, fy] == RenderedPixel(p, fx, fy, old(frame.pixels[fx, fy])))
  {
    NametableSelection(p.mirroring, p.ctrl);
    var tables := Nametables(p.mirroring, NametableAddr(p.ctrl));
    if tables.None? {
      return Some(UnsupportedMirroring);
    }
    var mainNametable := p.vram[tables.value.0..tables.value.0 + 0x400];
    var secondNametable := p.vram[tables.value.1..tables.value.1 + 0x400];
    fault := RenderBackground(p, frame, mainNametable, secondNametable);
    if fault.None? {
      RenderSprites(p, frame);
    }
  }

  /** The nametable passes of `render`: the main nametable scrolled, then the
      second one into the strip the scroll uncovers. */
  method RenderBackground(p: Ppu, frame: Frame, mainNametable: seq<u8>, secondNametable: seq<u8>)
    returns (fault: Option<RenderFault>)
    requires ValidPpu(p) && frame.Valid() && Supported(p)
    requires mainNametable == MainNametable(p) && secondNametable == SecondNametable(p)
    modifies frame.pixels
    ensures fault == None || fault == Some(ScrollUnderflow)
    ensures fault == Some(ScrollUnderflow) <==> p.scrollX == 0 && p.scrollY > HEIGHT
    ensures fault == Some(ScrollUnderflow) ==>
      forall fx, fy | 0 <= fx < WIDTH && 0 <= fy < HEIGHT ::
        frame.pixels[fx, fy] == MainPassPixel(p, fx, fy, old(frame.pixels[fx, fy]))
    ensures fault.None? ==>
      forall fx, fy | 0 <= fx < WIDTH && 0 <= fy < HEIGHT ::
        frame.pixels[fx, fy] == BackgroundPixel(p, fx, fy, old(frame.pixels[fx, fy]))
  {
    var scrollX: nat := p.scrollX;
    var scrollY: nat := p.scrollY;
    RenderNameTable(p, frame, mainNametable, Rect(scrollX, scrollY, WIDTH, HEIGHT), -(scrollX as int), -(scrollY as int));
    label mainDrawn:
    if scrollX > 0 {
      RenderNameTable(p, frame, secondNametable, Rect(0, 0, scrollX, HEIGHT), WIDTH - scrollX, 0);
    } else if scrollY > 0 {
      if scrollY > HEIGHT {
        return Some(ScrollUnderflow);
      }
      RenderNameTable(p, frame, secondNametable, Rect(0, 0, WIDTH, scrollY), 0, HEIGHT - scrollY);
    }
    forall fx, fy | 0 <= fx < WIDTH && 0 <= fy < HEIGHT
      ensures frame.pixels[fx, fy] == BackgroundPixel(p, fx, fy, old(frame.pixels[fx, fy]))
    {
      BackgroundPasses(p, mainNametable, secondNametable, scrollX, scrollY,
        fx, fy, old(frame.pixels[fx, fy]), old@mainDrawn(frame.pixels[fx, fy]), frame.pixels[fx, fy]);
    }
    fault := None;
  }

  /** The two passes of `render` make up the background the scroll selects. */
  lemma BackgroundPasses(p: Ppu, mainNametable: seq<u8>, secondNametable: seq<u8>, scrollX: int, scrollY: int,
                         fx: int, fy: int, before: Colour, mid: Colour, after: Colour)
    requires ValidPpu(p) && Supported(p) && (p.scrollX > 0 || p.scrollY <= HEIGHT)
    requires mainNametable == MainNametable(p) && secondNametable == SecondNametable(p)
    requires scrollX == p.scrollX && scrollY == p.scrollY
    requires mid == PassPixel(p, mainNametable, Rect(scrollX, scrollY, WIDTH, HEIGHT), -scrollX, -scrollY, fx, fy, before)
    requires after == if scrollX > 0 then
        PassPixel(p, secondNametable, Rect(0, 0, scrollX, HEIGHT), WIDTH - scrollX, 0, fx, fy, mid)
      else if scrollY > 0 then
        PassPixel(p, secondNametable, Rect(0, 0, WIDTH, scrollY), 0, HEIGHT - scrollY, fx, fy, mid)
      else mid
    ensures after == BackgroundPixel(p, fx, fy, before)
  {
    assert Rect(scrollX, scrollY, WIDTH, HEIGHT) == Rect(p.scrollX, p.scrollY, WIDTH, HEIGHT);
    assert mid == MainPassPixel(p, fx, fy, before);
    if scrollX > 0 {
      assert Rect(0, 0, scrollX, HEIGHT) == Rect(0, 0, p.scrollX, HEIGHT);
    } else if scrollY > 0 {
      assert Rect(0, 0, WIDTH, scrollY) == Rect(0, 0, WIDTH, p.scrollY);
    }
  }

  // ---------------------------------------------------------------------
  // What the frame shows

  /** With scroll (sx, sy) the main nametable fills the top left
      (256 - sx) x (240 - sy) of the frame, showing its pixel (fx + sx, fy + sy). */
  lemma MainPassRegion(p: Ppu, fx: int, fy: int, before: Colour)
    requires ValidPpu(p) && Supported(p) && 0 <= fx < WIDTH && 0 <= fy < HEIGHT
    ensures MainPassPixel(p, fx, fy, before) ==
      if fx + p.scrollX < WIDTH && fy + p.scrollY < HEIGHT
      then BackgroundColour(p, MainNametable(p), fx + p.scrollX, fy + p.scrollY)
      else before
  {
  }

  /** With no scroll the frame is the main nametable. */
  lemma UnscrolledBackground(p: Ppu, fx: int, fy: int, before: Colour)
    requires ValidPpu(p) && Supported(p) && 0 <= fx < WIDTH && 0 <= fy < HEIGHT
    requires p.scrollX == 0 && p.scrollY == 0
    ensures BackgroundPixel(p, fx, fy, before) == BackgroundColour(p, MainNametable(p), fx, fy)
  {
    MainPassRegion(p, fx, fy, before);
  }

  /** A horizontal scroll sx wraps into the second nametable: its first sx
      columns fill the last sx columns of the frame, unscrolled vertically. */
  lemma HorizontalScrollWraps(p: Ppu, fx: int, fy: int, before: Colour)
    requires ValidPpu(p) && Supported(p) && 0 <= fx < WIDTH && 0 <= fy < HEIGHT
    requires p.scrollX > 0
    ensures BackgroundPixel(p, fx, fy, before) ==
      if fx < WIDTH - p.scrollX then MainPassPixel(p, fx, fy, before)
      else BackgroundColour(p, SecondNametable(p), fx - (WIDTH - p.scrollX), fy)
  {
  }

  /** A vertical scroll sy (up to 240) with no horizontal scroll wraps into the
      second nametable: its first sy rows fill the last sy rows of the frame,
      and every pixel is painted. */
  lemma VerticalScrollWraps(p: Ppu, fx: int, fy: int, before: Colour)
    requires ValidPpu(p) && Supported(p) && 0 <= fx < WIDTH && 0 <= fy < HEIGHT
    requires p.scrollX == 0 && 0 < p.scrollY <= HEIGHT
    ensures BackgroundPixel(p, fx, fy, before) ==
      if fy < HEIGHT - p.scrollY then BackgroundColour(p, MainNametable(p), fx, fy + p.scrollY)
      else BackgroundColour(p, SecondNametable(p), fx, fy - (HEIGHT - p.scrollY))
  {
    MainPassRegion(p, fx, fy, before);
  }

  /** With both scrolls set, only the horizontal wrap is drawn: the bottom
      left sy rows of the first 256 - sx columns are painted by neither pass
      and keep the previous frame. */
  lemma DiagonalScrollLeavesGap(p: Ppu, fx: int, fy: int, before: Colour)
    requires ValidPpu(p) && Supported(p) && 0 <= fx < WIDTH && 0 <= fy < HEIGHT
    requires p.scrollX > 0 && p.scrollY > 0
    requires fx < WIDTH - p.scrollX && fy >= HEIGHT - p.scrollY
    ensures BackgroundPixel(p, fx, fy, before) == before
  {
    HorizontalScrollWraps(p, fx, fy, before);
    MainPassRegion(p, fx, fy, before);
  }

  /** The sprites leave the colour of the first sprite that is opaque at a
      pixel, whatever the sprites after it paint there. */
  lemma {:induction false} TopSpriteFirst(p: Ppu, n: nat, m: nat, fx: int, fy: int)
    requires ValidPpu(p) && n <= m < 64
    requires SpritePixel(p, m, fx, fy).Some?
    requires forall j :: n <= j < m ==> SpritePixel(p, j, fx, fy).None?
    ensures TopSprite(p, n, fx, fy) == SpritePixel(p, m, fx, fy)
    decreases m - n
  {
    if n < m {
      TopSpriteFirst(p, n + 1, m, fx, fy);
    }
  }

  /** The sprites leave a pixel alone exactly when none of them is opaque there. */
  lemma {:induction false} TopSpriteNone(p: Ppu, n: nat, fx: int, fy: int)
    requires ValidPpu(p) && n <= 64
    ensures TopSprite(p, n, fx, fy).None? <==> forall j :: n <= j < 64 ==> SpritePixel(p, j, fx, fy).None?
    decreases 64 - n
  {
    if n < 64 {
      TopSpriteNone(p, n + 1, fx, fy);
    }
  }
}
