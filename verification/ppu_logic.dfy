/**
 * The picture processing unit of NesEmu/PPU.cs as values and functions: the
 * PPU-side address decoder (`Memory`), the PPUCTRL getters, the register
 * handlers, the dot counter and OAM DMA. The `Ppu` class of module NesPpu is
 * proved to change its fields exactly as these functions say.
 *
 * Two details are kept as the emulator has them: the palette mirror
 * ($3F10/$3F14/$3F18/$3F1C onto $3F00/$3F04/$3F08/$3F0C) is applied when
 * writing palette RAM but not when reading it, and reading $2002 does not
 * reset the $2006 write toggle.
 */
module PpuLogic {
  import opened Bits
  import opened Mappers

  /** The storage the PPU's decoder owns: 2 KB of nametable RAM and 32 bytes of palette RAM. */
  datatype VideoRam = VideoRam(vram: seq<byte>, palette: seq<byte>)
  {
    predicate WellSized()
    {
      |vram| == 0x800 && |palette| == 0x20
    }
  }

  /** Every field the PPU updates, and the memory it owns. */
  datatype PpuState = PpuState(
    v: word,             // current VRAM address
    t: word,             // temporary VRAM address
    w: bool,             // first/second write toggle
    oam: seq<byte>,      // object attribute memory
    oamAddr: byte,
    nmiOccurred: bool,
    scanline: int,
    cycle: int,
    ctrl: byte,          // PPUCTRL ($2000)
    mem: VideoRam)
  {
    predicate WellSized()
    {
      |oam| == 0x100 && mem.WellSized()
    }

    /** The counters stay on the 262 x 341 dot grid, with -1 as the pre-render line. */
    predicate CountersInRange()
    {
      -1 <= scanline <= 261 && 0 <= cycle <= 340
    }
  }

  /** Cartridges this decoder can serve: every pattern-table address has a CHR byte. */
  predicate ChrCoversPatternTables(mapper: Mapper)
  {
    |mapper.cartridge.chr| >= 0x2000
  }

  // ----- PPUCTRL getters -----

  /** Bits 0-1 choose one of the four nametables at $2000, $2400, $2800, $2C00. */
  function BaseNameTableAddress(ctrl: byte): (r: word)
    ensures 0x2000 <= r <= 0x2C00 && r % 0x400 == 0
    ensures (r - 0x2000) / 0x400 == ctrl % 4
  {
    0x2000 + (ctrl % 4) * 0x400
  }

  /** Bit 2: the VRAM address advances by 32 (down a row) instead of 1 (across). */
  function VramIncrement(ctrl: byte): (r: byte)
    ensures r == 1 || r == 32
    ensures r == 32 <==> Bit(ctrl, 2)
  {
    if Bit(ctrl, 2) then 32 else 1
  }

  /** Bit 3: the sprite pattern table is at $1000 instead of $0000. */
  function SpritePatternTableAddress(ctrl: byte): (r: word)
    ensures r == 0 || r == 0x1000
    ensures r == 0x1000 <==> Bit(ctrl, 3)
  {
    if Bit(ctrl, 3) then 0x1000 else 0
  }

  /** Bit 4: the background pattern table is at $1000 instead of $0000. */
  function BgPatternTableAddress(ctrl: byte): (r: word)
    ensures r == 0 || r == 0x1000
    ensures r == 0x1000 <==> Bit(ctrl, 4)
  {
    if Bit(ctrl, 4) then 0x1000 else 0
  }

  /** Bit 7: raise an NMI at the start of vertical blank. */
  predicate NmiEnabled(ctrl: byte)
  {
    Bit(ctrl, 7)
  }

  // ----- The PPU-side address decoder (`PPU.Memory`) -----

  /**
   * `GetPaletteRamIndex`: the palette RAM slot a write at `addr` lands in.
   * The offset is taken modulo 32; the four sprite-palette slots at multiples
   * of 4 fold onto the background ones, every other slot stays where it is.
   * Only palette addresses ($3F00-$3FFF) reach it.
   */
  function PaletteRamIndex(addr: word): (i: nat)
    requires 0x3F00 <= addr < 0x4000
    ensures i < 0x10 || (i < 0x20 && i % 4 != 0)
    ensures (addr - 0x3F00) % 4 != 0 ==> i == (addr - 0x3F00) % 0x20
    ensures (addr - 0x3F00) % 4 == 0 ==> i == (addr - 0x3F00) % 0x10
  {
    var index := (addr - 0x3F00) % 0x20;
    PaletteOffsets(addr - 0x3F00);
    if index >= 0x10 && index % 4 == 0 then index - 0x10 else index
  }

  /** Taking a palette offset modulo 32 keeps it modulo 16 and modulo 4. */
  lemma PaletteOffsets(x: nat)
    requires x < 0x100
    ensures (x % 0x20) % 4 == x % 4
    ensures (x % 0x20) % 0x10 == x % 0x10
  {
    var k := x / 0x20;
    assert x == 0x20 * k + x % 0x20 && 0 <= k < 8;
    if k == 0 { } else if k == 1 { } else if k == 2 { } else if k == 3 { }
    else if k == 4 { } else if k == 5 { } else if k == 6 { } else { }
  }

  /**
   * `Memory.Read`: pattern tables through the mapper, nametable RAM mirrored
   * every 2 KB up to $3EFF, palette RAM mirrored every 32 bytes (without the
   * write-side fold), and 0 above $3FFF.
   */
  function MemoryRead(mapper: Mapper, mem: VideoRam, addr: word): byte
    requires mem.WellSized() && ChrCoversPatternTables(mapper)
  {
    if addr < 0x2000 then ReadChr(mapper, addr)
    else if addr < 0x3F00 then mem.vram[(addr - 0x2000) % 0x800]
    else if addr < 0x4000 then mem.palette[(addr - 0x3F00) % 0x20]
    else 0
  }

  /**
   * `Memory.Write`: pattern-table writes are dropped (CHR RAM is not
   * written), nametable RAM as for reads, palette RAM through
   * `PaletteRamIndex`, and nothing above $3FFF.
   */
  function MemoryWrite(mem: VideoRam, addr: word, data: byte): (r: VideoRam)
    requires mem.WellSized()
    ensures r.WellSized()
  {
    if addr < 0x2000 then mem
    else if addr < 0x3F00 then mem.(vram := mem.vram[(addr - 0x2000) % 0x800 := data])
    else if addr < 0x4000 then mem.(palette := mem.palette[PaletteRamIndex(addr) := data])
    else mem
  }

  // ----- Palette lookups -----

  /**
   * `LookupBGColor`'s address: colour 0 of every palette is the shared
   * backdrop at $3F00; colour c (1-3) of background palette p (bits 2-3) is
   * at $3F00 + 4p + c.
   */
  function BgColorAddress(data: byte): (a: word)
    ensures 0x3F00 <= a < 0x3F10
    ensures a % 4 == data % 4
    ensures data % 4 != 0 ==> (a - 0x3F00) / 4 == (data / 4) % 4
  {
    var colorNum := data % 4;
    var paletteNum := (data / 4) % 4;
    if colorNum == 0 then 0x3F00 else 0x3F01 + 4 * paletteNum + colorNum - 1
  }

  /** `LookupSpriteColor`'s address: as for backgrounds, in the sprite palettes from $3F10. */
  function SpriteColorAddress(data: byte): (a: word)
    ensures data % 4 == 0 ==> a == 0x3F00
    ensures data % 4 != 0 ==> 0x3F10 <= a < 0x3F20 && a % 4 == data % 4
    ensures data % 4 != 0 ==> (a - 0x3F10) / 4 == (data / 4) % 4
  {
    var colorNum := data % 4;
    var paletteNum := (data / 4) % 4;
    if colorNum == 0 then 0x3F00 else 0x3F11 + 4 * paletteNum + colorNum - 1
  }

  // ----- The dot counter (`Step`) -----

  /** One dot: the cycle advances, and past dot 340 the scanline does, wrapping from 261 to 0. */
  function Tick(scanline: int, cycle: int): (int, int)
  {
    if cycle + 1 > 340 then
      (if scanline + 1 == 262 then 0 else scanline + 1, 0)
    else
      (scanline, cycle + 1)
  }

  /**
   * `Step`: on entering dot 1 of scanline 241 the PPU flags vertical blank
   * and, when PPUCTRL enables it, raises the CPU's NMI request; then the
   * counters advance. The second component is the CPU's `NMIInterrupt`.
   */
  function Step(s: PpuState, cpuNmi: bool): (PpuState, bool)
  {
    var vblank := s.scanline == 241 && s.cycle == 1;
    var next := Tick(s.scanline, s.cycle);
    (s.(nmiOccurred := s.nmiOccurred || vblank, scanline := next.0, cycle := next.1),
     cpuNmi || (vblank && NmiEnabled(s.ctrl)))
  }

  // ----- Register handlers (`Read`, `Write`) -----

  /** The $2006 handler: the high byte first, then the low byte, which also loads `v`. */
  function AddressLatch(s: PpuState, data: byte): PpuState
  {
    var t: word := if s.w then s.t - s.t % 0x100 + data else s.t % 0x100 + data * 0x100;
    s.(t := t, v := if s.w then t else s.v, w := !s.w)
  }

  /**
   * `Read`: $2002 reports vertical blank in bit 7 and clears it; $2007 reads
   * PPU memory at `v` and advances `v`; every other register reads as 0.
   */
  function ReadRegister(mapper: Mapper, s: PpuState, addr: word): (PpuState, byte)
    requires s.WellSized() && ChrCoversPatternTables(mapper)
  {
    if addr == 0x2002 then
      (s.(nmiOccurred := false), if s.nmiOccurred then 0x80 else 0)
    else if addr == 0x2007 then
      (s.(v := ToWord(s.v + VramIncrement(s.ctrl))), MemoryRead(mapper, s.mem, s.v))
    else
      (s, 0)
  }

  /**
   * `Write`: $2000 sets PPUCTRL, $2003 the OAM address, $2004 writes OAM and
   * advances the OAM address, $2006 feeds the address latch, $2007 writes PPU
   * memory at `v` and advances `v`; other registers are ignored.
   */
  function WriteRegister(s: PpuState, addr: word, data: byte): (r: PpuState)
    requires s.WellSized()
    ensures r.WellSized()
  {
    if addr == 0x2000 then s.(ctrl := data)
    else if addr == 0x2003 then s.(oamAddr := data)
    else if addr == 0x2004 then s.(oam := s.oam[s.oamAddr := data], oamAddr := ToByte(s.oamAddr + 1))
    else if addr == 0x2006 then AddressLatch(s, data)
    else if addr == 0x2007 then
      s.(mem := MemoryWrite(s.mem, s.v, data), v := ToWord(s.v + VramIncrement(s.ctrl)))
    else s
  }

  // ----- OAM DMA -----

  /**
   * The OAM after `WriteOAMDMA(page)`: the 256 bytes of CPU page `page`, the
   * first landing at the OAM address and the rest following it round the
   * 256-byte OAM. `read` is the CPU bus as seen during the copy.
   */
  function DmaOam(oamAddr: byte, page: byte, read: word -> byte): (oam: seq<byte>)
    ensures |oam| == 0x100
    ensures forall i :: 0 <= i < 0x100 ==> oam[OamSlot(oamAddr, i)] == read(PageAddress(page, i))
  {
    var r := seq(0x100, k requires 0 <= k < 0x100 => read(PageAddress(page, DmaIndex(oamAddr, k))));
    forall i | 0 <= i < 0x100
      ensures r[OamSlot(oamAddr, i)] == read(PageAddress(page, i))
    {
      DmaSlot(oamAddr, i);
    }
    r
  }

  /** The OAM slot the `i`th byte of a DMA lands in. */
  function OamSlot(oamAddr: byte, i: nat): byte
  {
    (oamAddr + i) % 0x100
  }

  /** Byte `i` of CPU page `page` (`(ushort)((page << 8) + i)`, never wrapping for i < 256). */
  function PageAddress(page: byte, i: nat): word
    requires i < 0x100
  {
    page * 0x100 + i
  }

  /** Which byte of the page OAM slot `k` receives: the inverse of `OamSlot`. */
  function DmaIndex(oamAddr: byte, k: nat): byte
  {
    (k - oamAddr) % 0x100
  }

  /** `OamSlot` and `DmaIndex` are inverse bijections on 0..255. */
  lemma DmaSlot(oamAddr: byte, i: nat)
    requires i < 0x100
    ensures DmaIndex(oamAddr, OamSlot(oamAddr, i)) == i
    ensures OamSlot(oamAddr, DmaIndex(oamAddr, i)) == i
  {
    if oamAddr + i >= 0x100 {
      assert OamSlot(oamAddr, i) == oamAddr + i - 0x100;
    }
    if i < oamAddr {
      assert DmaIndex(oamAddr, i) == i - oamAddr + 0x100;
    }
  }
}
