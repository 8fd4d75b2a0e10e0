/** What the PPU's decoder, registers and dot counter promise. */
module PpuProperties {
  import opened Bits
  import opened Mappers
  import opened PpuLogic

  // ----- PPU memory -----

  /**
   * Nametable RAM: a write anywhere in $2000-$3EFF is read back at exactly
   * those addresses of that range that agree with it modulo 2 KB.
   */
  lemma NametableAliasing(mapper: Mapper, mem: VideoRam, a: word, b: word, data: byte)
    requires mem.WellSized() && ChrCoversPatternTables(mapper)
    requires 0x2000 <= a < 0x3F00 && 0x2000 <= b < 0x3F00
    ensures MemoryRead(mapper, MemoryWrite(mem, a, data), b)
         == if (a - 0x2000) % 0x800 == (b - 0x2000) % 0x800 then data else MemoryRead(mapper, mem, b)
  {
  }

  /**
   * The decoder ignores the cartridge's mirroring: under horizontal mirroring
   * `ConvertVramAddress` sends $2000 and $2400 to the same address, yet a
   * write to $2000 is not seen at $2400, because both fold modulo 2 KB to
   * different cells.
   */
  lemma MirroringNotApplied(mapper: Mapper, mem: VideoRam, data: byte)
    requires mem.WellSized() && ChrCoversPatternTables(mapper)
    ensures ConvertVramAddress(mapper, 0x2000) == ConvertVramAddress(mapper, 0x2400)
        <==> !mapper.cartridge.VerticalMirroring()
    ensures MemoryRead(mapper, MemoryWrite(mem, 0x2000, data), 0x2400) == MemoryRead(mapper, mem, 0x2400)
  {
    NametableAliasing(mapper, mem, 0x2000, 0x2400, data);
  }

  /** Writes below $2000 (CHR) and above $3FFF change nothing. */
  lemma IgnoredWrites(mem: VideoRam, addr: word, data: byte)
    requires mem.WellSized() && (addr < 0x2000 || addr >= 0x4000)
    ensures MemoryWrite(mem, addr, data) == mem
  {
  }

  /**
   * The palette mirror works on writes only: a write to $3F10, $3F14, $3F18
   * or $3F1C is read back at $3F00, $3F04, $3F08 or $3F0C, while a read of
   * the address written still sees the old byte.
   */
  lemma PaletteMirrorOnWriteOnly(mapper: Mapper, mem: VideoRam, k: nat, data: byte)
    requires mem.WellSized() && ChrCoversPatternTables(mapper) && k < 4
    ensures MemoryRead(mapper, MemoryWrite(mem, 0x3F10 + 4 * k, data), 0x3F00 + 4 * k) == data
    ensures MemoryRead(mapper, MemoryWrite(mem, 0x3F10 + 4 * k, data), 0x3F10 + 4 * k)
         == MemoryRead(mapper, mem, 0x3F10 + 4 * k)
  {
  }

  /** Every other palette address is written where it is read, modulo the 32-byte mirror. */
  lemma PaletteRoundTrip(mapper: Mapper, mem: VideoRam, addr: word, data: byte)
    requires mem.WellSized() && ChrCoversPatternTables(mapper)
    requires 0x3F00 <= addr < 0x4000 && ((addr - 0x3F00) % 0x20 < 0x10 || addr % 4 != 0)
    ensures MemoryRead(mapper, MemoryWrite(mem, addr, data), addr) == data
  {
  }

  /** A sprite's colour entry can be written and read back through the same lookup address. */
  lemma SpriteColorRoundTrip(mapper: Mapper, mem: VideoRam, pixel: byte, data: byte)
    requires mem.WellSized() && ChrCoversPatternTables(mapper)
    ensures var a := SpriteColorAddress(pixel);
      MemoryRead(mapper, MemoryWrite(mem, a, data), a) == data
  {
    var a := SpriteColorAddress(pixel);
    PaletteRoundTrip(mapper, mem, a, data);
  }

  /** A background pixel's colour is palette RAM entry 4p + c, or the backdrop entry 0 for colour 0. */
  lemma BgColorEntry(mapper: Mapper, mem: VideoRam, pixel: byte)
    requires mem.WellSized() && ChrCoversPatternTables(mapper)
    ensures MemoryRead(mapper, mem, BgColorAddress(pixel))
         == mem.palette[if pixel % 4 == 0 then 0 else 4 * ((pixel / 4) % 4) + pixel % 4]
  {
  }

  // ----- PPUCTRL -----

  /** `ctrl & 3` picks the base nametable, as the emulator's getter writes it. */
  lemma NameTableMask(ctrl: byte)
    ensures BaseNameTableAddress(ctrl) == 0x2000 + And(ctrl, 3) * 0x400
  {
    LowTwoBits(ctrl);
  }

  /** `x & 3` is the low two bits. */
  lemma LowTwoBits(x: byte)
    ensures And(x, 3) == x % 4
  {
    var b := x as bv8;
    assert b & 3 == b % 4;
    assert (b % 4) as int == x % 4;
  }

  /**
   * The single-bit getters agree with the emulator's `((ctrl >> k) & 1)`
   * tests, for k = 2, 3, 4 and 7.
   */
  lemma ControlBitMasks(ctrl: byte)
    ensures VramIncrement(ctrl) == (if And(ctrl / 4, 1) == 0 then 1 else 32)
    ensures SpritePatternTableAddress(ctrl) == (if And(ctrl / 8, 1) == 0 then 0 else 0x1000)
    ensures BgPatternTableAddress(ctrl) == (if And(ctrl / 0x10, 1) == 0 then 0 else 0x1000)
    ensures NmiEnabled(ctrl) <==> And(ctrl / 0x80, 1) == 1
  {
    LowBit(ctrl / 4);
    LowBit(ctrl / 8);
    LowBit(ctrl / 0x10);
    LowBit(ctrl / 0x80);
  }

  /** `x & 1` is the low bit. */
  lemma LowBit(x: byte)
    ensures And(x, 1) == x % 2
  {
    var b := x as bv8;
    assert b & 1 == b % 2;
    assert (b % 2) as int == x % 2;
  }

  // ----- Registers -----

  /**
   * $2006 twice, starting with the toggle clear: the high byte then the low
   * byte leave `t` and `v` both at hi * 256 + lo and the toggle clear again;
   * nothing else changes.
   */
  lemma AddressLatchPair(s: PpuState, hi: byte, lo: byte)
    requires s.WellSized() && !s.w
    ensures var s2 := WriteRegister(WriteRegister(s, 0x2006, hi), 0x2006, lo);
      s2 == s.(t := hi * 0x100 + lo, v := hi * 0x100 + lo)
  {
    var s1 := WriteRegister(s, 0x2006, hi);
    assert s1.t == s.t % 0x100 + hi * 0x100;
    assert s1.t - s1.t % 0x100 == hi * 0x100;
  }

  /**
   * $2002: the first read reports vertical blank in bit 7 and clears it, so a
   * second read gives 0. The $2006 toggle is left alone.
   */
  lemma StatusReadClears(mapper: Mapper, s: PpuState)
    requires s.WellSized() && ChrCoversPatternTables(mapper)
    ensures var (s1, first) := ReadRegister(mapper, s, 0x2002);
      var (s2, second) := ReadRegister(mapper, s1, 0x2002);
      && first == (if s.nmiOccurred then 0x80 else 0)
      && second == 0
      && s1.w == s2.w == s.w
      && s2 == s.(nmiOccurred := false)
  {
  }

  /**
   * $2007 reads and writes PPU memory at `v`, then advance `v` by 1, or by
   * 32 when PPUCTRL bit 2 is set, wrapping at 2^16.
   */
  lemma DataPort(mapper: Mapper, s: PpuState, data: byte)
    requires s.WellSized() && ChrCoversPatternTables(mapper)
    ensures var step := if Bit(s.ctrl, 2) then 32 else 1;
      var (r, value) := ReadRegister(mapper, s, 0x2007);
      && value == MemoryRead(mapper, s.mem, s.v)
      && r == s.(v := (s.v + step) % 0x1_0000)
      && WriteRegister(s, 0x2007, data)
         == s.(mem := MemoryWrite(s.mem, s.v, data), v := (s.v + step) % 0x1_0000)
  {
  }

  /** $2004 stores at the OAM address and moves it on by one, wrapping at 256. */
  lemma OamPort(s: PpuState, data: byte)
    requires s.WellSized()
    ensures var r := WriteRegister(s, 0x2004, data);
      && r.oam[s.oamAddr] == data
      && (forall i :: 0 <= i < 0x100 && i != s.oamAddr ==> r.oam[i] == s.oam[i])
      && r.oamAddr == (s.oamAddr + 1) % 0x100
      && r == s.(oam := r.oam, oamAddr := r.oamAddr)
  {
  }

  /** Writes to the registers the emulator does not handle change nothing; reads of them give 0. */
  lemma UnhandledRegisters(mapper: Mapper, s: PpuState, addr: word, data: byte)
    requires s.WellSized() && ChrCoversPatternTables(mapper)
    requires addr !in {0x2000, 0x2003, 0x2004, 0x2006, 0x2007}
    ensures WriteRegister(s, addr, data) == s
    ensures addr != 0x2002 ==> ReadRegister(mapper, s, addr) == (s, 0)
  {
  }

  // ----- Dot counter -----

  /** The number of dots in a frame: 262 scanlines of 341 dots. */
  const FrameDots: nat := 262 * 341

  /** A dot's position in the frame. */
  function DotIndex(scanline: int, cycle: int): int
  {
    scanline * 341 + cycle
  }

  /** `n` dots of the counter alone. */
  function TickN(scanline: int, cycle: int, n: nat): (int, int)
    decreases n
  {
    if n == 0 then (scanline, cycle)
    else
      var next := Tick(scanline, cycle);
      TickN(next.0, next.1, n - 1)
  }

  /**
   * `Step` keeps the counters on the grid: 0 to 340 for the dot and -1 to
   * 261 for the scanline; leaving dot 340 moves to dot 0 of the next line,
   * and line 261 is followed by line 0.
   */
  lemma StepKeepsCounters(s: PpuState, cpuNmi: bool)
    requires s.CountersInRange()
    ensures Step(s, cpuNmi).0.CountersInRange()
    ensures s.cycle < 340 ==> Step(s, cpuNmi).0.scanline == s.scanline && Step(s, cpuNmi).0.cycle == s.cycle + 1
    ensures s.cycle == 340 ==>
      (Step(s, cpuNmi).0.cycle == 0
       && Step(s, cpuNmi).0.scanline == (if s.scanline == 261 then 0 else s.scanline + 1))
  {
  }

  /**
   * Vertical blank: `Step` sets `nmiOccurred` when entered at scanline 241,
   * dot 1, and raises the CPU's NMI request there exactly when PPUCTRL bit 7
   * is set. At every other dot neither flag changes.
   */
  lemma StepVerticalBlank(s: PpuState, cpuNmi: bool)
    ensures var (r, nmi) := Step(s, cpuNmi);
      && (s.scanline == 241 && s.cycle == 1 ==> r.nmiOccurred && (nmi <==> cpuNmi || Bit(s.ctrl, 7)))
      && (!(s.scanline == 241 && s.cycle == 1) ==> r.nmiOccurred == s.nmiOccurred && nmi == cpuNmi)
      && r == s.(nmiOccurred := r.nmiOccurred, scanline := r.scanline, cycle := r.cycle)
  {
  }

  /** A counter position on the visible grid: scanline 0 to 261, dot 0 to 340. */
  predicate OnGrid(p: (int, int))
  {
    0 <= p.0 <= 261 && 0 <= p.1 <= 340
  }

  /** The frame position `x`, at most one frame past the end, brought back into the frame. */
  function Wrap(x: int): int
  {
    if x < FrameDots then x else x - FrameDots
  }

  /** Distinct grid positions have distinct frame positions. */
  lemma DotIndexInjective(p: (int, int), q: (int, int))
    requires OnGrid(p) && OnGrid(q) && DotIndex(p.0, p.1) == DotIndex(q.0, q.1)
    ensures p == q
  {
    assert p.0 < q.0 ==> p.0 * 341 + 340 < q.0 * 341;
    assert q.0 < p.0 ==> q.0 * 341 + 340 < p.0 * 341;
  }

  /** On the visible grid, one dot moves the frame position on by one, from the last dot back to 0. */
  lemma TickAdvances(scanline: int, cycle: int)
    requires OnGrid((scanline, cycle))
    ensures OnGrid(Tick(scanline, cycle))
    ensures DotIndex(Tick(scanline, cycle).0, Tick(scanline, cycle).1)
         == if DotIndex(scanline, cycle) + 1 < FrameDots then DotIndex(scanline, cycle) + 1 else 0
  {
  }

  /** After `n` dots, at most a frame, the frame position has moved on by `n`, wrapping at most once. */
  lemma {:induction false} TickNAdvances(scanline: int, cycle: int, n: nat)
    requires OnGrid((scanline, cycle)) && n <= FrameDots
    ensures OnGrid(TickN(scanline, cycle, n))
    ensures DotIndex(TickN(scanline, cycle, n).0, TickN(scanline, cycle, n).1)
         == Wrap(DotIndex(scanline, cycle) + n)
    decreases n
  {
    if n > 0 {
      var next := Tick(scanline, cycle);
      TickAdvances(scanline, cycle);
      TickNAdvances(next.0, next.1, n - 1);
      assert TickN(scanline, cycle, n) == TickN(next.0, next.1, n - 1);
    }
  }

  /** The counter is periodic: after one frame of 262 x 341 dots it is back where it started. */
  lemma FramePeriod(scanline: int, cycle: int)
    requires OnGrid((scanline, cycle))
    ensures TickN(scanline, cycle, FrameDots) == (scanline, cycle)
  {
    TickNAdvances(scanline, cycle, FrameDots);
    DotIndexInjective(TickN(scanline, cycle, FrameDots), (scanline, cycle));
  }

  /** OAM DMA places byte i of the page at slot OAMAddr + i, wrapping round OAM. */
  lemma DmaPlacement(s: PpuState, page: byte, read: word -> byte, i: nat)
    requires i < 0x100
    ensures var oam := DmaOam(s.oamAddr, page, read);
      oam[(s.oamAddr + i) % 0x100] == read(page * 0x100 + i)
  {
    assert OamSlot(s.oamAddr, i) == (s.oamAddr + i) % 0x100;
    assert PageAddress(page, i) == page * 0x100 + i;
  }
}
