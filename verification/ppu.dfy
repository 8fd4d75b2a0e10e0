/**
 * The PPU of NesEmu/PPU.cs as the emulator holds it: objects whose fields and
 * arrays are updated in place. Each method is proved to leave the object in
 * the state the matching function of module PpuLogic computes.
 */
module NesPpu {
  import opened Bits
  import opened Mappers
  import opened PpuLogic
  import NesCpu

  /** The nested `PPU.Memory`: the mapper plus nametable and palette RAM. */
  class PpuMemory {
    const mapper: Mapper
    const vram: array<byte>
    const paletteRam: array<byte>

    predicate Valid()
      reads this
    {
      vram.Length == 0x800 && paletteRam.Length == 0x20 && vram != paletteRam
      && ChrCoversPatternTables(mapper)
    }

    function Contents(): (r: VideoRam)
      reads this, vram, paletteRam
      requires Valid()
      ensures r.WellSized()
    {
      VideoRam(vram[..], paletteRam[..])
    }

    /** A decoder for a cartridge with at least 8 KB of CHR; both RAMs start zeroed. */
    constructor (mapper: Mapper)
      requires ChrCoversPatternTables(mapper)
      ensures Valid() && fresh(vram) && fresh(paletteRam) && this.mapper == mapper
      ensures Contents() == VideoRam(seq(0x800, _ => 0), seq(0x20, _ => 0))
    {
      this.mapper := mapper;
      vram := new byte[0x800](_ => 0);
      paletteRam := new byte[0x20](_ => 0);
    }

    /** `Read`: changes nothing and answers what `MemoryRead` says. */
    method Read(addr: word) returns (r: byte)
      requires Valid()
      ensures r == MemoryRead(mapper, Contents(), addr)
    {
      if addr < 0x2000 {
        r := ReadChr(mapper, addr);
      } else if addr < 0x3F00 {
        r := vram[(addr - 0x2000) % 0x800];
      } else if addr < 0x4000 {
        r := paletteRam[(addr - 0x3F00) % 0x20];
      } else {
        r := 0;
      }
    }

    /** `Write`: updates the one RAM cell `MemoryWrite` names, if any. */
    method Write(addr: word, data: byte)
      requires Valid()
      modifies vram, paletteRam
      ensures Contents() == MemoryWrite(old(Contents()), addr, data)
    {
      if addr < 0x2000 {
        // CHR RAM is not written
      } else if addr < 0x3F00 {
        vram[(addr - 0x2000) % 0x800] := data;
      } else if addr < 0x4000 {
        paletteRam[PaletteRamIndex(addr)] := data;
      }
    }
  }

  class Ppu {
    const memory: PpuMemory
    const oam: array<byte>
    var v: word
    var t: word
    var w: bool
    var oamAddr: byte
    var nmiOccurred: bool
    var scanline: int
    var cycle: int
    var ppuCtrl: byte

    /** The arrays are distinct and the dot counter is on the grid. */
    predicate Valid()
      reads this, memory
    {
      memory.Valid() && oam.Length == 0x100
      && oam != memory.vram && oam != memory.paletteRam
      && -1 <= scanline <= 261 && 0 <= cycle <= 340
    }

    /** The abstract state these fields and arrays hold. */
    function State(): (s: PpuState)
      reads this, memory, oam, memory.vram, memory.paletteRam
      requires Valid()
      ensures s.WellSized() && s.CountersInRange()
    {
      PpuState(v, t, w, oam[..], oamAddr, nmiOccurred, scanline, cycle, ppuCtrl, memory.Contents())
    }

    /** A new PPU: on the pre-render line at dot 0, PPUCTRL 0, every other field zero. */
    constructor (mapper: Mapper)
      requires ChrCoversPatternTables(mapper)
      ensures Valid() && fresh(memory) && fresh(memory.vram) && fresh(memory.paletteRam) && fresh(oam)
      ensures memory.mapper == mapper
      ensures State() == PpuState(0, 0, false, seq(0x100, _ => 0), 0, false, -1, 0, 0,
                                  VideoRam(seq(0x800, _ => 0), seq(0x20, _ => 0)))
    {
      memory := new PpuMemory(mapper);
      oam := new byte[0x100](_ => 0);
      v, t, w := 0, 0, false;
      oamAddr := 0;
      nmiOccurred := false;
      scanline := -1;
      cycle := 0;
      ppuCtrl := 0;
    }

    /** `Step`: one dot, possibly flagging vertical blank and raising the CPU's NMI request. */
    method Step(cpu: NesCpu.Cpu)
      requires Valid()
      modifies this, cpu`NMIInterrupt
      ensures Valid()
      ensures (State(), cpu.NMIInterrupt) == PpuLogic.Step(old(State()), old(cpu.NMIInterrupt))
    {
      if scanline == 241 && cycle == 1 {
        nmiOccurred := true;
        if NmiEnabled(ppuCtrl) {
          cpu.NMIInterrupt := true;
        }
      }
      cycle := cycle + 1;
      if cycle > 340 {
        scanline := scanline + 1;
        cycle := 0;
        if scanline == 262 {
          scanline := 0;
        }
      }
    }

    /** `Read`: a CPU read of a PPU register. */
    method Read(addr: word) returns (data: byte)
      requires Valid()
      modifies this
      ensures Valid()
      ensures (State(), data) == ReadRegister(memory.mapper, old(State()), addr)
    {
      if addr == 0x2002 {
        data := if nmiOccurred then 0x80 else 0;
        nmiOccurred := false;
      } else if addr == 0x2007 {
        data := memory.Read(v);
        v := ToWord(v + VramIncrement(ppuCtrl));
      } else {
        data := 0;
      }
    }

    /** `Write`: a CPU write to a PPU register. */
    method Write(addr: word, data: byte)
      requires Valid()
      modifies this, oam, memory.vram, memory.paletteRam
      ensures Valid()
      ensures State() == WriteRegister(old(State()), addr, data)
    {
      if addr == 0x2000 {
        ppuCtrl := data;
      } else if addr == 0x2003 {
        oamAddr := data;
      } else if addr == 0x2004 {
        oam[oamAddr] := data;
        oamAddr := ToByte(oamAddr + 1);
      } else if addr == 0x2006 {
        t := if w then t - t % 0x100 + data else t % 0x100 + data * 0x100;
        if w {
          v := t;
        }
        w := !w;
      } else if addr == 0x2007 {
        memory.Write(v, data);
        v := ToWord(v + VramIncrement(ppuCtrl));
      }
    }

    /**
     * `WriteOAMDMA`: copies CPU page `page` into OAM, starting at the OAM
     * address and wrapping round it; the OAM address itself is unchanged.
     * `read` is the CPU bus during the copy.
     */
    method WriteOamDma(read: word -> byte, page: byte)
      requires Valid()
      modifies oam
      ensures Valid()
      ensures State() == old(State()).(oam := DmaOam(oamAddr, page, read))
    {
      ghost var expected := DmaOam(oamAddr, page, read);
      var i := 0;
      while i < 0x100
        invariant 0 <= i <= 0x100
        invariant forall k :: 0 <= k < 0x100 ==>
          oam[k] == if DmaIndex(oamAddr, k) < i then expected[k] else old(oam[k])
      {
        var slot := OamSlot(oamAddr, i);
        DmaSlot(oamAddr, i);
        forall k | 0 <= k < 0x100 && DmaIndex(oamAddr, k) == i
          ensures k == slot
        {
          DmaSlot(oamAddr, k);
        }
        oam[slot] := read(PageAddress(page, i));
        i := i + 1;
      }
    }

    /** `LookupBGColor`: the palette byte for a background pixel's 4-bit colour. */
    method LookupBgColor(data: byte) returns (color: byte)
      requires Valid()
      ensures color == MemoryRead(memory.mapper, memory.Contents(), BgColorAddress(data))
    {
      color := memory.Read(BgColorAddress(data));
    }

    /** `LookupSpriteColor`: the palette byte for a sprite pixel's 4-bit colour. */
    method LookupSpriteColor(data: byte) returns (color: byte)
      requires Valid()
      ensures color == MemoryRead(memory.mapper, memory.Contents(), SpriteColorAddress(data))
    {
      color := memory.Read(SpriteColorAddress(data));
    }
  }
}
