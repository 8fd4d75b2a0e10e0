/**
 * The CPU-side address decoder, the nested `Memory` class of NesEmu/CPU.cs.
 *
 * The decoder owns the 2 KB work RAM and answers APU and unmapped reads with 0
 * itself. Everything else is a call into another component (the PPU register
 * file, a controller, the mapper), whose answer this module does not compute:
 * `Read` says which call answers, and `Write` says which call receives the byte.
 */
module CpuBus {
  import opened Bits

  /** What a read resolves to: a byte the decoder produces, or the component call that answers. */
  datatype ReadResult =
    | Data(value: byte)
    | PpuRegister(addr: word)      // console.PPU.Read(addr)
    | ControllerPort(port: nat)    // console.Controller[port].ReadState()
    | PrgRom(offset: word)         // console.Mapper.ReadPRG(offset)

  /** Where a write goes, when it does not land in work RAM. */
  datatype WriteTarget =
    | Wram
    | PpuRegisterWrite(addr: word, data: byte)   // console.PPU.Write(addr, data)
    | OamDma(page: byte)                         // console.PPU.WriteOAMDMA(this, page)
    | ControllerStrobe(data: byte)               // both controllers' WriteState(data)
    | ApuIgnored                                 // the APU range: no effect
    | Unmapped                                   // the diagnostic branch: no effect

  /** `Memory.Read`. */
  function ReadAccess(wram: seq<byte>, addr: word): ReadResult
    requires |wram| == 0x800
  {
    if addr < 0x2000 then Data(wram[addr % 0x800])
    else if addr <= 0x2007 then PpuRegister(addr)
    else if addr == 0x4016 || addr == 0x4017 then ControllerPort(addr - 0x4016)
    else if 0x4000 <= addr <= 0x4015 then Data(0)
    else if addr >= 0x8000 then PrgRom(addr - 0x8000)
    else Data(0)
  }

  /** `Memory.Write`: the new work RAM and where the byte went. */
  function WriteAccess(wram: seq<byte>, addr: word, data: byte): (seq<byte>, WriteTarget)
    requires |wram| == 0x800
  {
    if addr < 0x2000 then (wram[addr % 0x800 := data], Wram)
    else if addr <= 0x2007 then (wram, PpuRegisterWrite(addr, data))
    else if addr == 0x4014 then (wram, OamDma(data))
    else if addr == 0x4016 then (wram, ControllerStrobe(data))
    else if 0x4000 <= addr <= 0x4017 then (wram, ApuIgnored)
    else (wram, Unmapped)
  }

  class CpuMemory {
    const wram: array<byte>

    predicate Valid()
    {
      wram.Length == 0x800
    }

    /** A new decoder: the work RAM starts zeroed. */
    constructor ()
      ensures Valid() && fresh(wram)
      ensures forall i :: 0 <= i < 0x800 ==> wram[i] == 0
    {
      wram := new byte[0x800](_ => 0);
    }

    /** Reading changes nothing and gives what `ReadAccess` says. */
    method Read(addr: word) returns (r: ReadResult)
      requires Valid()
      ensures r == ReadAccess(wram[..], addr)
    {
      if addr < 0x2000 {
        r := Data(wram[addr % 0x800]);
      } else if addr <= 0x2007 {
        r := PpuRegister(addr);
      } else if addr == 0x4016 || addr == 0x4017 {
        r := ControllerPort(addr - 0x4016);
      } else if addr >= 0x4000 && addr <= 0x4015 {
        r := Data(0);
      } else if addr >= 0x8000 {
        r := PrgRom(addr - 0x8000);
      } else {
        r := Data(0);
      }
    }

    method Write(addr: word, data: byte) returns (target: WriteTarget)
      requires Valid()
      modifies wram
      ensures (wram[..], target) == WriteAccess(old(wram[..]), addr, data)
    {
      if addr < 0x2000 {
        wram[addr % 0x800] := data;
        target := Wram;
      } else if addr <= 0x2007 {
        target := PpuRegisterWrite(addr, data);
      } else if addr == 0x4014 {
        target := OamDma(data);
      } else if addr == 0x4016 {
        target := ControllerStrobe(data);
      } else if addr >= 0x4000 && addr <= 0x4017 {
        target := ApuIgnored;
      } else {
        target := Unmapped;
      }
    }
  }

  /**
   * Work RAM is mirrored every 0x800 bytes below 0x2000: a write at `a` is read
   * back at exactly those addresses that agree with `a` modulo 0x800.
   */
  lemma WramMirror(wram: seq<byte>, a: word, b: word, data: byte)
    requires |wram| == 0x800 && a < 0x2000 && b < 0x2000
    ensures ReadAccess(WriteAccess(wram, a, data).0, b)
         == if a % 0x800 == b % 0x800 then Data(data) else ReadAccess(wram, b)
  {
  }

  /** The four mirrors: a write at `a` is read at `a + k * 0x800` while that stays below 0x2000. */
  lemma WramMirrorStride(wram: seq<byte>, a: word, k: nat, data: byte)
    requires |wram| == 0x800 && a + k * 0x800 < 0x2000
    ensures ReadAccess(WriteAccess(wram, a, data).0, a + k * 0x800) == Data(data)
  {
    assert k < 4;
    assert (a + k * 0x800) % 0x800 == a % 0x800 by {
      if k == 1 { } else if k == 2 { } else if k == 3 { }
    }
    WramMirror(wram, a, a + k * 0x800, data);
  }

  /** Only writes below 0x2000 change work RAM. */
  lemma WramOnlyBelow2000(wram: seq<byte>, addr: word, data: byte)
    requires |wram| == 0x800 && addr >= 0x2000
    ensures WriteAccess(wram, addr, data).0 == wram
    ensures WriteAccess(wram, addr, data).1 != Wram
  {
  }

  /** $2008-$3FFF is not a mirror of the PPU registers here: reads give 0 and writes are dropped. */
  lemma PpuRegistersNotMirrored(wram: seq<byte>, addr: word, data: byte)
    requires |wram| == 0x800 && 0x2008 <= addr < 0x4000
    ensures ReadAccess(wram, addr) == Data(0)
    ensures WriteAccess(wram, addr, data) == (wram, Unmapped)
  {
  }

  /** Reads at or above $8000 go to PRG at offset addr - 0x8000; writes there reach nothing. */
  lemma PrgRange(wram: seq<byte>, addr: word, data: byte)
    requires |wram| == 0x800 && addr >= 0x8000
    ensures ReadAccess(wram, addr).PrgRom? && ReadAccess(wram, addr).offset < 0x8000
    ensures ReadAccess(wram, addr).offset + 0x8000 == addr
    ensures WriteAccess(wram, addr, data) == (wram, Unmapped)
  {
  }

  /**
   * $4014 and $4017 differ by direction: reading $4014 gives the APU's 0 while
   * writing it starts OAM DMA; reading $4017 asks controller 2 while writing
   * it goes to the APU; a write to $4016 strobes both controllers.
   */
  lemma RegisterDirections(wram: seq<byte>, data: byte)
    requires |wram| == 0x800
    ensures ReadAccess(wram, 0x4014) == Data(0)
    ensures WriteAccess(wram, 0x4014, data) == (wram, OamDma(data))
    ensures ReadAccess(wram, 0x4017) == ControllerPort(1)
    ensures WriteAccess(wram, 0x4017, data) == (wram, ApuIgnored)
    ensures ReadAccess(wram, 0x4016) == ControllerPort(0)
    ensures WriteAccess(wram, 0x4016, data) == (wram, ControllerStrobe(data))
  {
  }
}
