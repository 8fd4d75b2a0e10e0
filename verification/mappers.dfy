/**
 * Cartridge mappers (NesEmu/Mappers): the base class's CHR read and nametable
 * mirroring, and NROM's PRG read and write. All of it is address arithmetic
 * over an immutable cartridge.
 *
 * Where the C# code would throw (a remainder by an empty PRG, NROM's
 * unimplemented write) the model returns a `Fault`.
 */
module Mappers {
  import opened Bits
  import opened Cartridges

  /** The exceptions the mapper code can raise. */
  datatype Fault = DivideByZero | NotImplemented

  datatype Result<T> = Ok(value: T) | Failure(fault: Fault)

  /** The only mapper of the emulator: NROM (mapper 0) over a loaded cartridge. */
  datatype Mapper = NROM(cartridge: Cartridge)

  /** C#'s integer `/` for a positive divisor: rounds toward zero. */
  function CDiv(a: int, b: int): (q: int)
    requires b > 0
    ensures a >= 0 ==> q == a / b
    ensures a < 0 ==> q == -((-a) / b)
  {
    if a >= 0 then a / b else -((-a) / b)
  }

  /** `ReadCHR`: the CHR byte at the address (an index out of range would throw, so it is excluded). */
  function ReadChr(m: Mapper, addr: word): (r: byte)
    requires addr < |m.cartridge.chr|
    ensures r in m.cartridge.chr
  {
    m.cartridge.chr[addr]
  }

  /**
   * `ConvertVRAMAddress`: vertical mirroring folds the second 2 KB of the
   * nametable area onto the first; horizontal mirroring folds every odd 1 KB
   * block onto the even block below it. The result is cast to `ushort`.
   */
  function ConvertVramAddress(m: Mapper, addr: int): word
  {
    if m.cartridge.VerticalMirroring() then
      ToWord(if addr < 0x2800 then addr else addr - 0x800)
    else
      ToWord(if CDiv(addr, 0x400) % 2 == 0 then addr else addr - 0x400)
  }

  /**
   * NROM `Read`: PRG ROM from $8000, wrapped modulo the PRG length (a 16 KB
   * ROM appears twice). Below $8000 the diagnostic path answers 0. An empty
   * PRG makes the remainder throw.
   */
  function NromRead(m: Mapper, addr: word): (r: Result<byte>)
    ensures addr < 0x8000 ==> r == Ok(0)
    ensures r.Failure? <==> addr >= 0x8000 && |m.cartridge.prg| == 0
    ensures r.Ok? && addr >= 0x8000 ==> r.value in m.cartridge.prg
  {
    if addr >= 0x8000 then
      if |m.cartridge.prg| == 0 then Failure(DivideByZero)
      else Ok(m.cartridge.prg[(addr - 0x8000) % |m.cartridge.prg|])
    else
      Ok(0)
  }

  /** NROM `Write`: not implemented; every call throws. */
  function NromWrite(m: Mapper, addr: word, data: byte): (r: Result<()>)
    ensures r.Failure? && r.fault == NotImplemented
  {
    Failure(NotImplemented)
  }
}

/** Properties of nametable mirroring and NROM's PRG window. */
module MapperProperties {
  import opened Bits
  import opened Cartridges
  import opened Mappers
  import CartridgeProperties

  /**
   * Vertical mirroring on $2000-$2FFF: addresses below $2800 stay, the rest
   * drop by $800, so the result lies in $2000-$27FF with the low ten bits kept.
   */
  lemma VerticalMirroringRange(m: Mapper, addr: int)
    requires m.cartridge.VerticalMirroring() && 0x2000 <= addr < 0x3000
    ensures var r := ConvertVramAddress(m, addr);
      && 0x2000 <= r < 0x2800
      && r % 0x400 == addr % 0x400
      && r == (if addr < 0x2800 then addr else addr - 0x800)
  {
  }

  /**
   * Horizontal mirroring on $2000-$2FFF: odd 1 KB blocks drop by $400, so the
   * result lies in $2000-$23FF or $2800-$2BFF with the low ten bits kept.
   */
  lemma HorizontalMirroringRange(m: Mapper, addr: int)
    requires !m.cartridge.VerticalMirroring() && 0x2000 <= addr < 0x3000
    ensures var r := ConvertVramAddress(m, addr);
      && (0x2000 <= r < 0x2400 || 0x2800 <= r < 0x2C00)
      && r % 0x400 == addr % 0x400
      && r == (if (addr / 0x400) % 2 == 0 then addr else addr - 0x400)
  {
  }

  /** Mirroring twice is mirroring once, on $2000-$2FFF. */
  lemma MirroringIdempotent(m: Mapper, addr: int)
    requires 0x2000 <= addr < 0x3000
    ensures ConvertVramAddress(m, ConvertVramAddress(m, addr)) == ConvertVramAddress(m, addr)
  {
    if m.cartridge.VerticalMirroring() {
      VerticalMirroringRange(m, addr);
    } else {
      HorizontalMirroringRange(m, addr);
      var r := ConvertVramAddress(m, addr);
      assert (r / 0x400) % 2 == 0;
    }
  }

  /**
   * Which nametable addresses `ConvertVRAMAddress` maps together: vertically,
   * addresses $800 apart; horizontally, addresses $400 apart within the same
   * 2 KB half. The PPU's own decoder does not apply this mapping (see
   * `PpuProperties.NametableAliasing`).
   */
  lemma MirroredPairs(m: Mapper, a: int)
    requires 0x2000 <= a < 0x2400
    ensures m.cartridge.VerticalMirroring() ==>
      ConvertVramAddress(m, a) == ConvertVramAddress(m, a + 0x800)
      && ConvertVramAddress(m, a + 0x400) == ConvertVramAddress(m, a + 0xC00)
      && ConvertVramAddress(m, a) != ConvertVramAddress(m, a + 0x400)
    ensures !m.cartridge.VerticalMirroring() ==>
      ConvertVramAddress(m, a) == ConvertVramAddress(m, a + 0x400)
      && ConvertVramAddress(m, a + 0x800) == ConvertVramAddress(m, a + 0xC00)
      && ConvertVramAddress(m, a) != ConvertVramAddress(m, a + 0x800)
  {
    if !m.cartridge.VerticalMirroring() {
      assert a / 0x400 == 8;
      assert (a + 0x400) / 0x400 == 9;
      assert (a + 0x800) / 0x400 == 10;
      assert (a + 0xC00) / 0x400 == 11;
    }
  }

  /** A 16 KB PRG is seen twice: $8000-$BFFF and $C000-$FFFF read the same bytes. */
  lemma Nrom16KMirror(m: Mapper, addr: word)
    requires |m.cartridge.prg| == 0x4000 && 0x8000 <= addr < 0xC000
    ensures NromRead(m, addr) == NromRead(m, addr + 0x4000) == Ok(m.cartridge.prg[addr - 0x8000])
  {
  }

  /** A 32 KB PRG fills $8000-$FFFF with no wrap. */
  lemma Nrom32KIdentity(m: Mapper, i: nat)
    requires |m.cartridge.prg| == 0x8000 && i < 0x8000
    ensures NromRead(m, 0x8000 + i) == Ok(m.cartridge.prg[i])
  {
  }

  /** A loaded cartridge's CHR is at least 8 KB, so every pattern-table address can be read. */
  lemma LoadedChrCoversPatternTables(image: seq<byte>, addr: word)
    requires Layout(image).Created? && Layout(image).cartridge.Some? && addr < 0x2000
    ensures addr < |Layout(image).cartridge.value.chr|
  {
    CartridgeProperties.BodySizes(image);
  }

  /** A loaded cartridge with a PRG body never makes an NROM read fault. */
  lemma LoadedPrgNeverFaults(image: seq<byte>, addr: word)
    requires Layout(image).Created? && Layout(image).cartridge.Some? && image[4] > 0
    ensures NromRead(NROM(Layout(image).cartridge.value), addr).Ok?
  {
    CartridgeProperties.BodySizes(image);
  }
}
