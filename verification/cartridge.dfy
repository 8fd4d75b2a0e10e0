/**
 * The iNES cartridge loader, `Cartridge.Create` of NesEmu/Cartridge.cs.
 *
 * The loader walks a `BinaryReader` over the image: a four-byte magic number,
 * seven single header bytes, five skipped bytes, an optional 512-byte
 * trainer, then the PRG ROM body and, unless the header asks for CHR RAM, the
 * CHR ROM body. `ByteReader` is that cursor over a byte sequence, with the
 * reader's end-of-stream behaviour: the fixed-size reads fail at the end of
 * the data (an `EndOfStreamException`), the bulk reads come back short.
 *
 * `Layout` states the same format declaratively, by offsets into the image,
 * and `Create` is proved to follow it.
 */
module Cartridges {
  import opened Bits

  /** The magic number "NES\x1A" read as a little-endian 32-bit value. */
  const Magic: nat := 0x1A53454E
  /** PRG ROM comes in 16 KB banks, CHR in 8 KB banks. */
  const PrgBank: nat := 16384
  const ChrBank: nat := 8192
  const HeaderSize: nat := 16
  const TrainerSize: nat := 512

  /** A loaded cartridge: the two memory bodies and the two flag bytes the emulator keeps. */
  datatype Cartridge = Cartridge(prg: seq<byte>, chr: seq<byte>, usesChrRam: bool, flag6: byte, flag7: byte)
  {
    /** Flag 6 bit 0: vertical nametable arrangement. */
    predicate VerticalMirroring() { Bit(flag6, 0) }

    /** Flag 6 bit 1: battery-backed PRG RAM. */
    predicate HasBattery() { Bit(flag6, 1) }

    /** Flag 6 bit 2: a 512-byte trainer precedes PRG ROM. */
    predicate ContainsTrainer() { Bit(flag6, 2) }

    /** The mapper number: its high nibble is flag 7's high nibble, its low nibble flag 6's high nibble. */
    function MapperNumber(): (r: byte)
      ensures r / 0x10 == flag7 / 0x10
      ensures r % 0x10 == flag6 / 0x10
    {
      flag7 - flag7 % 0x10 + flag6 / 0x10
    }
  }

  /** What `Create` ends with: a cartridge, `null` for a wrong magic number, or an end-of-stream exception. */
  datatype CreateResult = Created(cartridge: Option<Cartridge>) | EndOfStream

  /** Four bytes read as a little-endian unsigned number (`BinaryReader.ReadUInt32`). */
  function UInt32(b: seq<byte>): nat
    requires |b| == 4
  {
    var b0: int, b1: int, b2: int, b3: int := b[0], b[1], b[2], b[3];
    b0 + 0x100 * b1 + 0x1_0000 * b2 + 0x100_0000 * b3
  }

  /**
   * `len` bytes of `data` from offset `off`, zeros where the data has ended:
   * a freshly allocated array after a bulk read that may come back short.
   */
  function Fill(data: seq<byte>, off: nat, len: nat): (r: seq<byte>)
    ensures |r| == len
  {
    seq(len, i requires 0 <= i < len => if off + i < |data| then data[off + i] else 0)
  }

  /**
   * The image format by offsets: magic at 0, PRG banks at 4, CHR banks at 5,
   * flags at 6 and 7, bytes 8-15 unused, the trainer (if flag 6 bit 2) at 16,
   * PRG after it and CHR after PRG.
   */
  function Layout(image: seq<byte>): CreateResult
  {
    if |image| < 4 then EndOfStream
    else if UInt32(image[..4]) != Magic then Created(None)
    else if |image| < 11 then EndOfStream
    else
      Created(Some(Bodies(image, Cartridge([], [], image[5] == 0, image[6], image[7]), image[4], image[5])))
  }

  /** A `BinaryReader` over a byte sequence: the data and the cursor into it. */
  class ByteReader {
    const data: seq<byte>
    var pos: nat

    predicate Valid()
      reads this
    {
      pos <= |data|
    }

    /** The bytes not yet consumed. */
    function Remaining(): seq<byte>
      reads this
      requires Valid()
    {
      data[pos..]
    }

    constructor (data: seq<byte>)
      ensures Valid() && this.data == data && pos == 0
    {
      this.data := data;
      pos := 0;
    }

    /** `ReadUInt32`: four bytes little-endian, or `None` (end of stream, the data consumed). */
    method ReadUInt32() returns (r: Option<nat>)
      requires Valid()
      modifies this
      ensures Valid()
      ensures old(pos) + 4 <= |data| ==> r == Some(UInt32(data[old(pos)..old(pos) + 4])) && pos == old(pos) + 4
      ensures old(pos) + 4 > |data| ==> r == None && pos == |data|
    {
      if pos + 4 > |data| {
        pos := |data|;
        return None;
      }
      r := Some(UInt32(data[pos..pos + 4]));
      pos := pos + 4;
    }

    /** `ReadByte`: the next byte, or `None` (end of stream). */
    method ReadByte() returns (r: Option<byte>)
      requires Valid()
      modifies this
      ensures Valid()
      ensures old(pos) < |data| ==> r == Some(data[old(pos)]) && pos == old(pos) + 1
      ensures old(pos) >= |data| ==> r == None && pos == old(pos)
    {
      if pos >= |data| {
        return None;
      }
      r := Some(data[pos]);
      pos := pos + 1;
    }

    /** `ReadBytes(count)`: up to `count` bytes; fewer when the data ends first. */
    method ReadBytes(count: nat) returns (r: seq<byte>)
      requires Valid()
      modifies this
      ensures Valid()
      ensures pos == Min(old(pos) + count, |data|)
      ensures r == data[old(pos)..pos]
    {
      var end := Min(pos + count, |data|);
      r := data[pos..end];
      pos := end;
    }

    /**
     * `Read(buffer, 0, buffer.Length)`: copies bytes into the front of the
     * buffer until it is full or the data ends, and leaves the rest of the
     * buffer as it was.
     */
    method Read(buffer: array<byte>) returns (n: nat)
      requires Valid()
      modifies this, buffer
      ensures Valid()
      ensures n == Min(buffer.Length, |data| - old(pos)) && pos == old(pos) + n
      ensures buffer[..n] == data[old(pos)..pos]
      ensures buffer[n..] == old(buffer[n..])
    {
      n := Min(buffer.Length, |data| - pos);
      var i := 0;
      while i < n
        invariant 0 <= i <= n && pos == old(pos) && pos + n <= |data|
        invariant buffer[..i] == data[pos..pos + i]
        invariant buffer[i..] == old(buffer[i..])
      {
        buffer[i] := data[pos + i];
        i := i + 1;
      }
      pos := pos + n;
    }
  }

  function Min(a: int, b: int): int
  {
    if a <= b then a else b
  }

  /** After a short-or-full read into a zeroed buffer, the buffer holds `Fill` of the data at the nominal offset. */
  lemma ReadFills(data: seq<byte>, base: nat, off: nat, len: nat, buffer: seq<byte>, start: nat, n: nat)
    requires base <= |data| && start == Min(base + off, |data|)
    requires n == Min(len, |data| - start) && |buffer| == len
    requires buffer[..n] == data[start..start + n]
    requires forall i :: n <= i < len ==> buffer[i] == 0
    ensures buffer == Fill(data[base..], off, len)
  {
    var rest := data[base..];
    forall i | 0 <= i < len
      ensures buffer[i] == Fill(rest, off, len)[i]
    {
      if i < n {
        assert buffer[i] == buffer[..n][i] == data[start + i];
      }
    }
  }

  /**
   * `Create`: reads the magic number and the header through the cursor and
   * skips the trainer; `ReadBodies` does the rest. The outcome is exactly what
   * `Layout` says of the unread data.
   */
  method Create(reader: ByteReader) returns (r: CreateResult)
    requires reader.Valid()
    modifies reader
    ensures r == Layout(old(reader.Remaining()))
  {
    ghost var image := reader.Remaining();
    ghost var base := reader.pos;
    var magic := reader.ReadUInt32();
    if magic.None? {
      return EndOfStream;
    }
    assert image[..4] == reader.data[base..base + 4];
    if magic.value != Magic {
      return Created(None);
    }
    var prgRomSize := reader.ReadByte();
    if prgRomSize.None? { return EndOfStream; }
    var chrRomSize := reader.ReadByte();
    if chrRomSize.None? { return EndOfStream; }
    var flag6 := reader.ReadByte();
    if flag6.None? { return EndOfStream; }
    var flag7 := reader.ReadByte();
    if flag7.None? { return EndOfStream; }
    var prgRamSize := reader.ReadByte();   // PRG RAM size: read, never used
    if prgRamSize.None? { return EndOfStream; }
    var flag9 := reader.ReadByte();        // unused
    if flag9.None? { return EndOfStream; }
    var flag10 := reader.ReadByte();       // unused
    if flag10.None? { return EndOfStream; }
    assert reader.pos == base + 11;
    var header := Cartridge([], [], chrRomSize.value == 0, flag6.value, flag7.value);
    var _ := reader.ReadBytes(5);
    if header.ContainsTrainer() {
      var _ := reader.ReadBytes(TrainerSize);
    }
    var cartridge := ReadBodies(reader, header, prgRomSize.value, chrRomSize.value, image, base);
    r := Created(Some(cartridge));
  }

  /** The PRG and CHR bodies `Layout` gives an image with this header. */
  function Bodies(image: seq<byte>, header: Cartridge, prgBanks: byte, chrBanks: byte): (c: Cartridge)
  {
    var prgStart := HeaderSize + (if header.ContainsTrainer() then TrainerSize else 0);
    var prgSize := prgBanks * PrgBank;
    var chr := if header.usesChrRam then Fill([], 0, ChrBank)
               else Fill(image, prgStart + prgSize, chrBanks * ChrBank);
    header.(prg := Fill(image, prgStart, prgSize), chr := chr)
  }

  /** Allocates PRG (and CHR unless it is CHR RAM) and fills them through the cursor. */
  method ReadBodies(reader: ByteReader, header: Cartridge, prgBanks: byte, chrBanks: byte,
                    ghost image: seq<byte>, ghost base: nat) returns (c: Cartridge)
    requires reader.Valid() && base <= |reader.data| && image == reader.data[base..]
    requires header.usesChrRam == (chrBanks == 0)
    requires reader.pos == Min(base + HeaderSize + (if header.ContainsTrainer() then TrainerSize else 0), |reader.data|)
    modifies reader
    ensures c == Bodies(image, header, prgBanks, chrBanks)
  {
    ghost var prgStart := HeaderSize + (if header.ContainsTrainer() then TrainerSize else 0);
    var prg := new byte[prgBanks * PrgBank](_ => 0);
    var n := reader.Read(prg);
    ReadFills(reader.data, base, prgStart, prg.Length, prg[..], reader.pos - n, n);

    var chr: array<byte>;
    if header.usesChrRam {
      chr := new byte[ChrBank](_ => 0);
      assert chr[..] == Fill([], 0, ChrBank);
    } else {
      chr := new byte[chrBanks * ChrBank](_ => 0);
      ghost var chrStart := reader.pos;
      var m := reader.Read(chr);
      ReadFills(reader.data, base, prgStart + prg.Length, chr.Length, chr[..], chrStart, m);
    }
    c := header.(prg := prg[..], chr := chr[..]);
  }
}

/** What the loader promises about the images it accepts and rejects. */
module CartridgeProperties {
  import opened Bits
  import opened Cartridges

  /** The magic number is exactly the bytes 4E 45 53 1A ("NES" and an end-of-file mark). */
  lemma MagicBytes(b: seq<byte>)
    requires |b| == 4
    ensures UInt32(b) == Magic <==> b == [0x4E, 0x45, 0x53, 0x1A]
  {
    if UInt32(b) == Magic {
      var b0: int, b1: int, b2: int, b3: int := b[0], b[1], b[2], b[3];
      assert b0 + 0x100 * (b1 + 0x100 * (b2 + 0x100 * b3)) == Magic;
      assert b0 == 0x4E;
      assert b1 + 0x100 * (b2 + 0x100 * b3) == 0x1A5345;
      assert b1 == 0x45;
      assert b2 + 0x100 * b3 == 0x1A53;
      assert b2 == 0x53 && b3 == 0x1A;
      assert b == [0x4E, 0x45, 0x53, 0x1A];
    }
  }

  /** `Create` gives `null` exactly when the first four bytes are not the magic number. */
  lemma NullIffBadMagic(image: seq<byte>)
    requires |image| >= 4
    ensures Layout(image) == Created(None) <==> image[..4] != [0x4E, 0x45, 0x53, 0x1A]
  {
    MagicBytes(image[..4]);
  }

  /**
   * The only end-of-stream failures are in the magic number and the seven
   * single header bytes; bodies and skipped bytes that run short do not fail.
   */
  lemma EndOfStreamIffShortHeader(image: seq<byte>)
    ensures Layout(image) == EndOfStream
        <==> |image| < 4 || (image[..4] == [0x4E, 0x45, 0x53, 0x1A] && |image| < 11)
  {
    if |image| >= 4 {
      MagicBytes(image[..4]);
    }
  }

  /**
   * The sizes of an accepted image: PRG is header byte 4 times 16 KB; CHR is
   * header byte 5 times 8 KB, or, when byte 5 is 0, 8 KB of zeroed CHR RAM.
   * The flag bytes are header bytes 6 and 7.
   */
  lemma BodySizes(image: seq<byte>)
    requires Layout(image).Created? && Layout(image).cartridge.Some?
    ensures var c := Layout(image).cartridge.value;
      && |c.prg| == (image[4] as int) * 16384
      && c.usesChrRam == (image[5] == 0)
      && |c.chr| == (if image[5] == 0 then 8192 else (image[5] as int) * 8192)
      && |c.chr| >= 8192
      && (c.usesChrRam ==> forall i :: 0 <= i < |c.chr| ==> c.chr[i] == 0)
      && c.flag6 == image[6] && c.flag7 == image[7]
  {
  }

  /**
   * Where the bodies come from in a complete image: PRG starts at offset 16,
   * or 16 + 512 past a trainer, and CHR ROM follows PRG immediately.
   */
  lemma BodyOffsets(image: seq<byte>)
    requires Layout(image).Created? && Layout(image).cartridge.Some?
    ensures var c := Layout(image).cartridge.value;
      var prgStart := if Bit(image[6], 2) then 16 + 512 else 16;
      var prgEnd := prgStart + (image[4] as int) * 16384;
      && (prgEnd <= |image| ==> c.prg == image[prgStart..prgEnd])
      && (!c.usesChrRam && prgEnd + |c.chr| <= |image| ==> c.chr == image[prgEnd..prgEnd + |c.chr|])
  {
    var c := Layout(image).cartridge.value;
    var prgStart := if Bit(image[6], 2) then 16 + 512 else 16;
    var prgEnd := prgStart + (image[4] as int) * 16384;
    if prgEnd <= |image| {
      assert c.prg == image[prgStart..prgEnd];
    }
    if !c.usesChrRam && prgEnd + |c.chr| <= |image| {
      assert c.chr == image[prgEnd..prgEnd + |c.chr|];
    }
  }

  /** Header bytes 8 to 15 are consumed but change nothing. */
  lemma UnusedHeaderBytes(a: seq<byte>, b: seq<byte>)
    requires |a| == |b|
    requires forall i :: 0 <= i < |a| && !(8 <= i < 16) ==> a[i] == b[i]
    ensures Layout(a) == Layout(b)
  {
    if |a| >= 4 {
      assert a[..4] == b[..4];
    }
    if |a| >= 11 && UInt32(a[..4]) == Magic {
      var header := Cartridge([], [], a[5] == 0, a[6], a[7]);
      var prgStart := HeaderSize + (if header.ContainsTrainer() then TrainerSize else 0);
      var prgSize := a[4] * PrgBank;
      assert Fill(a, prgStart, prgSize) == Fill(b, prgStart, prgSize);
      assert Fill(a, prgStart + prgSize, a[5] * ChrBank) == Fill(b, prgStart + prgSize, a[5] * ChrBank);
    }
  }

  /** The three flag getters are the masks `flag6 & 0x01`, `flag6 & 0x02` and `flag6 & 0x04`. */
  lemma FlagMasks(c: Cartridge)
    ensures c.VerticalMirroring() <==> And(c.flag6, 0x01) != 0
    ensures c.HasBattery() <==> And(c.flag6, 0x02) != 0
    ensures c.ContainsTrainer() <==> And(c.flag6, 0x04) != 0
  {
    var v := c.flag6 as bv8;
    assert v & 1 == v % 2;
    assert (v % 2) as int == c.flag6 % 2;
    assert v & 2 == ((v / 2) % 2) * 2;
    assert ((v / 2) % 2) as int == (c.flag6 / 2) % 2;
    assert v & 4 == ((v / 4) % 2) * 4;
    assert ((v / 4) % 2) as int == (c.flag6 / 4) % 2;
  }
}
