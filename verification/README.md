# NesEmu hardware core in Dafny

A model of the hardware core of the NesEmu NES emulator, with proofs about it. It covers five parts:

- the 6502 CPU and its address decoder;
- the picture processing unit (PPU): its internal memory, its register file, OAM and the dot counter;
- the NROM cartridge mapper and its nametable address conversion;
- the standard controller;
- the iNES cartridge header parser.

Code that changes state in place is modelled as Dafny classes with `modifies` clauses. Each such method is proved to leave the object in the state that a specification function computes from the old state. The properties the emulator relies on are proved as lemmas about those functions.

Files and modules:

| file | module | what it holds |
|---|---|---|
| `bits.dfy` | `Bits` | `byte`/`word` as integer ranges, the C# casts, bitwise helpers, `Option` |
| `opcodes.dfy` | `Opcodes` | the opcode table and `AddressModeExt.Length` |
| `mos6502.dfy` | `Mos6502` | instruction semantics as functions over a `Machine` value |
| `cpu.dfy` | `NesCpu` | the CPU object (`class Cpu`), proved against `Mos6502` |
| `cpu_properties.dfy` | `CpuProperties` | status packing, addressing modes, stack, ADC/SBC/compare, `Step` |
| `cpu_bus.dfy` | `CpuBus` | the CPU-side `Memory` decoder (`class CpuMemory`) and its properties |
| `cartridge.dfy` | `Cartridges`, `CartridgeProperties` | the iNES parser over a `BinaryReader`-like cursor, and its properties |
| `mappers.dfy` | `Mappers`, `MapperProperties` | CHR reads, the nametable address conversion, NROM PRG reads and writes |
| `controller.dfy` | `Controllers` | the button-state array |
| `ppu_logic.dfy` | `PpuLogic` | PPU state as a value; decoder, register and counter functions |
| `ppu.dfy` | `NesPpu` | the PPU objects (`class PpuMemory`, `class Ppu`), proved against `PpuLogic` |
| `ppu_properties.dfy` | `PpuProperties` | properties of the PPU functions |

The quirks of the emulator are modelled as written:

- The status getter adds V at bit 5, on top of the reserved bit, and N at bit 6, while the setter reads V from bit 6 and N from bit 7.
- SBC computes V from A and the result only.
- TXS updates N and Z.
- BRK pushes P before it sets B.
- Opcode `$19` is listed as ZeroPageY, `$91` takes 2 cycles and `$EA` takes 1 cycle.
- `$2008-$3FFF` is not mirrored on the CPU bus.
- The palette mirror applies to PPU writes only.
- A `$2002` read leaves the `$2006` toggle alone.
- Nothing calls the mapper's `ConvertVRAMAddress`: the PPU folds every nametable address modulo $800 into its 2 KB RAM, whatever the mirroring flag in header byte 6 says, so under horizontal mirroring $2000 and $2400 are separate storage.

## Model

| member | source | states |
|---|---|---|
| Opcodes.Decode | NesEmu/CPU.cs:73-225 | the table: an opcode that decodes gives its mnemonic, address mode and a cycle count from 1 to 7 |
| Opcodes.Length | NesEmu/CPU.cs:676-699 | instruction length is 1 to 3; it is 1 exactly for Accumulator and Implied, and 3 exactly for the absolute and indirect modes |
| Mos6502.PackStatus | NesEmu/CPU.cs:25-36 | the packed status byte stays below 0xA0, and its low five bits are C, Z, I, D and B |
| Mos6502.Read16 | NesEmu/CPU.cs:297-302 | little-endian: the low byte comes from the address, the high byte from the next address modulo 2^16 |
| Mos6502.Read16WrapPage | NesEmu/CPU.cs:304-318 | the low byte comes from the pointer address itself |
| Mos6502.RotateLeftByte | NesEmu/CPU.cs:507-521 | ROL on a byte: the new carry is the old bit 7, bit 0 is the old carry, the other bits move up one |
| Mos6502.RotateRightByte | NesEmu/CPU.cs:522-536 | ROR on a byte: the new carry is the old bit 0, bit 7 is the old carry, the other bits move down one |
| Mos6502.ExecuteLoadStore | NesEmu/CPU.cs:412-417 | loads and stores leave PC, the cycle count and the NMI line alone |
| Mos6502.ExecuteTransfers | NesEmu/CPU.cs:418-423 | transfers leave PC, the cycle count and the NMI line alone |
| Mos6502.ExecuteCounting | NesEmu/CPU.cs:462-486 | compares, INX/INY and DEX/DEY leave PC, the cycle count and the NMI line alone |
| Mos6502.ExecuteArithmetic | NesEmu/CPU.cs:424-546 | ADC, SBC, AND, EOR, ORA and BIT leave PC, the cycle count and the NMI line alone |
| Mos6502.ExecuteReadModifyWrite | NesEmu/CPU.cs:438-536 | shifts, rotates, INC and DEC leave PC, the cycle count and the NMI line alone |
| Mos6502.ExecuteStackJumps | NesEmu/CPU.cs:547-585 | stack operations, jumps, returns and BRK leave the cycle count and the NMI line alone |
| Mos6502.ExecuteBranches | NesEmu/CPU.cs:565-572 | branches leave the cycle count and the NMI line alone |
| Mos6502.ExecuteFlagOps | NesEmu/CPU.cs:573-586 | flag instructions and NOP leave PC, the cycle count and the NMI line alone |
| NesCpu.Cpu.P | NesEmu/CPU.cs:25-36 | the getter packs the seven flag fields as `PackStatus` does |
| NesCpu.Cpu.SetP | NesEmu/CPU.cs:37-46 | the setter replaces the seven flags with `UnpackStatus(value)` and changes nothing else |
| NesCpu.Cpu.constructor | NesEmu/CPU.cs:321-332 | a new CPU is in the state `Reset` gives for its memory (the flags are stated in `CpuProperties.ResetFlags`) |
| NesCpu.Cpu.UpdateNZ | NesEmu/CPU.cs:640-644 | N becomes bit 7 of the value and Z becomes "value is zero" |
| NesCpu.Cpu.PushStack | NesEmu/CPU.cs:646-650 | writes at 0x0100 + S, then S decreases modulo 256 |
| NesCpu.Cpu.PullStack | NesEmu/CPU.cs:652-656 | S increases modulo 256, then the byte at 0x0100 + S is returned |
| NesCpu.Cpu.PushStack16 | NesEmu/CPU.cs:658-665 | pushes the high byte, then the low byte |
| NesCpu.Cpu.PullStack16 | NesEmu/CPU.cs:667-672 | pulls the low byte, then the high byte, and returns the word they form |
| NesCpu.Cpu.Load | NesEmu/CPU.cs:595-599 | the register gets the byte at the address, and N/Z follow it |
| NesCpu.Cpu.Store | NesEmu/CPU.cs:601-604 | the register's byte is written at the address |
| NesCpu.Cpu.Transfer | NesEmu/CPU.cs:606-610 | the destination register gets the source, and N/Z follow it (S included) |
| NesCpu.Cpu.Compare | NesEmu/CPU.cs:612-617 | C and N/Z are set from reg - M; the register is unchanged |
| NesCpu.Cpu.Branch | NesEmu/CPU.cs:619-625 | PC becomes the target exactly when the condition holds |
| NesCpu.Cpu.Increment | NesEmu/CPU.cs:627-631 | the register increases modulo 256, and N/Z follow it |
| NesCpu.Cpu.Decrement | NesEmu/CPU.cs:633-637 | the register decreases modulo 256, and N/Z follow it |
| NesCpu.Cpu.AddWithCarry | NesEmu/CPU.cs:424-433 | ADC's new A, C, V, N and Z, as `Mos6502.AddWithCarry` states them |
| NesCpu.Cpu.SubtractWithCarry | NesEmu/CPU.cs:537-546 | SBC's new A, C, V, N and Z, with the source's V rule |
| NesCpu.Cpu.ShiftLeft | NesEmu/CPU.cs:438-453 | ASL on A or memory: C is the old bit 7; the shifted byte is written back; N/Z follow it |
| NesCpu.Cpu.ShiftRight | NesEmu/CPU.cs:487-502 | LSR on A or memory: C is the old bit 0; the shifted byte is written back; N/Z follow it |
| NesCpu.Cpu.RotateLeft | NesEmu/CPU.cs:507-521 | ROL: the old C enters bit 0 and the old bit 7 becomes C |
| NesCpu.Cpu.RotateRight | NesEmu/CPU.cs:522-536 | ROR: the old C enters bit 7 and the old bit 0 becomes C |
| NesCpu.Cpu.StepMemory | NesEmu/CPU.cs:465-484 | INC/DEC: the memory byte moves by one modulo 256, and N/Z follow it |
| NesCpu.Cpu.Logic | NesEmu/CPU.cs:434-437 | AND/EOR/ORA: A gets the combined byte, and N/Z follow it |
| NesCpu.Cpu.BitTest | NesEmu/CPU.cs:454-461 | BIT: N and V are bits 7 and 6 of M; Z is "A & M is zero" |
| NesCpu.Cpu.PullAccumulator | NesEmu/CPU.cs:549 | PLA pulls into A and sets N/Z |
| NesCpu.Cpu.PullStatus | NesEmu/CPU.cs:550 | PLP pulls a byte into the flags through the setter |
| NesCpu.Cpu.JumpSubroutine | NesEmu/CPU.cs:554-557 | JSR pushes PC - 1 and jumps |
| NesCpu.Cpu.ReturnFromSubroutine | NesEmu/CPU.cs:558-560 | RTS pulls a word and resumes at it plus one |
| NesCpu.Cpu.ReturnFromInterrupt | NesEmu/CPU.cs:561-564 | RTI pulls the flags, then PC |
| NesCpu.Cpu.Break | NesEmu/CPU.cs:580-585 | BRK pushes PC and P, then sets B and loads PC from $FFFE |
| NesCpu.Cpu.Interrupt | NesEmu/CPU.cs:342-348 | NMI entry pushes PC and P, loads PC from $FFFA and sets I |
| NesCpu.Cpu.ExecuteLoadStore | NesEmu/CPU.cs:412-417 | the load and store cases of the mnemonic switch |
| NesCpu.Cpu.ExecuteTransfers | NesEmu/CPU.cs:418-423 | the transfer cases of the mnemonic switch |
| NesCpu.Cpu.ExecuteCounting | NesEmu/CPU.cs:462-486 | the compare, increment and decrement register cases |
| NesCpu.Cpu.ExecuteArithmetic | NesEmu/CPU.cs:424-546 | the ADC, SBC, AND, EOR, ORA and BIT cases |
| NesCpu.Cpu.ExecuteReadModifyWrite | NesEmu/CPU.cs:438-536 | the ASL, LSR, ROL, ROR, INC and DEC cases |
| NesCpu.Cpu.ExecuteStackJumps | NesEmu/CPU.cs:547-585 | the PHA, PHP, PLA, PLP, JMP, JSR, RTS, RTI and BRK cases |
| NesCpu.Cpu.ExecuteBranches | NesEmu/CPU.cs:565-572 | the eight conditional branches |
| NesCpu.Cpu.ExecuteFlagOps | NesEmu/CPU.cs:573-586 | the flag instructions (CLD and SED do nothing) and NOP |
| NesCpu.Cpu.Execute | NesEmu/CPU.cs:410-590 | the whole mnemonic switch, as `Mos6502.Execute` states it |
| NesCpu.Cpu.ServiceNmi | NesEmu/CPU.cs:342-349 | a pending NMI is entered, and the NMI line is cleared either way |
| NesCpu.Cpu.FetchExecute | NesEmu/CPU.cs:351-357 | the opcode at PC is decoded and run |
| NesCpu.Cpu.Run | NesEmu/CPU.cs:351-408 | an unknown opcode returns 0 and changes nothing; a known one resolves its operand, advances, executes and returns the table's cycles |
| NesCpu.Cpu.Advance | NesEmu/CPU.cs:407-408 | PC moves by the instruction length modulo 2^16, and the table's cycles are added |
| NesCpu.Cpu.Step | NesEmu/CPU.cs:340-593 | one whole step: the new state and the cycles returned are `Mos6502.Step` of the old state |
| CpuProperties.StatusLowBits | NesEmu/CPU.cs:25-36 | bits 0-4 of P are exactly C, Z, I, D and B |
| CpuProperties.StatusRoundTrip | NesEmu/CPU.cs:25-46 | `P = P` keeps C, Z, I, D and B; V comes back as V xor N and N as V and N |
| CpuProperties.ResetFlags | NesEmu/CPU.cs:321-332 | after reset only I is set among the seven flags and P reads 0b00100100; A, X, Y and the cycle count are 0, S is 0xFF, no NMI is pending, and PC is the little-endian word at $FFFC |
| CpuProperties.StatusReservedBit | NesEmu/CPU.cs:33-34 | bit 5 of P is set exactly when V is clear |
| CpuProperties.PushPullStatus | NesEmu/CPU.cs:548-550 | PHP then PLP restores S and returns the flags through the getter's quirk |
| CpuProperties.WrapPageHighByte | NesEmu/CPU.cs:304-318 | the high byte comes from the same page: from address + 1, or from the page start when the low byte is 0xFF |
| CpuProperties.WrapPageExample | NesEmu/CPU.cs:306-318 | a pointer at 0x30FF, with 0x80 at 0x30FF and 0x90 at 0x3000, gives 0x9080 |
| CpuProperties.ZeroPageModes | NesEmu/CPU.cs:393-401 | ZeroPage, ZeroPageX and ZeroPageY addresses lie in page 0 |
| CpuProperties.IndirectXPointerInPageZero | NesEmu/CPU.cs:384-386 | the (zp,X) pointer is (operand + X) mod 256 |
| CpuProperties.IndirectYWraps | NesEmu/CPU.cs:387-389 | (zp),Y adds Y to the pointer read from page 0, modulo 2^16 |
| CpuProperties.RelativeReach | NesEmu/CPU.cs:390-392 | a branch target is PC + 2 + the signed offset, modulo 2^16 |
| CpuProperties.PushWritesStackPage | NesEmu/CPU.cs:646-650 | a push writes only address 0x0100 + S |
| CpuProperties.PushThenPull | NesEmu/CPU.cs:646-656 | a pull after a push returns the pushed byte and restores S |
| CpuProperties.PushThenPull16 | NesEmu/CPU.cs:658-672 | the 16-bit pull after the 16-bit push returns the word and restores S |
| CpuProperties.PushAllPointer | NesEmu/CPU.cs:646-650 | n pushes lower S by n, modulo 256 |
| CpuProperties.StackPointerWraps | NesEmu/CPU.cs:646-650 | 256 pushes bring S back to where it was |
| CpuProperties.PushAllFrame | NesEmu/CPU.cs:646-650 | any number of pushes writes nothing outside page 1 |
| CpuProperties.CallThenReturn | NesEmu/CPU.cs:554-560 | RTS after JSR resumes at the PC JSR saw and restores S |
| CpuProperties.SubroutineReturn | NesEmu/CPU.cs:554-560 | a 3-byte JSR followed by RTS resumes right after the JSR |
| CpuProperties.AddWithCarryMeaning | NesEmu/CPU.cs:424-433 | C is the carry out of A + M + C; A is the sum modulo 256; V is signed overflow; N/Z follow A; nothing else changes |
| CpuProperties.AddWithCarryExample | NesEmu/CPU.cs:424-433 | A = 0x50, M = 0x50, C = 0 gives A = 0xA0 with V and N set and C clear |
| CpuProperties.SubtractWithCarryMeaning | NesEmu/CPU.cs:537-546 | C is set iff A - M - (1 - C) >= 0; A is that difference modulo 256; V compares the signs of A and the result |
| CpuProperties.SubtractIsAddComplement | NesEmu/CPU.cs:537-546 | apart from V, SBC of M is ADC of 255 - M |
| CpuProperties.SubtractOverflowQuirk | NesEmu/CPU.cs:542 | 0 - 1 with C set sets V, although -1 is in range |
| CpuProperties.RotateRoundTrip | NesEmu/CPU.cs:507-536 | ROL then ROR, or ROR then ROL, through the carry give back the byte and the carry |
| CpuProperties.CompareMeaning | NesEmu/CPU.cs:612-617 | C iff reg >= M; Z iff reg == M; N from (reg - M) mod 256; registers unchanged |
| CpuProperties.PushKeepsVector | NesEmu/CPU.cs:646-650 | pushes never change the interrupt vectors at the top of memory |
| CpuProperties.NmiEntry | NesEmu/CPU.cs:342-349 | a pending NMI pushes PC high, PC low and P, lowers S by 3, loads PC from $FFFA, sets I and clears the line |
| CpuProperties.NoNmi | NesEmu/CPU.cs:342-349 | without a pending NMI the check changes nothing |
| CpuProperties.UnknownOpcode | NesEmu/CPU.cs:351-356 | an opcode missing from the table returns 0 and leaves PC and the cycle count alone |
| CpuProperties.ExecuteKeepsCounters | NesEmu/CPU.cs:410-590 | no instruction changes the cycle count or the NMI line |
| CpuProperties.ExecuteKeepsPc | NesEmu/CPU.cs:410-590 | only the stack/jump family and the branches write PC |
| CpuProperties.KnownOpcode | NesEmu/CPU.cs:357-408 | a decoded instruction adds its table cycles and returns them; outside jumps and branches, PC ends past the instruction |
| CpuProperties.TransferToStackSetsFlags | NesEmu/CPU.cs:422 | TXS copies X into S and updates N and Z |
| CpuProperties.BreakPushesOldB | NesEmu/CPU.cs:580-585 | BRK pushes the status byte with the old B and sets B afterwards |
| CpuProperties.TableAsWritten | NesEmu/CPU.cs:73-225 | $19 is ORA ZeroPageY, $91 is STA IndirectY with 2 cycles, $EA is NOP with 1 cycle |
| CpuBus.CpuMemory.constructor | NesEmu/CPU.cs:229-235 | a new decoder has 2 KB of zeroed work RAM |
| CpuBus.CpuMemory.Read | NesEmu/CPU.cs:237-265 | reading changes nothing; the result is a WRAM byte, a PPU register, a controller port, the APU's 0, a PRG offset or 0 |
| CpuBus.CpuMemory.Write | NesEmu/CPU.cs:267-295 | the new WRAM and the write target are what `WriteAccess` gives |
| CpuBus.WramMirror | NesEmu/CPU.cs:239-241 | a write below 0x2000 is read back at exactly the addresses below 0x2000 that agree with it modulo 0x800 |
| CpuBus.WramMirrorStride | NesEmu/CPU.cs:269-271 | a write at a is read back at a + k * 0x800 while that stays below 0x2000 |
| CpuBus.WramOnlyBelow2000 | NesEmu/CPU.cs:267-295 | only writes below 0x2000 change work RAM |
| CpuBus.PpuRegistersNotMirrored | NesEmu/CPU.cs:243-246 | reads of $2008-$3FFF give 0 and writes there are dropped |
| CpuBus.PrgRange | NesEmu/CPU.cs:256-259 | reads at $8000 and above go to PRG at addr - 0x8000 |
| CpuBus.RegisterDirections | NesEmu/CPU.cs:247-287 | $4014 reads as APU and writes start OAM DMA; $4016 writes strobe both controllers; $4017 reads controller 2 |
| Cartridges.Cartridge.MapperNumber | NesEmu/Cartridge.cs:36 | the upper nibble of the mapper number is flag 7's, the lower is flag 6's upper nibble |
| Cartridges.ByteReader.ReadUInt32 | NesEmu/Cartridge.cs:55 | four little-endian bytes, or none at end of stream |
| Cartridges.ByteReader.ReadByte | NesEmu/Cartridge.cs:63-70 | the next byte, or none at end of stream |
| Cartridges.ByteReader.ReadBytes | NesEmu/Cartridge.cs:71-74 | up to `count` bytes; a short stream gives fewer |
| Cartridges.ByteReader.Read | NesEmu/Cartridge.cs:78 | fills the start of the buffer with up to its length of bytes and leaves the rest untouched |
| Cartridges.Create | NesEmu/Cartridge.cs:53-92 | the cartridge parsed from the reader is `Layout` of the bytes that remain |
| Cartridges.ReadBodies | NesEmu/Cartridge.cs:76-89 | the PRG and CHR bodies read after the header are `Bodies` of the image |
| CartridgeProperties.MagicBytes | NesEmu/Cartridge.cs:55 | the little-endian word is 0x1A53454E iff the bytes are 4E 45 53 1A |
| CartridgeProperties.NullIffBadMagic | NesEmu/Cartridge.cs:55-58 | `Create` returns null iff the first four bytes are not "NES" followed by 0x1A |
| CartridgeProperties.EndOfStreamIffShortHeader | NesEmu/Cartridge.cs:55-71 | end of stream happens iff the magic or the seven single header bytes run short |
| CartridgeProperties.BodySizes | NesEmu/Cartridge.cs:63-89 | PRG is 16384 x byte 4; CHR is 8192 x byte 5, or 8192 zero bytes with CHR RAM when byte 5 is 0; flags are bytes 6 and 7 |
| CartridgeProperties.BodyOffsets | NesEmu/Cartridge.cs:69-88 | PRG starts at 16, or 528 after a trainer, and CHR follows PRG |
| CartridgeProperties.UnusedHeaderBytes | NesEmu/Cartridge.cs:68-71 | header bytes 8-15 do not affect the result |
| CartridgeProperties.FlagMasks | NesEmu/Cartridge.cs:25-27 | the mirroring, battery and trainer getters are the masks 0x01, 0x02 and 0x04 of flag 6 |
| Mappers.ReadChr | NesEmu/Mappers/Mapper.cs:21-24 | the result is a byte of the CHR data |
| Mappers.NromRead | NesEmu/Mappers/NROMMapper.cs:14-25 | 0 below $8000; a fault iff the address is in PRG space and PRG is empty; otherwise a PRG byte |
| Mappers.NromWrite | NesEmu/Mappers/NROMMapper.cs:27-30 | every write fails with "not implemented" |
| MapperProperties.VerticalMirroringRange | NesEmu/Mappers/Mapper.cs:28-31 | vertically, $2000-$2FFF maps into $2000-$27FF, dropping $800 from $2800, keeping the low 10 bits |
| MapperProperties.HorizontalMirroringRange | NesEmu/Mappers/Mapper.cs:32-35 | horizontally, odd 1 KB blocks drop by $400; results lie in $2000-$23FF or $2800-$2BFF with the low 10 bits kept |
| MapperProperties.MirroringIdempotent | NesEmu/Mappers/Mapper.cs:26-36 | converting twice equals converting once, on $2000-$2FFF |
| MapperProperties.MirroredPairs | NesEmu/Mappers/Mapper.cs:26-36 | which nametable addresses `ConvertVRAMAddress` maps together, and which it keeps apart, under each mirroring flag |
| MapperProperties.Nrom16KMirror | NesEmu/Mappers/NROMMapper.cs:18 | with 16 KB of PRG, a and a + 0x4000 read the same byte for a in $8000-$BFFF |
| MapperProperties.Nrom32KIdentity | NesEmu/Mappers/NROMMapper.cs:18 | with 32 KB of PRG, $8000 + i reads PRG[i] |
| MapperProperties.LoadedChrCoversPatternTables | NesEmu/Cartridge.cs:81-89 | a parsed cartridge's CHR covers every address below $2000 |
| MapperProperties.LoadedPrgNeverFaults | NesEmu/Mappers/NROMMapper.cs:16-18 | a parsed cartridge with PRG banks never faults on a read |
| Controllers.Button.Index | NesEmu/Controller.cs:12 | each button's number is below 8 and names that button back |
| Controllers.NumberingIsBijective | NesEmu/Controller.cs:11-12 | the numbering is a bijection between the 8 buttons and 0..7 |
| Controllers.Controller.constructor | NesEmu/Controller.cs:11 | a new controller has every button released |
| Controllers.Controller.SetState | NesEmu/Controller.cs:19-22 | afterwards the button reads back as set; the other seven are unchanged |
| PpuLogic.BaseNameTableAddress | NesEmu/PPU.cs:47 | one of $2000, $2400, $2800 or $2C00, chosen by PPUCTRL's low two bits |
| PpuLogic.VramIncrement | NesEmu/PPU.cs:48 | 32 iff PPUCTRL bit 2 is set, else 1 |
| PpuLogic.SpritePatternTableAddress | NesEmu/PPU.cs:49 | $1000 iff PPUCTRL bit 3 is set, else 0 |
| PpuLogic.BgPatternTableAddress | NesEmu/PPU.cs:50 | $1000 iff PPUCTRL bit 4 is set, else 0 |
| PpuLogic.PaletteRamIndex | NesEmu/PPU.cs:107-116 | always below 0x20 and never 0x10/0x14/0x18/0x1C; offsets at multiples of 4 fold modulo 0x10, the rest modulo 0x20 |
| PpuLogic.MemoryWrite | NesEmu/PPU.cs:87-105 | a write keeps both RAMs at their sizes |
| PpuLogic.BgColorAddress | NesEmu/PPU.cs:154-160 | the address is in $3F00-$3F0F, has the colour number in its low 2 bits and the palette number above them |
| PpuLogic.SpriteColorAddress | NesEmu/PPU.cs:162-168 | colour 0 is $3F00; otherwise the address is in $3F10-$3F1F with colour and palette placed as for the background |
| PpuLogic.WriteRegister | NesEmu/PPU.cs:256-280 | a register write keeps OAM and both RAMs at their sizes |
| PpuLogic.DmaOam | NesEmu/PPU.cs:282-289 | 256 bytes where slot (OAMAddr + i) mod 256 holds the byte read at page * 256 + i |
| NesPpu.PpuMemory.constructor | NesEmu/PPU.cs:55-64 | a new decoder with zeroed nametable and palette RAM |
| NesPpu.PpuMemory.Read | NesEmu/PPU.cs:66-85 | reading changes nothing and gives `MemoryRead` of the contents |
| NesPpu.PpuMemory.Write | NesEmu/PPU.cs:87-105 | the new contents are `MemoryWrite` of the old |
| NesPpu.Ppu.constructor | NesEmu/PPU.cs:119-129 | a new PPU is at scanline -1, dot 0, with PPUCTRL 0 and everything else zero |
| NesPpu.Ppu.Step | NesEmu/PPU.cs:131-152 | the new state and the CPU's NMI line are `PpuLogic.Step` of the old ones |
| NesPpu.Ppu.Read | NesEmu/PPU.cs:231-254 | the new state and the byte returned are `ReadRegister` of the old state |
| NesPpu.Ppu.Write | NesEmu/PPU.cs:256-280 | the new state is `WriteRegister` of the old one |
| NesPpu.Ppu.WriteOamDma | NesEmu/PPU.cs:282-289 | OAM becomes `DmaOam` of the page; OAMAddr and every other field are unchanged |
| NesPpu.Ppu.LookupBgColor | NesEmu/PPU.cs:154-160 | the palette byte read at `BgColorAddress` |
| NesPpu.Ppu.LookupSpriteColor | NesEmu/PPU.cs:162-168 | the palette byte read at `SpriteColorAddress` |
| PpuProperties.NametableAliasing | NesEmu/PPU.cs:72-96 | a write in $2000-$3EFF is read back at exactly the addresses of that range that agree with it modulo 0x800 |
| PpuProperties.MirroringNotApplied | NesEmu/PPU.cs:72-96 | the decoder ignores the mirroring flag: `ConvertVRAMAddress` joins $2000 and $2400 exactly under horizontal mirroring, yet a write to $2000 is never read back at $2400 |
| PpuProperties.IgnoredWrites | NesEmu/PPU.cs:87-105 | writes below $2000 or above $3FFF change nothing |
| PpuProperties.PaletteMirrorOnWriteOnly | NesEmu/PPU.cs:76-100 | a write to $3F10 + 4k is read at $3F00 + 4k, while a read of $3F10 + 4k still sees the old byte |
| PpuProperties.PaletteRoundTrip | NesEmu/PPU.cs:76-116 | other palette addresses read back what was written there |
| PpuProperties.SpriteColorRoundTrip | NesEmu/PPU.cs:162-168 | a sprite colour entry written at its lookup address reads back |
| PpuProperties.BgColorEntry | NesEmu/PPU.cs:154-160 | a background colour is palette entry 4p + c, or entry 0 for colour 0 |
| PpuProperties.NameTableMask | NesEmu/PPU.cs:47 | the base nametable is $2000 + (PPUCTRL & 3) * $400 |
| PpuProperties.ControlBitMasks | NesEmu/PPU.cs:48-53 | the bit getters agree with the `(PPUCTRL >> k) & 1` tests for k = 2, 3, 4 and 7 |
| PpuProperties.AddressLatchPair | NesEmu/PPU.cs:267-271 | two $2006 writes, high byte then low byte, leave t = v = hi * 256 + lo and clear the toggle |
| PpuProperties.StatusReadClears | NesEmu/PPU.cs:236-243 | $2002 returns 0x80 iff vertical blank was flagged and clears it; a second read returns 0; the toggle stays |
| PpuProperties.DataPort | NesEmu/PPU.cs:244-275 | $2007 reads and writes memory at v, then v advances by 1 or 32, modulo 2^16 |
| PpuProperties.OamPort | NesEmu/PPU.cs:263-266 | $2004 stores at OAMAddr and increments it modulo 256 |
| PpuProperties.UnhandledRegisters | NesEmu/PPU.cs:250-278 | other register writes change nothing; other reads return 0 |
| PpuProperties.StepKeepsCounters | NesEmu/PPU.cs:142-151 | dot stays in 0..340 and scanline in -1..261; past dot 340 the next line starts, and 261 wraps to 0 |
| PpuProperties.StepVerticalBlank | NesEmu/PPU.cs:133-140 | at scanline 241, dot 1, vertical blank is flagged and the NMI is raised iff PPUCTRL bit 7; elsewhere neither changes |
| PpuProperties.TickAdvances | NesEmu/PPU.cs:142-151 | one dot moves the frame position on by one, wrapping at the last dot |
| PpuProperties.TickNAdvances | NesEmu/PPU.cs:142-151 | n dots, up to one frame, move the frame position on by n, wrapping at most once |
| PpuProperties.FramePeriod | NesEmu/PPU.cs:142-151 | after 262 x 341 dots the counter is back where it started |
| PpuProperties.DmaPlacement | NesEmu/PPU.cs:282-289 | OAM DMA puts byte i of the page at slot (OAMAddr + i) mod 256 |

## Left out

- The UWP user interface (MainPage.xaml.cs), `Cartridge.LoadFromNES` (asynchronous file I/O) and the colour table of Palette.cs are not part of this model. `Create` works on a byte sequence instead of a file.
- Console.cs only wires the components together. Its cross-calls become parameters: the CPU runs against a 64 KB byte map, the CPU decoder reports which peripheral call would answer, and the PPU's DMA takes the bus as a function.
- `console.PPU`, `Controller.ReadState`/`WriteState` and `Mapper.ReadPRG` do not exist in the emulator's code. The decoder names them as targets and does not compute their answers. It also does not reconcile the `addr - 0x8000` offset with NROM's own subtraction.
- The obsolete `GetPixels`/`PutTile` rendering and the debug logging (`ToggleDebugLog`, `Debug.WriteLine`) are left out. A `Debug.Assert(false)` path is modelled as its return value.
- Pacing between CPU and PPU clocks, and the DMA stall noted as a TODO in the emulator, are not implemented there and are not modelled.
- The CPU's `Cycles` counter is an unbounded integer; the 32-bit overflow of the C# `int` is not modelled.
- Writes to CHR RAM are not implemented in the emulator and are not modelled.
- NesCpu.Cpu.Step: memory accesses go to the abstract byte map, so side effects of reading a PPU or controller register from the CPU are not captured.
- NesPpu.Ppu.WriteOamDma: `read` is a pure function of the address, so side effects of DMA reads on the bus (for example of $2002) are not captured.
- Mappers.ReadChr: requires the address to be inside CHR; the C# array access would throw otherwise.
- PpuLogic.PaletteRamIndex: requires a palette address ($3F00-$3FFF), the only addresses its caller passes.
- Cartridges.Cartridge.MapperNumber: the mask-and-shift expression is stated as nibble arithmetic, not as the bitwise form.
- Cartridges.ByteReader.Read: a short stream fills only part of the buffer and leaves the rest zero, as `BinaryReader.Read` does; the parser does not check the count and neither does the model.
- MapperProperties.Nrom16KMirror: NROM's wrap is proved for 16 KB and 32 KB PRG, the sizes NROM boards carry, not as periodicity for every PRG size.
