/**
 * The 6502 instruction set as the emulator decodes it: addressing modes,
 * mnemonics, the opcode table (opcode -> mnemonic, addressing mode, base
 * cycle count) and the instruction length of each addressing mode.
 *
 * The table is transcribed entry by entry, including its irregular entries:
 * 0x19 is listed with ZeroPageY, 0x91 with 2 cycles and 0xEA with 1 cycle.
 */
module Opcodes {
  import opened Bits

  datatype AddressMode =
    | Absolute | AbsoluteX | AbsoluteY
    | Accumulator | Immediate | Implied
    | Indirect | IndirectX | IndirectY
    | Relative
    | ZeroPage | ZeroPageX | ZeroPageY

  datatype Mnemonic =
    | LDA | LDX | LDY | STA | STX | STY
    | TAX | TAY | TSX | TXA | TXS | TYA
    | ADC | AND | ASL | BIT | CMP | CPX | CPY
    | DEC | DEX | DEY | EOR | INC | INX | INY
    | LSR | ORA | ROL | ROR | SBC
    | PHA | PHP | PLA | PLP
    | JMP | JSR | RTS | RTI
    | BCC | BCS | BEQ | BMI | BNE | BPL | BVC | BVS
    | CLC | CLD | CLI | CLV | SEC | SED | SEI
    | BRK | NOP

  /** One entry of the decode table. */
  datatype Instruction = Instruction(mnemonic: Mnemonic, mode: AddressMode, cycles: nat)

  /**
   * The decode table: `None` for an opcode the table does not list.
   * Every listed opcode costs between one and seven cycles.
   */
  function Decode(opcode: byte): (r: Option<Instruction>)
    ensures r.Some? ==> 1 <= r.value.cycles <= 7
  {
    match opcode
    case 0x00 => Some(Instruction(BRK, Implied, 7))
    case 0x01 => Some(Instruction(ORA, IndirectX, 6))
    case 0x05 => Some(Instruction(ORA, ZeroPage, 3))
    case 0x06 => Some(Instruction(ASL, ZeroPage, 5))
    case 0x08 => Some(Instruction(PHP, Implied, 3))
    case 0x09 => Some(Instruction(ORA, Immediate, 2))
    case 0x0A => Some(Instruction(ASL, Accumulator, 2))
    case 0x0D => Some(Instruction(ORA, Absolute, 4))
    case 0x0E => Some(Instruction(ASL, Absolute, 6))
    case 0x10 => Some(Instruction(BPL, Relative, 3))
    case 0x11 => Some(Instruction(ORA, IndirectY, 5))
    case 0x15 => Some(Instruction(ORA, ZeroPageX, 4))
    case 0x16 => Some(Instruction(ASL, ZeroPageX, 6))
    case 0x18 => Some(Instruction(CLC, Implied, 2))
    case 0x19 => Some(Instruction(ORA, ZeroPageY, 4))
    case 0x1D => Some(Instruction(ORA, AbsoluteX, 4))
    case 0x1E => Some(Instruction(ASL, AbsoluteX, 7))
    case 0x20 => Some(Instruction(JSR, Absolute, 6))
    case 0x21 => Some(Instruction(AND, IndirectX, 6))
    case 0x24 => Some(Instruction(BIT, ZeroPage, 3))
    case 0x25 => Some(Instruction(AND, ZeroPage, 3))
    case 0x26 => Some(Instruction(ROL, ZeroPage, 5))
    case 0x28 => Some(Instruction(PLP, Implied, 4))
    case 0x29 => Some(Instruction(AND, Immediate, 2))
    case 0x2A => Some(Instruction(ROL, Accumulator, 2))
    case 0x2C => Some(Instruction(BIT, Absolute, 4))
    case 0x2D => Some(Instruction(AND, Absolute, 4))
    case 0x2E => Some(Instruction(ROL, Absolute, 6))
    case 0x30 => Some(Instruction(BMI, Relative, 2))
    case 0x31 => Some(Instruction(AND, IndirectY, 5))
    case 0x35 => Some(Instruction(AND, ZeroPageX, 4))
    case 0x36 => Some(Instruction(ROL, ZeroPageX, 6))
    case 0x38 => Some(Instruction(SEC, Implied, 2))
    case 0x39 => Some(Instruction(AND, AbsoluteY, 4))
    case 0x3D => Some(Instruction(AND, AbsoluteX, 4))
    case 0x3E => Some(Instruction(ROL, AbsoluteX, 7))
    case 0x40 => Some(Instruction(RTI, Implied, 6))
    case 0x41 => Some(Instruction(EOR, IndirectX, 6))
    case 0x45 => Some(Instruction(EOR, ZeroPage, 3))
    case 0x46 => Some(Instruction(LSR, ZeroPage, 5))
    case 0x48 => Some(Instruction(PHA, Implied, 3))
    case 0x49 => Some(Instruction(EOR, Immediate, 2))
    case 0x4A => Some(Instruction(LSR, Accumulator, 2))
    case 0x4C => Some(Instruction(JMP, Absolute, 3))
    case 0x4D => Some(Instruction(EOR, Absolute, 4))
    case 0x4E => Some(Instruction(LSR, Absolute, 6))
    case 0x50 => Some(Instruction(BVC, Relative, 2))
    case 0x51 => Some(Instruction(EOR, IndirectY, 5))
    case 0x55 => Some(Instruction(EOR, ZeroPageX, 4))
    case 0x56 => Some(Instruction(LSR, ZeroPageX, 6))
    case 0x58 => Some(Instruction(CLI, Implied, 2))
    case 0x59 => Some(Instruction(EOR, AbsoluteY, 4))
    case 0x5D => Some(Instruction(EOR, AbsoluteX, 4))
    case 0x5E => Some(Instruction(LSR, AbsoluteX, 7))
    case 0x60 => Some(Instruction(RTS, Implied, 6))
    case 0x61 => Some(Instruction(ADC, IndirectX, 6))
    case 0x65 => Some(Instruction(ADC, ZeroPage, 3))
    case 0x66 => Some(Instruction(ROR, ZeroPage, 5))
    case 0x68 => Some(Instruction(PLA, Implied, 4))
    case 0x69 => Some(Instruction(ADC, Immediate, 2))
    case 0x6A => Some(Instruction(ROR, Accumulator, 2))
    case 0x6C => Some(Instruction(JMP, Indirect, 5))
    case 0x6D => Some(Instruction(ADC, Absolute, 4))
    case 0x6E => Some(Instruction(ROR, Absolute, 6))
    case 0x70 => Some(Instruction(BVS, Relative, 2))
    case 0x71 => Some(Instruction(ADC, IndirectY, 5))
    case 0x75 => Some(Instruction(ADC, ZeroPageX, 4))
    case 0x76 => Some(Instruction(ROR, ZeroPageX, 6))
    case 0x78 => Some(Instruction(SEI, Implied, 2))
    case 0x79 => Some(Instruction(ADC, AbsoluteY, 4))
    case 0x7D => Some(Instruction(ADC, AbsoluteX, 4))
    case 0x7E => Some(Instruction(ROR, AbsoluteX, 7))
    case 0x81 => Some(Instruction(STA, IndirectX, 6))
    case 0x84 => Some(Instruction(STY, ZeroPage, 3))
    case 0x85 => Some(Instruction(STA, ZeroPage, 3))
    case 0x86 => Some(Instruction(STX, ZeroPage, 3))
    case 0x88 => Some(Instruction(DEY, Implied, 2))
    case 0x8A => Some(Instruction(TXA, Implied, 2))
    case 0x8C => Some(Instruction(STY, Absolute, 4))
    case 0x8D => Some(Instruction(STA, Absolute, 4))
    case 0x8E => Some(Instruction(STX, Absolute, 4))
    case 0x90 => Some(Instruction(BCC, Relative, 2))
    case 0x91 => Some(Instruction(STA, IndirectY, 2))
    case 0x94 => Some(Instruction(STY, ZeroPageX, 4))
    case 0x95 => Some(Instruction(STA, ZeroPageX, 4))
    case 0x96 => Some(Instruction(STX, ZeroPageY, 4))
    case 0x98 => Some(Instruction(TYA, Implied, 2))
    case 0x99 => Some(Instruction(STA, AbsoluteY, 5))
    case 0x9A => Some(Instruction(TXS, Implied, 2))
    case 0x9D => Some(Instruction(STA, AbsoluteX, 5))
    case 0xA0 => Some(Instruction(LDY, Immediate, 2))
    case 0xA1 => Some(Instruction(LDA, IndirectX, 6))
    case 0xA2 => Some(Instruction(LDX, Immediate, 2))
    case 0xA4 => Some(Instruction(LDY, ZeroPage, 3))
    case 0xA5 => Some(Instruction(LDA, ZeroPage, 3))
    case 0xA6 => Some(Instruction(LDX, ZeroPage, 3))
    case 0xA8 => Some(Instruction(TAY, Implied, 2))
    case 0xA9 => Some(Instruction(LDA, Immediate, 2))
    case 0xAA => Some(Instruction(TAX, Implied, 2))
    case 0xAC => Some(Instruction(LDY, Absolute, 4))
    case 0xAD => Some(Instruction(LDA, Absolute, 4))
    case 0xAE => Some(Instruction(LDX, Absolute, 4))
    case 0xB0 => Some(Instruction(BCS, Relative, 2))
    case 0xB1 => Some(Instruction(LDA, IndirectY, 5))
    case 0xB4 => Some(Instruction(LDY, ZeroPageX, 4))
    case 0xB5 => Some(Instruction(LDA, ZeroPageX, 4))
    case 0xB6 => Some(Instruction(LDX, ZeroPageY, 4))
    case 0xB8 => Some(Instruction(CLV, Implied, 2))
    case 0xB9 => Some(Instruction(LDA, AbsoluteY, 4))
    case 0xBA => Some(Instruction(TSX, Implied, 2))
    case 0xBC => Some(Instruction(LDY, AbsoluteX, 4))
    case 0xBD => Some(Instruction(LDA, AbsoluteX, 4))
    case 0xBE => Some(Instruction(LDX, AbsoluteY, 4))
    case 0xC0 => Some(Instruction(CPY, Immediate, 2))
    case 0xC1 => Some(Instruction(CMP, IndirectX, 6))
    case 0xC4 => Some(Instruction(CPY, ZeroPage, 3))
    case 0xC5 => Some(Instruction(CMP, ZeroPage, 3))
    case 0xC6 => Some(Instruction(DEC, ZeroPage, 5))
    case 0xC8 => Some(Instruction(INY, Implied, 2))
    case 0xC9 => Some(Instruction(CMP, Immediate, 2))
    case 0xCA => Some(Instruction(DEX, Implied, 2))
    case 0xCC => Some(Instruction(CPY, Absolute, 4))
    case 0xCD => Some(Instruction(CMP, Absolute, 4))
    case 0xCE => Some(Instruction(DEC, Absolute, 6))
    case 0xD0 => Some(Instruction(BNE, Relative, 2))
    case 0xD1 => Some(Instruction(CMP, IndirectY, 5))
    case 0xD5 => Some(Instruction(CMP, ZeroPageX, 4))
    case 0xD6 => Some(Instruction(DEC, ZeroPageX, 6))
    case 0xD8 => Some(Instruction(CLD, Implied, 2))
    case 0xD9 => Some(Instruction(CMP, AbsoluteY, 4))
    case 0xDD => Some(Instruction(CMP, AbsoluteX, 4))
    case 0xDE => Some(Instruction(DEC, AbsoluteX, 7))
    case 0xE0 => Some(Instruction(CPX, Immediate, 2))
    case 0xE1 => Some(Instruction(SBC, IndirectX, 6))
    case 0xE4 => Some(Instruction(CPX, ZeroPage, 3))
    case 0xE5 => Some(Instruction(SBC, ZeroPage, 3))
    case 0xE6 => Some(Instruction(INC, ZeroPage, 5))
    case 0xE8 => Some(Instruction(INX, Implied, 2))
    case 0xE9 => Some(Instruction(SBC, Immediate, 2))
    case 0xEA => Some(Instruction(NOP, Implied, 1))
    case 0xEC => Some(Instruction(CPX, Absolute, 4))
    case 0xED => Some(Instruction(SBC, Absolute, 4))
    case 0xEE => Some(Instruction(INC, Absolute, 6))
    case 0xF0 => Some(Instruction(BEQ, Relative, 2))
    case 0xF1 => Some(Instruction(SBC, IndirectY, 5))
    case 0xF5 => Some(Instruction(SBC, ZeroPageX, 4))
    case 0xF6 => Some(Instruction(INC, ZeroPageX, 6))
    case 0xF8 => Some(Instruction(SED, Implied, 2))
    case 0xF9 => Some(Instruction(SBC, AbsoluteY, 4))
    case 0xFD => Some(Instruction(SBC, AbsoluteX, 4))
    case 0xFE => Some(Instruction(INC, AbsoluteX, 7))
    case _ => None
  }

  /** Number of bytes an instruction occupies (opcode plus operand bytes). */
  function Length(mode: AddressMode): (r: nat)
    ensures 1 <= r <= 3
    ensures r == 1 <==> mode in {Accumulator, Implied}
    ensures r == 3 <==> mode in {Absolute, AbsoluteX, AbsoluteY, Indirect}
  {
    match mode
    case Absolute => 3
    case AbsoluteX => 3
    case AbsoluteY => 3
    case Accumulator => 1
    case Immediate => 2
    case Implied => 1
    case Indirect => 3
    case IndirectX => 2
    case IndirectY => 2
    case Relative => 2
    case ZeroPage => 2
    case ZeroPageX => 2
    case ZeroPageY => 2
  }
}
