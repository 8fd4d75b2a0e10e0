/**
 * Instruction semantics of the emulator's 6502 core (NesEmu/CPU.cs), stated as
 * functions over a value of the whole machine state.
 *
 * The CPU runs against an abstract 64 KB byte map: every `memory.Read` and
 * `memory.Write` of CPU.cs reads or updates `mem`. The address decoder that
 * sits behind the real bus (WRAM mirroring, PPU registers, controllers, PRG)
 * is modelled on its own in module CpuBus.
 *
 * These functions are the specification that the imperative class `NesCpu.Cpu`
 * is proved against, and the subject of the lemmas in module CpuProperties.
 * Every quirk of the source is kept:
 *  - the status getter adds V at bit 5 on top of the reserved bit, so V carries
 *    into bit 6 and a set N then carries into bit 7;
 *  - SBC computes V from A and the result only;
 *  - TXS updates N and Z;
 *  - BRK pushes the status byte before it sets B;
 *  - CLD and SED leave D alone.
 */
module Mos6502 {
  import opened Bits
  import opened Opcodes

  /** The abstract 64 KB CPU address space. */
  type Ram = s: seq<byte> | |s| == 0x1_0000 witness seq(0x1_0000, _ => 0)

  /** The seven flag booleans C, Z, I, D, B, V, N. */
  datatype Flags = Flags(c: bool, z: bool, i: bool, d: bool, b: bool, v: bool, n: bool)

  /** The registers that CPU.cs passes by `ref` to its helpers. */
  datatype Reg = RegA | RegX | RegY | RegS

  /** Everything `Step` reads or changes. */
  datatype Machine = Machine(
    a: byte, x: byte, y: byte, s: byte, pc: word,
    f: Flags,
    cycles: int,
    nmi: bool,
    mem: Ram)

  function Flag(b: bool, weight: nat): nat
  {
    if b then weight else 0
  }

  /**
   * The getter of `P`: a sum of weighted flags. The reserved bit and V both
   * add 0x20, so the sum is below 0xA0 and the `(byte)` cast never truncates.
   */
  function PackStatus(f: Flags): (p: byte)
    ensures p < 0xA0
    ensures p % 0x20 == Flag(f.c, 1) + Flag(f.z, 2) + Flag(f.i, 4) + Flag(f.d, 8) + Flag(f.b, 0x10)
  {
    Flag(f.c, 1) + Flag(f.z, 2) + Flag(f.i, 4) + Flag(f.d, 8) + Flag(f.b, 0x10)
    + 0x20 + Flag(f.v, 0x20) + Flag(f.n, 0x40)
  }

  /** The setter of `P`: bits 0-4 give C, Z, I, D, B; bit 6 gives V and bit 7 gives N. */
  function UnpackStatus(p: byte): Flags
  {
    Flags(Bit(p, 0), Bit(p, 1), Bit(p, 2), Bit(p, 3), Bit(p, 4), Bit(p, 6), Bit(p, 7))
  }

  /** `Memory.Read16`: little-endian, the high byte at `address + 1` (wrapping at 0x10000). */
  function Read16(mem: Ram, address: word): (r: word)
    ensures r % 0x100 == mem[address]
    ensures r / 0x100 == mem[ToWord(address + 1)]
  {
    MakeWord(mem[ToWord(address + 1)], mem[address])
  }

  /**
   * `Memory.Read16WrapPage`, the indirect-JMP bug: when the pointer's low byte
   * is 0xFF, the high byte comes from the start of the same page (`address & ~0xFF`).
   */
  function Read16WrapPage(mem: Ram, address: word): (r: word)
    ensures r % 0x100 == mem[address]
  {
    if address % 0x100 == 0xFF then
      MakeWord(mem[address - address % 0x100], mem[address])
    else
      Read16(mem, address)
  }

  /** The operand address `Step` resolves for an addressing mode, before PC advances. */
  function OperandAddress(mem: Ram, pc: word, x: byte, y: byte, mode: AddressMode): word
  {
    var operand := ToWord(pc + 1);
    match mode
    case Absolute => Read16(mem, operand)
    case AbsoluteX => ToWord(Read16(mem, operand) + x)
    case AbsoluteY => ToWord(Read16(mem, operand) + y)
    case Accumulator => 0
    case Immediate => operand
    case Implied => 0
    case Indirect => Read16WrapPage(mem, Read16(mem, operand))
    case IndirectX => Read16WrapPage(mem, (mem[operand] + x) % 0x100)
    case IndirectY => ToWord(Read16WrapPage(mem, mem[operand]) + y)
    case Relative => ToWord(pc + Signed(mem[operand]) + 2)
    case ZeroPage => mem[operand]
    case ZeroPageX => (mem[operand] + x) % 0x100
    case ZeroPageY => (mem[operand] + y) % 0x100
  }

  function GetReg(m: Machine, r: Reg): byte
  {
    match r
    case RegA => m.a
    case RegX => m.x
    case RegY => m.y
    case RegS => m.s
  }

  function SetReg(m: Machine, r: Reg, value: byte): Machine
  {
    match r
    case RegA => m.(a := value)
    case RegX => m.(x := value)
    case RegY => m.(y := value)
    case RegS => m.(s := value)
  }

  /** `UpdateNZ`: N is bit 7 of the value, Z says it is zero. */
  function UpdateNZ(m: Machine, value: byte): Machine
  {
    m.(f := m.f.(n := value >= 0x80, z := value == 0))
  }

  function WriteMem(m: Machine, addr: word, data: byte): Machine
  {
    m.(mem := m.mem[addr := data])
  }

  /** `PushStack`: write at 0x0100 | S, then decrement S (wrapping). */
  function PushStack(m: Machine, data: byte): Machine
  {
    m.(mem := m.mem[0x100 + m.s := data], s := ToByte(m.s - 1))
  }

  /** `PullStack`: increment S (wrapping), then read at 0x0100 | S. */
  function PullStack(m: Machine): (Machine, byte)
  {
    var s := ToByte(m.s + 1);
    (m.(s := s), m.mem[0x100 + s])
  }

  /** `PushStack16`: high byte first, then low byte. */
  function PushStack16(m: Machine, data: word): Machine
  {
    PushStack(PushStack(m, data / 0x100), data % 0x100)
  }

  /** `PullStack16`: low byte first, then high byte. */
  function PullStack16(m: Machine): (Machine, word)
  {
    var (m1, lo) := PullStack(m);
    var (m2, hi) := PullStack(m1);
    (m2, MakeWord(hi, lo))
  }

  function Load(m: Machine, r: Reg, addr: word): Machine
  {
    UpdateNZ(SetReg(m, r, m.mem[addr]), m.mem[addr])
  }

  function Store(m: Machine, r: Reg, addr: word): Machine
  {
    WriteMem(m, addr, GetReg(m, r))
  }

  function Transfer(m: Machine, src: Reg, dst: Reg): Machine
  {
    UpdateNZ(SetReg(m, dst, GetReg(m, src)), GetReg(m, src))
  }

  /** `Compare`: C says the register is at least the operand; N and Z come from the byte difference. */
  function Compare(m: Machine, r: Reg, addr: word): Machine
  {
    var diff := GetReg(m, r) - m.mem[addr];
    UpdateNZ(m.(f := m.f.(c := diff >= 0)), ToByte(diff))
  }

  function Increment(m: Machine, r: Reg): Machine
  {
    var value := ToByte(GetReg(m, r) + 1);
    UpdateNZ(SetReg(m, r, value), value)
  }

  function Decrement(m: Machine, r: Reg): Machine
  {
    var value := ToByte(GetReg(m, r) - 1);
    UpdateNZ(SetReg(m, r, value), value)
  }

  function Branch(m: Machine, taken: bool, addr: word): Machine
  {
    if taken then m.(pc := addr) else m
  }

  /**
   * ADC. V is bit 7 of `~(A ^ M) & (A ^ result)`: the operands agree in sign
   * and the result does not.
   */
  function AddWithCarry(m: Machine, addr: word): Machine
  {
    var data := m.mem[addr];
    var sum := m.a + data + Flag(m.f.c, 1);
    var result := ToByte(sum);
    var overflow := ((m.a >= 0x80) == (data >= 0x80)) && ((m.a >= 0x80) != (result >= 0x80));
    UpdateNZ(m.(a := result, f := m.f.(c := sum > 0xFF, v := overflow)), result)
  }

  /**
   * SBC. V is bit 7 of `(A ^ sub) & (A ^ (byte)sub)`; bit 7 of the int `sub`
   * is bit 7 of its low byte, so V only says that A and the result differ in sign.
   */
  function SubtractWithCarry(m: Machine, addr: word): Machine
  {
    var data := m.mem[addr];
    var sub := m.a - data - (if m.f.c then 0 else 1);
    var result := ToByte(sub);
    var overflow := (m.a >= 0x80) != (result >= 0x80);
    UpdateNZ(m.(a := result, f := m.f.(c := sub >= 0, v := overflow)), result)
  }

  /** The operand of a read-modify-write instruction: A in Accumulator mode, else memory. */
  function RmwOperand(m: Machine, mode: AddressMode, addr: word): byte
  {
    if mode == Accumulator then m.a else m.mem[addr]
  }

  /** Write a read-modify-write result back, then update N and Z from it. */
  function RmwResult(m: Machine, mode: AddressMode, addr: word, value: byte): Machine
  {
    var m1 := if mode == Accumulator then m.(a := value) else WriteMem(m, addr, value);
    UpdateNZ(m1, value)
  }

  function ShiftLeft(m: Machine, mode: AddressMode, addr: word): Machine
  {
    var data := RmwOperand(m, mode, addr);
    RmwResult(m.(f := m.f.(c := data >= 0x80)), mode, addr, (data * 2) % 0x100)
  }

  function ShiftRight(m: Machine, mode: AddressMode, addr: word): Machine
  {
    var data := RmwOperand(m, mode, addr);
    RmwResult(m.(f := m.f.(c := data % 2 == 1)), mode, addr, data / 2)
  }

  /** ROL on one byte: the old carry enters bit 0 and bit 7 leaves as the new carry. */
  function RotateLeftByte(data: byte, carry: bool): (r: (byte, bool))
    ensures r.1 <==> data >= 0x80
    ensures r.0 % 2 == Flag(carry, 1) && r.0 / 2 == data % 0x80
  {
    var wide := data * 2 + Flag(carry, 1);
    assert wide % 0x100 == if wide >= 0x100 then wide - 0x100 else wide;
    (wide % 0x100, wide >= 0x100)
  }

  /** ROR on one byte: the old carry enters bit 7 and bit 0 leaves as the new carry. */
  function RotateRightByte(data: byte, carry: bool): (r: (byte, bool))
    ensures r.1 <==> data % 2 == 1
    ensures r.0 / 0x80 == Flag(carry, 1) && r.0 % 0x80 == data / 2
  {
    var wide := Flag(carry, 0x100) + data;
    (wide / 2, wide % 2 == 1)
  }

  function RotateLeft(m: Machine, mode: AddressMode, addr: word): Machine
  {
    var (data, carry) := RotateLeftByte(RmwOperand(m, mode, addr), m.f.c);
    RmwResult(m.(f := m.f.(c := carry)), mode, addr, data)
  }

  function RotateRight(m: Machine, mode: AddressMode, addr: word): Machine
  {
    var (data, carry) := RotateRightByte(RmwOperand(m, mode, addr), m.f.c);
    RmwResult(m.(f := m.f.(c := carry)), mode, addr, data)
  }

  /** INC and DEC on memory. */
  function StepMemory(m: Machine, addr: word, delta: int): Machine
  {
    var value := ToByte(m.mem[addr] + delta);
    UpdateNZ(WriteMem(m, addr, value), value)
  }

  function BitTest(m: Machine, addr: word): Machine
  {
    var data := m.mem[addr];
    m.(f := m.f.(n := Bit(data, 7), v := Bit(data, 6), z := And(data, m.a) == 0))
  }

  function Logic(m: Machine, result: byte): Machine
  {
    UpdateNZ(m.(a := result), result)
  }

  function PullAccumulator(m: Machine): Machine
  {
    var (m1, data) := PullStack(m);
    UpdateNZ(m1.(a := data), data)
  }

  function PullStatus(m: Machine): Machine
  {
    var (m1, p) := PullStack(m);
    m1.(f := UnpackStatus(p))
  }

  function JumpSubroutine(m: Machine, addr: word): Machine
  {
    PushStack16(m, ToWord(m.pc - 1)).(pc := addr)
  }

  function ReturnFromSubroutine(m: Machine): Machine
  {
    var (m1, ret) := PullStack16(m);
    m1.(pc := ToWord(ret + 1))
  }

  function ReturnFromInterrupt(m: Machine): Machine
  {
    var m1 := PullStatus(m);
    var (m2, ret) := PullStack16(m1);
    m2.(pc := ret)
  }

  /** BRK: push PC and P, and only then set B; continue at the vector in $FFFE. */
  function Break(m: Machine): Machine
  {
    var m1 := PushStack16(m, m.pc);
    var m2 := PushStack(m1, PackStatus(m1.f));
    m2.(f := m2.f.(b := true), pc := Read16(m2.mem, 0xFFFE))
  }

  /** NMI entry: push PC and P, continue at the vector in $FFFA with I set. */
  function Interrupt(m: Machine): Machine
  {
    var m1 := PushStack16(m, m.pc);
    var m2 := PushStack(m1, PackStatus(m1.f));
    m2.(pc := Read16(m2.mem, 0xFFFA), f := m2.f.(i := true))
  }

  /** The families the mnemonic switch is split into. */
  datatype Family = LoadStore | Transfers | Counting | Arithmetic | ReadModifyWrite | StackJumps | Branches | FlagOps

  function FamilyOf(mn: Mnemonic): Family
  {
    match mn
    case LDA => LoadStore
    case LDX => LoadStore
    case LDY => LoadStore
    case STA => LoadStore
    case STX => LoadStore
    case STY => LoadStore
    case TAX => Transfers
    case TAY => Transfers
    case TSX => Transfers
    case TXA => Transfers
    case TXS => Transfers
    case TYA => Transfers
    case CMP => Counting
    case CPX => Counting
    case CPY => Counting
    case DEX => Counting
    case DEY => Counting
    case INX => Counting
    case INY => Counting
    case ADC => Arithmetic
    case SBC => Arithmetic
    case AND => Arithmetic
    case EOR => Arithmetic
    case ORA => Arithmetic
    case BIT => Arithmetic
    case ASL => ReadModifyWrite
    case LSR => ReadModifyWrite
    case ROL => ReadModifyWrite
    case ROR => ReadModifyWrite
    case INC => ReadModifyWrite
    case DEC => ReadModifyWrite
    case PHA => StackJumps
    case PHP => StackJumps
    case PLA => StackJumps
    case PLP => StackJumps
    case JMP => StackJumps
    case JSR => StackJumps
    case RTS => StackJumps
    case RTI => StackJumps
    case BRK => StackJumps
    case BCC => Branches
    case BCS => Branches
    case BEQ => Branches
    case BMI => Branches
    case BNE => Branches
    case BPL => Branches
    case BVC => Branches
    case BVS => Branches
    case CLC => FlagOps
    case CLD => FlagOps
    case CLI => FlagOps
    case CLV => FlagOps
    case SEC => FlagOps
    case SED => FlagOps
    case SEI => FlagOps
    case NOP => FlagOps
  }

  /** Loads and stores. */
  function ExecuteLoadStore(m: Machine, inst: Instruction, addr: word): (r: Machine)
    requires FamilyOf(inst.mnemonic) == LoadStore
    ensures r.cycles == m.cycles && r.nmi == m.nmi
    ensures r.pc == m.pc
  {
    match inst.mnemonic
    case LDA => Load(m, RegA, addr)
    case LDX => Load(m, RegX, addr)
    case LDY => Load(m, RegY, addr)
    case STA => Store(m, RegA, addr)
    case STX => Store(m, RegX, addr)
    case STY => Store(m, RegY, addr)
  }

  /** Register transfers. */
  function ExecuteTransfers(m: Machine, inst: Instruction, addr: word): (r: Machine)
    requires FamilyOf(inst.mnemonic) == Transfers
    ensures r.cycles == m.cycles && r.nmi == m.nmi
    ensures r.pc == m.pc
  {
    match inst.mnemonic
    case TAX => Transfer(m, RegA, RegX)
    case TAY => Transfer(m, RegA, RegY)
    case TSX => Transfer(m, RegS, RegX)
    case TXA => Transfer(m, RegX, RegA)
    case TXS => Transfer(m, RegX, RegS)
    case TYA => Transfer(m, RegY, RegA)
  }

  /** Compares and register increments and decrements. */
  function ExecuteCounting(m: Machine, inst: Instruction, addr: word): (r: Machine)
    requires FamilyOf(inst.mnemonic) == Counting
    ensures r.cycles == m.cycles && r.nmi == m.nmi
    ensures r.pc == m.pc
  {
    match inst.mnemonic
    case CMP => Compare(m, RegA, addr)
    case CPX => Compare(m, RegX, addr)
    case CPY => Compare(m, RegY, addr)
    case DEX => Decrement(m, RegX)
    case DEY => Decrement(m, RegY)
    case INX => Increment(m, RegX)
    case INY => Increment(m, RegY)
  }

  /** Arithmetic, logic and BIT. */
  function ExecuteArithmetic(m: Machine, inst: Instruction, addr: word): (r: Machine)
    requires FamilyOf(inst.mnemonic) == Arithmetic
    ensures r.cycles == m.cycles && r.nmi == m.nmi
    ensures r.pc == m.pc
  {
    match inst.mnemonic
    case ADC => AddWithCarry(m, addr)
    case SBC => SubtractWithCarry(m, addr)
    case AND => Logic(m, And(m.a, m.mem[addr]))
    case EOR => Logic(m, Xor(m.a, m.mem[addr]))
    case ORA => Logic(m, Or(m.a, m.mem[addr]))
    case BIT => BitTest(m, addr)
  }

  /** Shifts, rotates and memory increments and decrements. */
  function ExecuteReadModifyWrite(m: Machine, inst: Instruction, addr: word): (r: Machine)
    requires FamilyOf(inst.mnemonic) == ReadModifyWrite
    ensures r.cycles == m.cycles && r.nmi == m.nmi
    ensures r.pc == m.pc
  {
    match inst.mnemonic
    case ASL => ShiftLeft(m, inst.mode, addr)
    case LSR => ShiftRight(m, inst.mode, addr)
    case ROL => RotateLeft(m, inst.mode, addr)
    case ROR => RotateRight(m, inst.mode, addr)
    case INC => StepMemory(m, addr, 1)
    case DEC => StepMemory(m, addr, -1)
  }

  /** Stack operations, jumps, returns and BRK. */
  function ExecuteStackJumps(m: Machine, inst: Instruction, addr: word): (r: Machine)
    requires FamilyOf(inst.mnemonic) == StackJumps
    ensures r.cycles == m.cycles && r.nmi == m.nmi
  {
    match inst.mnemonic
    case PHA => PushStack(m, m.a)
    case PHP => PushStack(m, PackStatus(m.f))
    case PLA => PullAccumulator(m)
    case PLP => PullStatus(m)
    case JMP => m.(pc := addr)
    case JSR => JumpSubroutine(m, addr)
    case RTS => ReturnFromSubroutine(m)
    case RTI => ReturnFromInterrupt(m)
    case BRK => Break(m)
  }

  /** Conditional branches. */
  function ExecuteBranches(m: Machine, inst: Instruction, addr: word): (r: Machine)
    requires FamilyOf(inst.mnemonic) == Branches
    ensures r.cycles == m.cycles && r.nmi == m.nmi
  {
    match inst.mnemonic
    case BCC => Branch(m, !m.f.c, addr)
    case BCS => Branch(m, m.f.c, addr)
    case BEQ => Branch(m, m.f.z, addr)
    case BMI => Branch(m, m.f.n, addr)
    case BNE => Branch(m, !m.f.z, addr)
    case BPL => Branch(m, !m.f.n, addr)
    case BVC => Branch(m, !m.f.v, addr)
    case BVS => Branch(m, m.f.v, addr)
  }

  /** Flag instructions and NOP. */
  function ExecuteFlagOps(m: Machine, inst: Instruction, addr: word): (r: Machine)
    requires FamilyOf(inst.mnemonic) == FlagOps
    ensures r.cycles == m.cycles && r.nmi == m.nmi
    ensures r.pc == m.pc
  {
    m.(f := FlagOp(m.f, inst.mnemonic))
  }

  /** The members of the flag family. */
  lemma FlagOpsMembers(mn: Mnemonic)
    requires FamilyOf(mn) == FlagOps
    ensures mn in {CLC, CLD, CLI, CLV, SEC, SED, SEI, NOP}
  {
  }

  /** The flags after CLC, CLD, CLI, CLV, SEC, SED, SEI or NOP. */
  function FlagOp(f: Flags, mn: Mnemonic): Flags
    requires FamilyOf(mn) == FlagOps
  {
    match mn
    case CLC => f.(c := false)
    case CLD => f
    case CLI => f.(i := false)
    case CLV => f.(v := false)
    case SEC => f.(c := true)
    case SED => f
    case SEI => f.(i := true)
    case NOP => f
  }

  /** The mnemonic switch of `Step`, run after PC has advanced past the instruction. */
  function Execute(m: Machine, inst: Instruction, addr: word): Machine
  {
    match FamilyOf(inst.mnemonic)
    case LoadStore => ExecuteLoadStore(m, inst, addr)
    case Transfers => ExecuteTransfers(m, inst, addr)
    case Counting => ExecuteCounting(m, inst, addr)
    case Arithmetic => ExecuteArithmetic(m, inst, addr)
    case ReadModifyWrite => ExecuteReadModifyWrite(m, inst, addr)
    case StackJumps => ExecuteStackJumps(m, inst, addr)
    case Branches => ExecuteBranches(m, inst, addr)
    case FlagOps => ExecuteFlagOps(m, inst, addr)
  }

  /** The NMI check and the clearing of the NMI line that start every step. */
  function ServiceNmi(m: Machine): Machine
  {
    (if m.nmi then Interrupt(m) else m).(nmi := false)
  }

  /**
   * `Step`: service a pending NMI, fetch and decode, resolve the operand address,
   * advance PC, add the table's cycles, execute. Gives the new state and the
   * cycles returned; an opcode missing from the table returns 0 after the NMI
   * check and changes nothing else.
   */
  function Step(m: Machine): (Machine, int)
  {
    FetchExecute(ServiceNmi(m))
  }

  /** Fetch and decode, then run the decoded entry. */
  function FetchExecute(m: Machine): (Machine, int)
  {
    Run(m, Decode(m.mem[m.pc]))
  }

  /**
   * The rest of `Step` for a decode-table entry: an opcode missing from the
   * table returns 0 and changes nothing; otherwise resolve the operand address,
   * advance PC by the instruction length, add the table's cycles and execute.
   */
  function Run(m: Machine, entry: Option<Instruction>): (Machine, int)
  {
    match entry
    case None => (m, 0)
    case Some(inst) =>
      var addr := OperandAddress(m.mem, m.pc, m.x, m.y, inst.mode);
      (Execute(Advance(m, inst), inst, addr), inst.cycles)
  }

  /** `PC += Length(mode)` and `Cycles += cycles`, before the mnemonic switch. */
  function Advance(m: Machine, inst: Instruction): Machine
  {
    m.(pc := ToWord(m.pc + Length(inst.mode)), cycles := m.cycles + inst.cycles)
  }

  /** The state the constructor leaves: PC from the reset vector, S = 0xFF, P = 0b00100100. */
  function Reset(mem: Ram): Machine
  {
    Machine(0, 0, 0, 0xFF, Read16(mem, 0xFFFC), UnpackStatus(0x24), 0, false, mem)
  }
}
