/**
 * The emulator's CPU object (NesEmu/CPU.cs): register fields and flag booleans
 * that `Step` updates one after another, running against the abstract 64 KB
 * byte map `mem`. Every method is proved against the matching function of
 * module Mos6502, applied to the state before the call.
 */
module NesCpu {
  import opened Bits
  import opened Opcodes
  import Sem = Mos6502

  class Cpu {
    /** The CPU's view of the bus, one byte per address. */
    const mem: array<byte>

    var Cycles: int
    var A: byte
    var X: byte
    var Y: byte
    var S: byte
    var PC: word
    var C: bool
    var Z: bool
    var I: bool
    var D: bool
    var B: bool
    var V: bool
    var N: bool
    var NMIInterrupt: bool

    predicate Valid()
    {
      mem.Length == 0x1_0000
    }

    /** The whole state as a value of the specification. */
    ghost function State(): Sem.Machine
      reads this, mem
      requires Valid()
    {
      Sem.Machine(A, X, Y, S, PC, Sem.Flags(C, Z, I, D, B, V, N), Cycles, NMIInterrupt, mem[..])
    }

    /** The getter of `P`. */
    function P(): (p: byte)
      reads this
      ensures p == Sem.PackStatus(Sem.Flags(C, Z, I, D, B, V, N))
    {
      (if C then 1 else 0) + (if Z then 2 else 0) + (if I then 4 else 0) + (if D then 8 else 0)
      + (if B then 0x10 else 0) + 0x20 + (if V then 0x20 else 0) + (if N then 0x40 else 0)
    }

    /** The setter of `P`. */
    method SetP(value: byte)
      requires Valid()
      modifies this
      ensures State() == old(State()).(f := Sem.UnpackStatus(value))
    {
      C := Bit(value, 0);
      Z := Bit(value, 1);
      I := Bit(value, 2);
      D := Bit(value, 3);
      B := Bit(value, 4);
      V := Bit(value, 6);
      N := Bit(value, 7);
    }

    constructor (ram: array<byte>)
      requires ram.Length == 0x1_0000
      ensures Valid() && mem == ram
      ensures State() == Sem.Reset(ram[..])
    {
      mem := ram;
      A, X, Y := 0, 0, 0;
      PC := Sem.Read16(ram[..], 0xFFFC);
      Cycles := 0;
      S := 0xFF;
      new;
      SetP(0x24);
      NMIInterrupt := false;
    }

    function Get(r: Sem.Reg): (value: byte)
      reads this
      requires Valid()
      ensures value == Sem.GetReg(State(), r)
    {
      match r
      case RegA => A
      case RegX => X
      case RegY => Y
      case RegS => S
    }

    /** Assignment through a `ref byte` parameter. */
    method Set(r: Sem.Reg, value: byte)
      requires Valid()
      modifies this
      ensures State() == Sem.SetReg(old(State()), r, value)
    {
      match r
      case RegA => A := value;
      case RegX => X := value;
      case RegY => Y := value;
      case RegS => S := value;
    }

    method UpdateNZ(value: byte)
      requires Valid()
      modifies this
      ensures State() == Sem.UpdateNZ(old(State()), value)
    {
      N := value >= 0x80;
      Z := value == 0;
    }

    method Write(addr: word, data: byte)
      requires Valid()
      modifies mem
      ensures State() == Sem.WriteMem(old(State()), addr, data)
    {
      mem[addr] := data;
    }

    method PushStack(data: byte)
      requires Valid()
      modifies this, mem
      ensures State() == Sem.PushStack(old(State()), data)
    {
      mem[0x100 + S] := data;
      S := ToByte(S - 1);
    }

    method PullStack() returns (data: byte)
      requires Valid()
      modifies this
      ensures (State(), data) == Sem.PullStack(old(State()))
    {
      S := ToByte(S + 1);
      data := mem[0x100 + S];
    }

    method PushStack16(data: word)
      requires Valid()
      modifies this, mem
      ensures State() == Sem.PushStack16(old(State()), data)
    {
      PushStack(data / 0x100);
      PushStack(data % 0x100);
    }

    method PullStack16() returns (data: word)
      requires Valid()
      modifies this
      ensures (State(), data) == Sem.PullStack16(old(State()))
    {
      var lo := PullStack();
      var hi := PullStack();
      data := MakeWord(hi, lo);
    }

    method Load(r: Sem.Reg, addr: word)
      requires Valid()
      modifies this
      ensures State() == Sem.Load(old(State()), r, addr)
    {
      Set(r, mem[addr]);
      UpdateNZ(mem[addr]);
    }

    method Store(r: Sem.Reg, addr: word)
      requires Valid()
      modifies mem
      ensures State() == Sem.Store(old(State()), r, addr)
    {
      Write(addr, Get(r));
    }

    method Transfer(src: Sem.Reg, dst: Sem.Reg)
      requires Valid()
      modifies this
      ensures State() == Sem.Transfer(old(State()), src, dst)
    {
      var value := Get(src);
      Set(dst, value);
      UpdateNZ(value);
    }

    method Compare(r: Sem.Reg, addr: word)
      requires Valid()
      modifies this
      ensures State() == Sem.Compare(old(State()), r, addr)
    {
      var diff := Get(r) - mem[addr];
      C := diff >= 0;
      UpdateNZ(ToByte(diff));
    }

    method Increment(r: Sem.Reg)
      requires Valid()
      modifies this
      ensures State() == Sem.Increment(old(State()), r)
    {
      var value := ToByte(Get(r) + 1);
      Set(r, value);
      UpdateNZ(value);
    }

    method Decrement(r: Sem.Reg)
      requires Valid()
      modifies this
      ensures State() == Sem.Decrement(old(State()), r)
    {
      var value := ToByte(Get(r) - 1);
      Set(r, value);
      UpdateNZ(value);
    }

    method Branch(taken: bool, addr: word)
      requires Valid()
      modifies this
      ensures State() == Sem.Branch(old(State()), taken, addr)
    {
      if taken {
        PC := addr;
      }
    }

    method AddWithCarry(addr: word)
      requires Valid()
      modifies this
      ensures State() == Sem.AddWithCarry(old(State()), addr)
    {
      var data := mem[addr];
      var sum := A + data + (if C then 1 else 0);
      var result := ToByte(sum);
      C := sum > 0xFF;
      V := ((A >= 0x80) == (data >= 0x80)) && ((A >= 0x80) != (result >= 0x80));
      A := result;
      UpdateNZ(result);
    }

    method SubtractWithCarry(addr: word)
      requires Valid()
      modifies this
      ensures State() == Sem.SubtractWithCarry(old(State()), addr)
    {
      var data := mem[addr];
      var sub := A - data - (if C then 0 else 1);
      var result := ToByte(sub);
      C := sub >= 0;
      V := (A >= 0x80) != (result >= 0x80);
      A := result;
      UpdateNZ(result);
    }

    /** The operand of ASL, LSR, ROL and ROR: A in Accumulator mode, else memory. */
    function RmwOperand(mode: AddressMode, addr: word): (data: byte)
      reads this, mem
      requires Valid()
      ensures data == Sem.RmwOperand(State(), mode, addr)
    {
      if mode == Accumulator then A else mem[addr]
    }

    /** Store the result of ASL, LSR, ROL or ROR back where the operand came from. */
    method WriteBack(mode: AddressMode, addr: word, result: byte)
      requires Valid()
      modifies this, mem
      ensures State() == Sem.RmwResult(old(State()), mode, addr, result)
    {
      if mode == Accumulator {
        A := result;
      } else {
        Write(addr, result);
      }
      UpdateNZ(result);
    }

    method ShiftLeft(mode: AddressMode, addr: word)
      requires Valid()
      modifies this, mem
      ensures State() == Sem.ShiftLeft(old(State()), mode, addr)
    {
      var data: int := RmwOperand(mode, addr);
      C := data >= 0x80;
      WriteBack(mode, addr, (data * 2) % 0x100);
    }

    method ShiftRight(mode: AddressMode, addr: word)
      requires Valid()
      modifies this, mem
      ensures State() == Sem.ShiftRight(old(State()), mode, addr)
    {
      var data := RmwOperand(mode, addr);
      C := data % 2 == 1;
      WriteBack(mode, addr, data / 2);
    }

    method RotateLeft(mode: AddressMode, addr: word)
      requires Valid()
      modifies this, mem
      ensures State() == Sem.RotateLeft(old(State()), mode, addr)
    {
      var rotated := Sem.RotateLeftByte(RmwOperand(mode, addr), C);
      C := rotated.1;
      WriteBack(mode, addr, rotated.0);
    }

    method RotateRight(mode: AddressMode, addr: word)
      requires Valid()
      modifies this, mem
      ensures State() == Sem.RotateRight(old(State()), mode, addr)
    {
      var rotated := Sem.RotateRightByte(RmwOperand(mode, addr), C);
      C := rotated.1;
      WriteBack(mode, addr, rotated.0);
    }

    /** INC and DEC on memory. */
    method StepMemory(addr: word, delta: int)
      requires Valid()
      modifies this, mem
      ensures State() == Sem.StepMemory(old(State()), addr, delta)
    {
      var data := ToByte(mem[addr] + delta);
      Write(addr, data);
      UpdateNZ(data);
    }

    method Logic(result: byte)
      requires Valid()
      modifies this
      ensures State() == Sem.Logic(old(State()), result)
    {
      A := result;
      UpdateNZ(A);
    }

    method BitTest(addr: word)
      requires Valid()
      modifies this
      ensures State() == Sem.BitTest(old(State()), addr)
    {
      var data := mem[addr];
      N := Bit(data, 7);
      V := Bit(data, 6);
      Z := And(data, A) == 0;
    }

    method PullAccumulator()
      requires Valid()
      modifies this
      ensures State() == Sem.PullAccumulator(old(State()))
    {
      A := PullStack();
      UpdateNZ(A);
    }

    method PullStatus()
      requires Valid()
      modifies this
      ensures State() == Sem.PullStatus(old(State()))
    {
      var p := PullStack();
      SetP(p);
    }

    method JumpSubroutine(addr: word)
      requires Valid()
      modifies this, mem
      ensures State() == Sem.JumpSubroutine(old(State()), addr)
    {
      PushStack16(ToWord(PC - 1));
      PC := addr;
    }

    method ReturnFromSubroutine()
      requires Valid()
      modifies this
      ensures State() == Sem.ReturnFromSubroutine(old(State()))
    {
      var ret: int := PullStack16();
      PC := ToWord(ret + 1);
    }

    method ReturnFromInterrupt()
      requires Valid()
      modifies this
      ensures State() == Sem.ReturnFromInterrupt(old(State()))
    {
      PullStatus();
      PC := PullStack16();
    }

    method Break()
      requires Valid()
      modifies this, mem
      ensures State() == Sem.Break(old(State()))
    {
      PushStack16(PC);
      PushStack(P());
      B := true;
      PC := Sem.Read16(mem[..], 0xFFFE);
    }

    method Interrupt()
      requires Valid()
      modifies this, mem
      ensures State() == Sem.Interrupt(old(State()))
    {
      PushStack16(PC);
      PushStack(P());
      PC := Sem.Read16(mem[..], 0xFFFA);
      I := true;
    }

    /** Loads and stores. */
    method ExecuteLoadStore(inst: Instruction, addr: word)
      requires Valid() && Sem.FamilyOf(inst.mnemonic) == Sem.LoadStore
      modifies this, mem
      ensures State() == Sem.ExecuteLoadStore(old(State()), inst, addr)
    {
      match inst.mnemonic
      case LDA => Load(Sem.RegA, addr);
      case LDX => Load(Sem.RegX, addr);
      case LDY => Load(Sem.RegY, addr);
      case STA => Store(Sem.RegA, addr);
      case STX => Store(Sem.RegX, addr);
      case STY => Store(Sem.RegY, addr);
    }

    /** Register transfers. */
    method ExecuteTransfers(inst: Instruction, addr: word)
      requires Valid() && Sem.FamilyOf(inst.mnemonic) == Sem.Transfers
      modifies this, mem
      ensures State() == Sem.ExecuteTransfers(old(State()), inst, addr)
    {
      match inst.mnemonic
      case TAX => Transfer(Sem.RegA, Sem.RegX);
      case TAY => Transfer(Sem.RegA, Sem.RegY);
      case TSX => Transfer(Sem.RegS, Sem.RegX);
      case TXA => Transfer(Sem.RegX, Sem.RegA);
      case TXS => Transfer(Sem.RegX, Sem.RegS);
      case TYA => Transfer(Sem.RegY, Sem.RegA);
    }

    /** Compares and register increments and decrements. */
    method ExecuteCounting(inst: Instruction, addr: word)
      requires Valid() && Sem.FamilyOf(inst.mnemonic) == Sem.Counting
      modifies this, mem
      ensures State() == Sem.ExecuteCounting(old(State()), inst, addr)
    {
      match inst.mnemonic
      case CMP => Compare(Sem.RegA, addr);
      case CPX => Compare(Sem.RegX, addr);
      case CPY => Compare(Sem.RegY, addr);
      case DEX => Decrement(Sem.RegX);
      case DEY => Decrement(Sem.RegY);
      case INX => Increment(Sem.RegX);
      case INY => Increment(Sem.RegY);
    }

    /** Arithmetic, logic and BIT. */
    method ExecuteArithmetic(inst: Instruction, addr: word)
      requires Valid() && Sem.FamilyOf(inst.mnemonic) == Sem.Arithmetic
      modifies this, mem
      ensures State() == Sem.ExecuteArithmetic(old(State()), inst, addr)
    {
      match inst.mnemonic
      case ADC => AddWithCarry(addr);
      case SBC => SubtractWithCarry(addr);
      case AND => Logic(And(A, mem[addr]));
      case EOR => Logic(Xor(A, mem[addr]));
      case ORA => Logic(Or(A, mem[addr]));
      case BIT => BitTest(addr);
    }

    /** Shifts, rotates and memory increments and decrements. */
    method ExecuteReadModifyWrite(inst: Instruction, addr: word)
      requires Valid() && Sem.FamilyOf(inst.mnemonic) == Sem.ReadModifyWrite
      modifies this, mem
      ensures State() == Sem.ExecuteReadModifyWrite(old(State()), inst, addr)
    {
      match inst.mnemonic
      case ASL => ShiftLeft(inst.mode, addr);
      case LSR => ShiftRight(inst.mode, addr);
      case ROL => RotateLeft(inst.mode, addr);
      case ROR => RotateRight(inst.mode, addr);
      case INC => StepMemory(addr, 1);
      case DEC => StepMemory(addr, -1);
    }

    /** Stack operations, jumps, returns and BRK. */
    method ExecuteStackJumps(inst: Instruction, addr: word)
      requires Valid() && Sem.FamilyOf(inst.mnemonic) == Sem.StackJumps
      modifies this, mem
      ensures State() == Sem.ExecuteStackJumps(old(State()), inst, addr)
    {
      match inst.mnemonic
      case PHA => PushStack(A);
      case PHP => PushStack(P());
      case PLA => PullAccumulator();
      case PLP => PullStatus();
      case JMP => PC := addr;
      case JSR => JumpSubroutine(addr);
      case RTS => ReturnFromSubroutine();
      case RTI => ReturnFromInterrupt();
      case BRK => Break();
    }

    /** Conditional branches. */
    method ExecuteBranches(inst: Instruction, addr: word)
      requires Valid() && Sem.FamilyOf(inst.mnemonic) == Sem.Branches
      modifies this, mem
      ensures State() == Sem.ExecuteBranches(old(State()), inst, addr)
    {
      match inst.mnemonic
      case BCC => Branch(!C, addr);
      case BCS => Branch(C, addr);
      case BEQ => Branch(Z, addr);
      case BMI => Branch(N, addr);
      case BNE => Branch(!Z, addr);
      case BPL => Branch(!N, addr);
      case BVC => Branch(!V, addr);
      case BVS => Branch(V, addr);
    }

    /** Flag instructions and NOP. */
    method ExecuteFlagOps(inst: Instruction, addr: word)
      requires Valid() && Sem.FamilyOf(inst.mnemonic) == Sem.FlagOps
      modifies this
      ensures State() == Sem.ExecuteFlagOps(old(State()), inst, addr)
    {
      Sem.FlagOpsMembers(inst.mnemonic);
      match inst.mnemonic
      case CLC => C := false;
      case CLD =>
      case CLI => I := false;
      case CLV => V := false;
      case SEC => C := true;
      case SED =>
      case SEI => I := true;
      case NOP =>
    }

    /** The mnemonic switch of `Step`. */
    method Execute(inst: Instruction, addr: word)
      requires Valid()
      modifies this, mem
      ensures State() == Sem.Execute(old(State()), inst, addr)
    {
      match Sem.FamilyOf(inst.mnemonic)
      case LoadStore => ExecuteLoadStore(inst, addr);
      case Transfers => ExecuteTransfers(inst, addr);
      case Counting => ExecuteCounting(inst, addr);
      case Arithmetic => ExecuteArithmetic(inst, addr);
      case ReadModifyWrite => ExecuteReadModifyWrite(inst, addr);
      case StackJumps => ExecuteStackJumps(inst, addr);
      case Branches => ExecuteBranches(inst, addr);
      case FlagOps => ExecuteFlagOps(inst, addr);
    }

    /** The NMI check at the top of `Step`. */
    method ServiceNmi()
      requires Valid()
      modifies this, mem
      ensures State() == Sem.ServiceNmi(old(State()))
    {
      if NMIInterrupt {
        Interrupt();
      }
      NMIInterrupt := false;
    }

    /** One instruction; returns the cycles it costs (0 for an opcode missing from the table). */
    method Step() returns (cycles: int)
      requires Valid()
      modifies this, mem
      ensures (State(), cycles) == Sem.Step(old(State()))
    {
      ServiceNmi();
      cycles := FetchExecute();
    }

    /** The part of `Step` after the NMI check. */
    method FetchExecute() returns (cycles: int)
      requires Valid()
      modifies this, mem
      ensures (State(), cycles) == Sem.FetchExecute(old(State()))
    {
      var entry := Decode(mem[PC]);
      cycles := Run(entry);
    }

    /** Run one decode-table entry. */
    method Run(entry: Option<Instruction>) returns (cycles: int)
      requires Valid()
      modifies this, mem
      ensures (State(), cycles) == Sem.Run(old(State()), entry)
    {
      if entry.None? {
        return 0;
      }
      var inst := entry.value;
      var addr := Sem.OperandAddress(mem[..], PC, X, Y, inst.mode);
      Advance(inst);
      Execute(inst, addr);
      cycles := inst.cycles;
    }

    method Advance(inst: Instruction)
      requires Valid()
      modifies this
      ensures State() == Sem.Advance(old(State()), inst)
    {
      PC := ToWord(PC + Length(inst.mode));
      Cycles := Cycles + inst.cycles;
    }
  }
}
