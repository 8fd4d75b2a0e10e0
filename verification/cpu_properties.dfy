/**
 * Properties of the 6502 semantics in module Mos6502: the packed status byte,
 * the page-wrapping pointer read, the addressing modes, the stack, ADC, SBC,
 * the compares and the phases of `Step`.
 */
module CpuProperties {
  import opened Bits
  import opened Opcodes
  import opened Mos6502

  // ---------------------------------------------------------------------------
  // The status byte P
  // ---------------------------------------------------------------------------

  /** Bits 0-4 of the packed byte are exactly C, Z, I, D and B. */
  lemma StatusLowBits(f: Flags)
    ensures Bit(PackStatus(f), 0) == f.c
    ensures Bit(PackStatus(f), 1) == f.z
    ensures Bit(PackStatus(f), 2) == f.i
    ensures Bit(PackStatus(f), 3) == f.d
    ensures Bit(PackStatus(f), 4) == f.b
  {
    var c, z, i, d, b := Flag(f.c, 1), Flag(f.z, 1), Flag(f.i, 1), Flag(f.d, 1), Flag(f.b, 1);
    var high := 1 + Flag(f.v, 1) + Flag(f.n, 2);
    assert Flag(f.z, 2) == 2 * z && Flag(f.i, 4) == 4 * i && Flag(f.d, 8) == 8 * d;
    assert Flag(f.b, 0x10) == 0x10 * b && 0x20 + Flag(f.v, 0x20) + Flag(f.n, 0x40) == 0x20 * high;
    LowBitsOfSum(c, z, i, d, b, high);
  }

  /** The five low bits of a byte written as a sum of binary digits. */
  lemma LowBitsOfSum(c: nat, z: nat, i: nat, d: nat, b: nat, high: nat)
    requires c < 2 && z < 2 && i < 2 && d < 2 && b < 2 && high < 8
    ensures var p := c + 2 * z + 4 * i + 8 * d + 0x10 * b + 0x20 * high;
      && Bit(p, 0) == (c == 1) && Bit(p, 1) == (z == 1) && Bit(p, 2) == (i == 1)
      && Bit(p, 3) == (d == 1) && Bit(p, 4) == (b == 1)
  {
    var p := c + 2 * z + 4 * i + 8 * d + 0x10 * b + 0x20 * high;
    assert p / 2 == z + 2 * i + 4 * d + 8 * b + 0x10 * high;
    assert p / 4 == i + 2 * d + 4 * b + 8 * high;
    assert p / 8 == d + 2 * b + 4 * high;
    assert p / 0x10 == b + 2 * high;
  }

  /**
   * Writing back what the getter returns (`P = P`) keeps C, Z, I, D and B but
   * not V and N: V lands on bit 6 and V with N on bit 7, so the setter reads
   * back V xor N as V and V and N as N.
   */
  lemma StatusRoundTrip(f: Flags)
    ensures UnpackStatus(PackStatus(f)) == f.(v := f.v != f.n, n := f.v && f.n)
  {
    StatusLowBits(f);
    var low := Flag(f.c, 1) + Flag(f.z, 2) + Flag(f.i, 4) + Flag(f.d, 8) + Flag(f.b, 0x10);
    HighBitsOfSum(low, f.v, f.n);
  }

  /**
   * A reset CPU: of the seven flags only I is set, and the status getter
   * reads back the 0b00100100 the constructor stored.
   */
  lemma ResetFlags(mem: Ram)
    ensures Reset(mem).f == Flags(false, false, true, false, false, false, false)
    ensures PackStatus(Reset(mem).f) == 0x24
    ensures var m := Reset(mem);
      m.a == 0 && m.x == 0 && m.y == 0 && m.s == 0xFF && m.cycles == 0 && !m.nmi
      && m.pc == mem[0xFFFC] as int + 0x100 * (mem[0xFFFD] as int)
  {
  }

  lemma HighBitsOfSum(low: nat, v: bool, n: bool)
    requires low < 0x20
    ensures var p := low + 0x20 + Flag(v, 0x20) + Flag(n, 0x40);
      p < 0x100 && Bit(p, 5) == !v && Bit(p, 6) == (v != n) && Bit(p, 7) == (v && n)
  {
    var p := low + 0x20 + Flag(v, 0x20) + Flag(n, 0x40);
    if v && n {
      assert p / 0x20 == 4 && p / 0x40 == 2 && p / 0x80 == 1;
    } else if v {
      assert p / 0x20 == 2 && p / 0x40 == 1 && p / 0x80 == 0;
    } else if n {
      assert p / 0x20 == 3 && p / 0x40 == 1 && p / 0x80 == 0;
    } else {
      assert p / 0x20 == 1 && p / 0x40 == 0 && p / 0x80 == 0;
    }
  }

  /** Bit 5, the reserved bit of the 6502, reads as set exactly when V is clear. */
  lemma StatusReservedBit(f: Flags)
    ensures Bit(PackStatus(f), 5) == !f.v
  {
    var low := Flag(f.c, 1) + Flag(f.z, 2) + Flag(f.i, 4) + Flag(f.d, 8) + Flag(f.b, 0x10);
    HighBitsOfSum(low, f.v, f.n);
  }

  /** PHP followed by PLP: S is back where it was and the flags come back through the getter's quirk. */
  lemma PushPullStatus(m: Machine)
    ensures var after := PullStatus(PushStack(m, PackStatus(m.f)));
      after.s == m.s && after.f == m.f.(v := m.f.v != m.f.n, n := m.f.v && m.f.n)
  {
    StatusRoundTrip(m.f);
  }

  // ---------------------------------------------------------------------------
  // Pointer reads and addressing modes
  // ---------------------------------------------------------------------------

  /**
   * The high byte of `Read16WrapPage` always comes from the pointer's own page:
   * from the next address, or from the start of the page when the low byte is 0xFF.
   */
  lemma WrapPageHighByte(mem: Ram, address: word)
    ensures Read16WrapPage(mem, address) % 0x100 == mem[address]
    ensures Read16WrapPage(mem, address) / 0x100
         == mem[address - address % 0x100 + (address % 0x100 + 1) % 0x100]
    ensures address % 0x100 != 0xFF ==> Read16WrapPage(mem, address) == Read16(mem, address)
  {
  }

  /** The indirect-JMP bug on a pointer at 0x30FF. */
  lemma WrapPageExample(mem: Ram)
    requires mem[0x30FF] == 0x80 && mem[0x3000] == 0x90 && mem[0x3100] == 0x12
    ensures Read16WrapPage(mem, 0x30FF) == 0x9080
    ensures Read16(mem, 0x30FF) == 0x1280
  {
  }

  /** Zero-page modes address page 0. */
  lemma ZeroPageModes(mem: Ram, pc: word, x: byte, y: byte, mode: AddressMode)
    requires mode == ZeroPage || mode == ZeroPageX || mode == ZeroPageY
    ensures OperandAddress(mem, pc, x, y, mode) < 0x100
  {
  }

  /** (zp,X): both bytes of the pointer are read from page 0, wrapping within it. */
  lemma IndirectXPointerInPageZero(mem: Ram, pc: word, x: byte, y: byte)
    ensures var ptr: int := (mem[ToWord(pc + 1)] + x) % 0x100;
      OperandAddress(mem, pc, x, y, IndirectX) == MakeWord(mem[(ptr + 1) % 0x100], mem[ptr])
  {
    var ptr: int := (mem[ToWord(pc + 1)] + x) % 0x100;
    assert OperandAddress(mem, pc, x, y, IndirectX) == Read16WrapPage(mem, ptr);
    if ptr == 0xFF {
      assert Read16WrapPage(mem, ptr) == MakeWord(mem[0], mem[ptr]);
    } else {
      assert Read16WrapPage(mem, ptr) == MakeWord(mem[ptr + 1], mem[ptr]);
    }
  }

  /** (zp),Y: the pointer is read from page 0 and Y is added modulo 2^16. */
  lemma IndirectYWraps(mem: Ram, pc: word, x: byte, y: byte)
    ensures var ptr: int := mem[ToWord(pc + 1)];
      OperandAddress(mem, pc, x, y, IndirectY)
      == (MakeWord(mem[(ptr + 1) % 0x100], mem[ptr]) + y) % 0x1_0000
  {
  }

  /**
   * A relative branch reaches from 126 bytes before to 129 bytes after the
   * branch opcode, modulo 2^16.
   */
  lemma RelativeReach(mem: Ram, pc: word, x: byte, y: byte)
    ensures var target := OperandAddress(mem, pc, x, y, Relative);
      (target - pc + 0x7E) % 0x1_0000 <= 0xFF
    ensures mem[ToWord(pc + 1)] < 0x80 ==>
      OperandAddress(mem, pc, x, y, Relative) == (pc + 2 + mem[ToWord(pc + 1)]) % 0x1_0000
    ensures mem[ToWord(pc + 1)] >= 0x80 ==>
      OperandAddress(mem, pc, x, y, Relative) == (pc + 2 + mem[ToWord(pc + 1)] - 0x100) % 0x1_0000
  {
  }

  // ---------------------------------------------------------------------------
  // The stack in page $0100
  // ---------------------------------------------------------------------------

  /** A push writes only the stack slot 0x0100 + S. */
  lemma PushWritesStackPage(m: Machine, data: byte, a: word)
    ensures PushStack(m, data).mem[a] == if a == 0x100 + m.s then data else m.mem[a]
    ensures PushStack(m, data).s == (m.s + 0xFF) % 0x100
  {
  }

  /** A pull returns what the matching push wrote and restores S. */
  lemma PushThenPull(m: Machine, data: byte)
    ensures var (after, value) := PullStack(PushStack(m, data));
      value == data && after.s == m.s && after.mem == m.mem[0x100 + m.s := data]
  {
  }

  /** PushStack16 and PullStack16 round-trip and restore S. */
  lemma PushThenPull16(m: Machine, data: word)
    ensures var (after, value) := PullStack16(PushStack16(m, data));
      value == data && after.s == m.s
  {
    var m1 := PushStack(m, data / 0x100);
    PushThenPull(m1, data % 0x100);
    var (m2, lo) := PullStack(PushStack(m1, data % 0x100));
    assert m2.s == m1.s && m2.mem[0x100 + m.s] == data / 0x100;
  }

  /** Pushes of a sequence of bytes, first to last. */
  function PushAll(m: Machine, data: seq<byte>): Machine
    decreases |data|
  {
    if data == [] then m else PushAll(PushStack(m, data[0]), data[1..])
  }

  /** n pushes lower S by n, modulo 256. */
  lemma {:induction false} PushAllPointer(m: Machine, data: seq<byte>)
    ensures PushAll(m, data).s == (m.s - |data|) % 0x100
    decreases |data|
  {
    if data != [] {
      PushAllPointer(PushStack(m, data[0]), data[1..]);
    }
  }

  /** 256 pushes bring S back: the stack pointer wraps within page 1. */
  lemma StackPointerWraps(m: Machine, data: seq<byte>)
    requires |data| == 0x100
    ensures PushAll(m, data).s == m.s
  {
    PushAllPointer(m, data);
  }

  /** Pushes never write outside page 1. */
  lemma {:induction false} PushAllFrame(m: Machine, data: seq<byte>, a: word)
    requires a < 0x100 || 0x200 <= a
    ensures PushAll(m, data).mem[a] == m.mem[a]
    decreases |data|
  {
    if data != [] {
      PushAllFrame(PushStack(m, data[0]), data[1..], a);
    }
  }

  /** RTS undoes JSR: it pulls the pushed PC - 1, adds 1 and restores S. */
  lemma CallThenReturn(m: Machine, addr: word)
    ensures JumpSubroutine(m, addr).pc == addr
    ensures ReturnFromSubroutine(JumpSubroutine(m, addr)).pc == m.pc
    ensures ReturnFromSubroutine(JumpSubroutine(m, addr)).s == m.s
  {
    var pushed: int := ToWord(m.pc - 1);
    assert ToWord(pushed + 1) == m.pc by {
      if m.pc == 0 { assert pushed == 0xFFFF; } else { assert pushed == m.pc - 1; }
    }
    PushThenPull16(m, pushed);
  }

  /**
   * JSR then RTS: JSR runs after PC has moved past its three bytes, so
   * execution resumes right after the JSR, with S restored.
   */
  lemma SubroutineReturn(m: Machine, inst: Instruction, addr: word)
    requires inst.mnemonic == JSR && inst.mode == Absolute
    ensures var called := Execute(Advance(m, inst), inst, addr);
      called.pc == addr
      && ReturnFromSubroutine(called).pc == ToWord(m.pc + 3)
      && ReturnFromSubroutine(called).s == m.s
  {
    var m1 := Advance(m, inst);
    assert FamilyOf(inst.mnemonic) == StackJumps;
    assert Execute(m1, inst, addr) == JumpSubroutine(m1, addr);
    CallThenReturn(m1, addr);
  }

  // ---------------------------------------------------------------------------
  // ADC, SBC and the compares
  // ---------------------------------------------------------------------------

  /**
   * ADC: C is the unsigned carry out of A + M + C, A the sum modulo 256, V says
   * the signed sum left -128..127, N and Z come from the new A, and nothing
   * else changes.
   */
  lemma AddWithCarryMeaning(m: Machine, addr: word)
    ensures var r := AddWithCarry(m, addr);
      var data := m.mem[addr];
      var carry := Flag(m.f.c, 1);
      && r.a == (m.a + data + carry) % 0x100
      && r.f.c == (m.a + data + carry >= 0x100)
      && r.f.v == !(-0x80 <= Signed(m.a) + Signed(data) + carry < 0x80)
      && r.f.n == (r.a >= 0x80) && r.f.z == (r.a == 0)
      && r.f.(c := m.f.c, v := m.f.v, n := m.f.n, z := m.f.z) == m.f
      && r.(a := m.a, f := m.f) == m
  {
  }

  lemma AddWithCarryExample(m: Machine, addr: word)
    requires m.a == 0x50 && m.mem[addr] == 0x50 && !m.f.c
    ensures var r := AddWithCarry(m, addr);
      r.a == 0xA0 && r.f.v && r.f.n && !r.f.c && !r.f.z
  {
  }

  /**
   * SBC: C says A - M - (1 - C) did not borrow and A becomes that difference
   * modulo 256. V only compares the sign of A with the sign of the result.
   */
  lemma SubtractWithCarryMeaning(m: Machine, addr: word)
    ensures var r := SubtractWithCarry(m, addr);
      var diff := m.a - m.mem[addr] - (1 - Flag(m.f.c, 1));
      && r.a == diff % 0x100
      && r.f.c == (diff >= 0)
      && r.f.v == ((m.a >= 0x80) != (r.a >= 0x80))
      && r.f.n == (r.a >= 0x80) && r.f.z == (r.a == 0)
      && r.f.(c := m.f.c, v := m.f.v, n := m.f.n, z := m.f.z) == m.f
      && r.(a := m.a, f := m.f) == m
  {
  }

  /** Except for V, SBC is ADC of the one's complement of the operand. */
  lemma SubtractIsAddComplement(m: Machine, addr: word)
    ensures var r := SubtractWithCarry(m, addr);
      var s := AddWithCarry(WriteMem(m, addr, 0xFF - m.mem[addr]), addr);
      r.a == s.a && r.f.c == s.f.c && r.f.n == s.f.n && r.f.z == s.f.z
  {
  }

  /**
   * The SBC overflow rule disagrees with signed arithmetic: 0 - 1 with C set is
   * -1, in range, yet V is set because the sign of A changed.
   */
  lemma SubtractOverflowQuirk(m: Machine, addr: word)
    requires m.a == 0 && m.mem[addr] == 1 && m.f.c
    ensures var r := SubtractWithCarry(m, addr);
      r.a == 0xFF && r.f.v && -0x80 <= Signed(m.a) - Signed(m.mem[addr]) < 0x80
  {
  }

  /** CMP, CPX, CPY: C iff reg >= M, Z iff reg == M, N from the byte difference; no register changes. */
  lemma CompareMeaning(m: Machine, r: Reg, addr: word)
    ensures var c := Compare(m, r, addr);
      var reg := GetReg(m, r);
      var data := m.mem[addr];
      && c.f.c == (reg >= data)
      && c.f.z == (reg == data)
      && c.f.n == ((reg - data) % 0x100 >= 0x80)
      && c.f.(c := m.f.c, z := m.f.z, n := m.f.n) == m.f
      && c.(f := m.f) == m
  {
  }

  /** ROL and ROR through the carry undo each other, on the byte and on the carry. */
  lemma RotateRoundTrip(data: byte, carry: bool)
    ensures RotateRightByte(RotateLeftByte(data, carry).0, RotateLeftByte(data, carry).1) == (data, carry)
    ensures RotateLeftByte(RotateRightByte(data, carry).0, RotateRightByte(data, carry).1) == (data, carry)
  {
  }

  // ---------------------------------------------------------------------------
  // Step
  // ---------------------------------------------------------------------------

  /** Pushes leave the interrupt vectors at the top of memory alone. */
  lemma PushKeepsVector(m: Machine, data: byte, address: word)
    requires address >= 0x200 && address < 0xFFFF
    ensures Read16(PushStack(m, data).mem, address) == Read16(m.mem, address)
  {
  }

  /**
   * A pending NMI pushes PC (high byte first), then P; S drops by three; PC
   * comes from $FFFA; I is set and the NMI line is cleared.
   */
  lemma NmiEntry(m: Machine)
    requires m.nmi
    ensures var r := ServiceNmi(m);
      && r.pc == Read16(m.mem, 0xFFFA)
      && r.f == m.f.(i := true)
      && !r.nmi
      && r.s == (m.s - 3) % 0x100
      && r.mem[0x100 + m.s] == m.pc / 0x100
      && r.mem[0x100 + (m.s - 1) % 0x100] == m.pc % 0x100
      && r.mem[0x100 + (m.s - 2) % 0x100] == PackStatus(m.f)
      && r.a == m.a && r.x == m.x && r.y == m.y && r.cycles == m.cycles
  {
    var m1 := PushStack(m, m.pc / 0x100);
    var m2 := PushStack(m1, m.pc % 0x100);
    var m3 := PushStack(m2, PackStatus(m2.f));
    PushKeepsVector(m, m.pc / 0x100, 0xFFFA);
    PushKeepsVector(m1, m.pc % 0x100, 0xFFFA);
    PushKeepsVector(m2, PackStatus(m2.f), 0xFFFA);
  }

  /** Without a pending NMI the check changes nothing. */
  lemma NoNmi(m: Machine)
    requires !m.nmi
    ensures ServiceNmi(m) == m
  {
  }

  /** An opcode missing from the table: `Step` returns 0 and leaves PC and the cycle count alone. */
  lemma UnknownOpcode(m: Machine)
    requires !m.nmi && Decode(m.mem[m.pc]).None?
    ensures Step(m) == (m, 0)
  {
  }

  /** No instruction touches the cycle counter or the NMI line. */
  lemma ExecuteKeepsCounters(m: Machine, inst: Instruction, addr: word)
    ensures Execute(m, inst, addr).cycles == m.cycles
    ensures Execute(m, inst, addr).nmi == m.nmi
  {
  }

  /** Only the stack and jump family and the branches write PC. */
  lemma ExecuteKeepsPc(m: Machine, inst: Instruction, addr: word)
    requires FamilyOf(inst.mnemonic) != StackJumps && FamilyOf(inst.mnemonic) != Branches
    ensures Execute(m, inst, addr).pc == m.pc
  {
  }

  /**
   * A decoded instruction: `Step` adds the table's cycles to the counter and
   * returns them; outside jumps and branches PC ends past the instruction.
   */
  lemma KnownOpcode(m: Machine, inst: Instruction)
    requires !m.nmi && Decode(m.mem[m.pc]) == Some(inst)
    ensures 1 <= Step(m).1 == inst.cycles <= 7
    ensures Step(m).0.cycles == m.cycles + inst.cycles
    ensures FamilyOf(inst.mnemonic) != StackJumps && FamilyOf(inst.mnemonic) != Branches ==>
      Step(m).0.pc == (m.pc + Length(inst.mode)) % 0x1_0000
  {
    var addr := OperandAddress(m.mem, m.pc, m.x, m.y, inst.mode);
    ExecuteKeepsCounters(Advance(m, inst), inst, addr);
    if FamilyOf(inst.mnemonic) != StackJumps && FamilyOf(inst.mnemonic) != Branches {
      ExecuteKeepsPc(Advance(m, inst), inst, addr);
    }
  }

  /** TXS copies X into S and, unlike the 6502, updates N and Z. */
  lemma TransferToStackSetsFlags(m: Machine, inst: Instruction, addr: word)
    requires inst.mnemonic == TXS
    ensures Execute(m, inst, addr) == m.(s := m.x, f := m.f.(n := m.x >= 0x80, z := m.x == 0))
  {
  }

  /** BRK pushes P before it sets B, so the pushed byte carries the old B. */
  lemma BreakPushesOldB(m: Machine)
    ensures var r := Break(m);
      && r.mem[0x100 + (m.s - 2) % 0x100] == PackStatus(m.f)
      && Bit(r.mem[0x100 + (m.s - 2) % 0x100], 4) == m.f.b
      && r.f == m.f.(b := true)
      && r.pc == Read16(m.mem, 0xFFFE)
  {
    var m1 := PushStack(m, m.pc / 0x100);
    var m2 := PushStack(m1, m.pc % 0x100);
    PushKeepsVector(m, m.pc / 0x100, 0xFFFE);
    PushKeepsVector(m1, m.pc % 0x100, 0xFFFE);
    PushKeepsVector(m2, PackStatus(m2.f), 0xFFFE);
    StatusLowBits(m.f);
  }

  /** Table entries kept as written: $19 with ZeroPageY, $91 with 2 cycles, $EA with 1 cycle. */
  lemma TableAsWritten()
    ensures Decode(0x19) == Some(Instruction(ORA, ZeroPageY, 4))
    ensures Decode(0x91) == Some(Instruction(STA, IndirectY, 2))
    ensures Decode(0xEA) == Some(Instruction(NOP, Implied, 1))
  {
  }
}
