/** The effect of single core cycles from the operand of an instruction to its end. */
module CpuFinish {
  import opened Bytes
  import opened Opcodes
  import opened RegisterFile
  import opened Isa
  import opened CpuCore
  import opened CpuSteps
  import D = CpuDecode

  // ---------------------------------------------------------------------------------------------
  // Fetching the next opcode
  // ---------------------------------------------------------------------------------------------

  /** The last cycle of an instruction that overlaps with the fetch of the next opcode: next is the
      address of that opcode.  With a request pending the opcode is dropped and PC stays on it. */
  lemma Prefetch(q: Core, r: Service, k: Control, next: Word)
    requires DecodeRom(q) == k && NextT(q, Alu(k, q).carry) == 1
    requires k == Control(pc := LoadPrgByte, op := k.op, s := k.s) && !k.s.AluincToS?
    requires Pc(q) == next == Address(q)
    ensures Boundary(Cycle(q, r), Arch(Cycle(q, r).r, next, q.mem), r)
  {
    hide OpcodeOf, DecodeRom, NextT, Add16, Hi, Lo, ToWord, Alu, DbOut, SbOut, NextRegisters;
    Halves(next);
    Halves(Add16(next, 1));
  }

  lemma FetchOpcode(q: Core, a: Arch, r: Service)
    requires AtFetch(q, a)
    ensures Boundary(Cycle(q, r), a, r)
  {
    hide OpcodeOf, Add16, Hi, Lo, ToWord;
    Halves(a.pc);
    Halves(Add16(a.pc, 1));
  }

  /** A cycle that leaves the buses to the outside and PC alone. */
  lemma InternalCycle(q: Core, r: Service, k: Control, t: nat)
    requires DecodeRom(q) == k == Control(op := k.op, ai := k.ai, bi := k.bi, line := k.line) && NextT(q, Alu(k, q).carry) == t != 1
    ensures var p := Cycle(q, r);
      p.t == t && p.ir == q.ir && p.service == q.service && p.mem == q.mem && Pc(p) == Pc(q) &&
      Address(p) == Address(q) && (k.op.NoOp? ==> p.r == q.r)
  {
    hide OpcodeOf, DecodeRom, NextT, Hi, Lo, ToWord, Alu, DbOut, SbOut, AdhOut, NextRegisters;
    Halves(Pc(q));
  }

  // ---------------------------------------------------------------------------------------------
  // Loads and stores
  // ---------------------------------------------------------------------------------------------

  /** Stepping over the last byte of an instruction. */
  lemma LengthStep(a: Arch, mode: Mode)
    ensures Add16(At(a, Length(mode) - 1), 1) == Next(a, mode).pc
    ensures ToWord(Hi(Next(a, mode).pc), Lo(Next(a, mode).pc)) == Next(a, mode).pc
  {
    Add16Adds(a.pc, Length(mode) - 1, 1);
  }

  /** A cycle that puts the next program address on the bus. */
  lemma ProgramByte(q: Core, r: Service, k: Control, t: nat, next: Word)
    requires DecodeRom(q) == k && NextT(q, Alu(k, q).carry) == t != 1
    requires k == Control(pc := LoadPrgByte, op := k.op, ai := k.ai, bi := k.bi, p := k.p, write := k.write)
    requires !k.ai.OneToAi? && !k.bi.AluincToBi? && !k.bi.AlusumToBi? && !k.p.OneToI?
    requires Add16(Pc(q), 1) == next
    ensures var p := Cycle(q, r);
      p.t == t && p.ir == q.ir && p.service == q.service && Pc(p) == next == Address(p) &&
      p.mem == (if k.write then q.mem[Address(q) := q.dor] else q.mem) &&
      (k.op.NoOp? && k.p.NoP? ==> p.r == q.r)
  {
    hide OpcodeOf, DecodeRom, NextT, Add16, Hi, Lo, ToWord, Alu, DbOut, SbOut, NextRegisters;
    Halves(next);
  }

  function LoadRegister(r: Registers, to: Register, m: Byte): Registers {
    match to
    case A => LoadA(r, m)
    case X => LoadX(r, m)
    case Y => LoadY(r, m)
    case S => r
  }

  lemma LoadRegisters(q: Core, r: Service, k: Control)
    requires DecodeRom(q) == k == Control(pc := LoadPrgByte, op := k.op) && k.op.LoadOp? && !k.op.to.S?
    ensures Cycle(q, r).r == LoadRegister(q.r, k.op.to, q.mem[Address(q)])
  {
    hide OpcodeOf, DecodeRom, NextT, Add16, Hi, Lo, ToWord, Alu, AdhOut, Adl;
  }

  lemma Load(q: Core, a: Arch, o: Opcode, r: Service)
    requires D.MemoryOpcode(o) && IsLoad(o.op) && OperandReady(q, a, o)
    ensures AtFetch(Cycle(q, r), ExecMemory(a, o.op, o.mode))
  {
    hide OpcodeOf, DecodeRom, NextT, Cycle, Alu, Add16, EffectiveAddress, Legal, Length, LoadA, LoadX, LoadY;
    var k := DecodeRom(q);
    D.Operand(q, Alu(k, q).carry);
    LengthStep(a, o.mode);
    ProgramByte(q, r, k, 0, Next(a, o.mode).pc);
    LoadRegisters(q, r, k);
  }

  lemma Store(q: Core, a: Arch, o: Opcode, r: Service)
    requires D.MemoryOpcode(o) && IsStore(o.op) && OperandReady(q, a, o)
    ensures AtFetch(Cycle(q, r), ExecMemory(a, o.op, o.mode))
  {
    hide OpcodeOf, DecodeRom, NextT, Cycle, Alu, Add16, EffectiveAddress, Legal, StoreValue, Length;
    var k := DecodeRom(q);
    D.Operand(q, Alu(k, q).carry);
    LengthStep(a, o.mode);
    ProgramByte(q, r, k, 0, Next(a, o.mode).pc);
  }

  // ---------------------------------------------------------------------------------------------
  // ALU instructions
  // ---------------------------------------------------------------------------------------------

  function AluLeft(r: Registers, op: Op): Byte {
    match op
    case CPX => r.x
    case CPY => r.y
    case _ => r.ac
  }

  function AluRight(op: Op, m: Byte): Byte {
    match op
    case CMP | CPX | CPY | SBC => 0xFF - m
    case _ => m
  }

  /** BIT sets two flags before the ALU is used. */
  function EarlyFlags(r: Registers, op: Op, m: Byte): Registers {
    if op.BIT? then r.(n := m >= 0x80, v := Bit(m, 6)) else r
  }

  predicate ResultReady(q: Core, a: Arch, o: Opcode, m: Byte) {
    q.t == D.OperandT(o.mode) + 1 && q.ir == o && q.service.SOFT? && q.mem == a.mem &&
    Pc(q) == Address(q) == Next(a, o.mode).pc &&
    q.r == EarlyFlags(a.r, o.op, m) && q.ai == AluLeft(a.r, o.op) && q.bi == AluRight(o.op, m)
  }

  /** A register goes to one ALU input, the operand or its complement to the other. */
  lemma LatchInputs(q: Core, r: Service, k: Control)
    requires DecodeRom(q) == k == Control(pc := LoadPrgByte, ai := k.ai, bi := k.bi, p := k.p)
    requires (k.ai.AcToAi? || k.ai.XToAi? || k.ai.YToAi?) && (k.bi.DlToBi? || k.bi.InvdlToBi?)
    requires k.p.NoP? || (k.p.DlBits67ToP? && k.bi.DlToBi?)
    ensures var p, m := Cycle(q, r), q.mem[Address(q)];
      p.r == (if k.p.NoP? then q.r else q.r.(n := m >= 0x80, v := Bit(m, 6))) &&
      p.ai == (match k.ai case XToAi => q.r.x case YToAi => q.r.y case _ => q.r.ac) &&
      p.bi == if k.bi.InvdlToBi? then 0xFF - m else m
  {
    hide OpcodeOf, DecodeRom, NextT, Add16, Hi, Lo, ToWord, Bit, And8, Alu, AdhOut, Adl;
  }

  lemma AluOperand(q: Core, a: Arch, o: Opcode, r: Service)
    requires D.MemoryOpcode(o) && IsAlu(o.op) && OperandReady(q, a, o)
    ensures ResultReady(Cycle(q, r), a, o, a.mem[EffectiveAddress(a, o.mode)])
  {
    hide OpcodeOf, DecodeRom, NextT, Cycle, Alu, Add16, EffectiveAddress, Legal, Length, Bit;
    var k := DecodeRom(q);
    D.Operand(q, Alu(k, q).carry);
    LengthStep(a, o.mode);
    ProgramByte(q, r, k, q.t + 1, Next(a, o.mode).pc);
    LatchInputs(q, r, k);
  }

  /** The sign-bit formula of the core is signed overflow. */
  lemma OverflowIsSigned(x: Byte, y: Byte, carry: bool)
    ensures var alu := Add(x, y, carry);
      (alu.overflow <==> !(-0x80 <= Signed(x) + Signed(y) + B(carry) < 0x80)) &&
      alu.out == (x + y + B(carry)) % 0x100 && alu.carry == (x + y + B(carry) >= 0x100)
  {
  }

  /** Adding the complement is subtracting. */
  lemma ComplementSubtracts(x: Byte, m: Byte, carry: bool)
    ensures var alu := Add(x, 0xFF - m, carry);
      alu.out == (x - m - B(!carry)) % 0x100 && alu.carry == (x - m - B(!carry) >= 0) &&
      (carry ==> alu.out == (x - m) % 0x100 && alu.carry == (x >= m)) &&
      Signed(0xFF - m) == -Signed(m) - 1
  {
  }

  /** The ALU result is steady over the cycle. */
  lemma AluSteady(k: Control, q: Core, p: Core)
    requires p.ai == q.ai && p.bi == q.bi && p.r == q.r && p.add == Alu(k, q).out
    ensures Alu(k, p) == Alu(k, q)
  {
    hide Add, AluOutput;
  }

  lemma PhaseRegisters(k: Control, t: nat, r: Service, p: Core)
    requires k == Control(pc := k.pc, op := k.op) && k.op.AluOp? && (k.pc.NoPc? || k.pc.LoadPrgByte?)
    ensures var p' := Phase1(k, t, r, p);
      p'.r == NextRegisters(k, Alu(k, p), p.add, p.add, p.r) && p'.dor == p.add
  {
    hide OpcodeOf, NextRegisters, Adl, AdhOut, AdhIn, Alu, And8;
  }

  /** A cycle that latches an ALU result: it reaches the registers and the data output register. */
  lemma AluStep(q: Core, r: Service, k: Control)
    requires DecodeRom(q) == k == Control(pc := k.pc, op := k.op) && k.op.AluOp?
    requires k.pc.NoPc? || k.pc.LoadPrgByte?
    ensures var alu, p := Alu(k, q), Cycle(q, r);
      p.r == NextRegisters(k, alu, alu.out, alu.out, q.r) && p.dor == alu.out
  {
    hide OpcodeOf, DecodeRom, NextT, Add16, Hi, Lo, ToWord, NextRegisters, Phase1, Alu;
    var t := NextT(q, Alu(k, q).carry);
    var p := Phase2(k, t == 1 && !r.SOFT?, q);
    AluSteady(k, q, p);
    PhaseRegisters(k, t, r, p);
  }

  lemma AddRegisters(q: Core, a: Arch, o: Opcode, r: Service, m: Byte)
    requires D.MemoryOpcode(o) && (o.op.ADC? || o.op.SBC?) && ResultReady(q, a, o, m)
    ensures Cycle(q, r).r == ReadOp(a.r, o.op, m)
  {
    hide OpcodeOf, DecodeRom, NextT, Cycle, Legal, Length, Alu, NextRegisters, AddWithCarry, SubWithBorrow;
    D.Result(q, false);
    AluStep(q, r, DecodeRom(q));
    if o.op.ADC? {
      AddStep(DecodeRom(q), q);
    } else {
      SubtractStep(DecodeRom(q), q, m);
    }
  }

  lemma AddStep(k: Control, q: Core)
    requires k == Control(pc := LoadPrgByte, op := AluOp(Adc)) && q.ai == q.r.ac
    ensures var alu := Alu(k, q); NextRegisters(k, alu, alu.out, alu.out, q.r) == AddWithCarry(q.r, q.bi)
  {
    hide Add, Bit, Signed;
    OverflowIsSigned(q.ai, q.bi, q.r.c);
  }

  lemma SubtractStep(k: Control, q: Core, m: Byte)
    requires k == Control(pc := LoadPrgByte, op := AluOp(Adc)) && q.ai == q.r.ac && q.bi == 0xFF - m
    ensures var alu := Alu(k, q); NextRegisters(k, alu, alu.out, alu.out, q.r) == SubWithBorrow(q.r, m)
  {
    hide Add, Bit, Signed;
    OverflowIsSigned(q.ai, q.bi, q.r.c);
    ComplementSubtracts(q.ai, m, q.r.c);
  }

  lemma CompareStep(k: Control, q: Core, m: Byte)
    requires k == Control(pc := LoadPrgByte, op := AluOp(Cmp)) && q.bi == 0xFF - m
    ensures var alu := Alu(k, q); NextRegisters(k, alu, alu.out, alu.out, q.r) == Compare(q.r, q.ai, m)
  {
    hide Add, Bit;
    ComplementSubtracts(q.ai, m, true);
  }

  lemma CompareRegisters(q: Core, a: Arch, o: Opcode, r: Service, m: Byte)
    requires D.MemoryOpcode(o) && (o.op.CMP? || o.op.CPX? || o.op.CPY?) && ResultReady(q, a, o, m)
    ensures Cycle(q, r).r == ReadOp(a.r, o.op, m)
  {
    hide OpcodeOf, DecodeRom, NextT, Cycle, Legal, Length, Alu, NextRegisters, Compare;
    D.Result(q, false);
    AluStep(q, r, DecodeRom(q));
    CompareStep(DecodeRom(q), q, m);
  }

  lemma LogicRegisters(q: Core, a: Arch, o: Opcode, r: Service, m: Byte)
    requires D.MemoryOpcode(o) && (o.op.AND? || o.op.ORA? || o.op.EOR?) && ResultReady(q, a, o, m)
    ensures Cycle(q, r).r == ReadOp(a.r, o.op, m)
  {
    hide OpcodeOf, DecodeRom, NextT, Cycle, Legal, Length, And8, Or8, Xor8, Add;
    D.Result(q, false);
    AluStep(q, r, DecodeRom(q));
  }

  lemma BitRegisters(q: Core, a: Arch, o: Opcode, r: Service, m: Byte)
    requires D.MemoryOpcode(o) && o.op.BIT? && ResultReady(q, a, o, m)
    ensures Cycle(q, r).r == BitTest(a.r, m)
  {
    hide OpcodeOf, DecodeRom, NextT, Cycle, Legal, Length, And8, Bit;
    D.Result(q, false);
    AluStep(q, r, DecodeRom(q));
  }

  lemma AluRegisters(q: Core, a: Arch, o: Opcode, r: Service, m: Byte)
    requires D.MemoryOpcode(o) && IsAlu(o.op) && ResultReady(q, a, o, m)
    ensures Cycle(q, r).r == ReadOp(a.r, o.op, m)
  {
    hide Cycle, ResultReady, Legal, AddWithCarry, SubWithBorrow, Compare, BitTest;
    match o.op {
      case ADC | SBC => AddRegisters(q, a, o, r, m);
      case CMP | CPX | CPY => CompareRegisters(q, a, o, r, m);
      case BIT => BitRegisters(q, a, o, r, m);
      case _ => LogicRegisters(q, a, o, r, m);
    }
  }

  lemma AluFinish(q: Core, a: Arch, o: Opcode, r: Service)
    requires D.MemoryOpcode(o) && IsAlu(o.op) && ResultReady(q, a, o, a.mem[EffectiveAddress(a, o.mode)])
    ensures Boundary(Cycle(q, r), ExecMemory(a, o.op, o.mode), r)
  {
    hide OpcodeOf, DecodeRom, NextT, Cycle, Alu, Add16, EffectiveAddress, Legal, ReadOp;
    D.Result(q, Alu(DecodeRom(q), q).carry);
    AluRegisters(q, a, o, r, a.mem[EffectiveAddress(a, o.mode)]);
    Prefetch(q, r, DecodeRom(q), Next(a, o.mode).pc);
  }

  // ---------------------------------------------------------------------------------------------
  // Read-modify-write instructions
  // ---------------------------------------------------------------------------------------------

  function RmwLeft(op: Op, m: Byte): Byte {
    match op
    case DEC => 0xFF
    case INC => 0
    case _ => m
  }

  predicate RmwReady(q: Core, a: Arch, o: Opcode, m: Byte) {
    Mid(q, a, o, D.OperandT(o.mode) + 1, At(a, Length(o.mode) - 1), EffectiveAddress(a, o.mode)) &&
    q.ai == RmwLeft(o.op, m) && q.bi == m
  }

  lemma ModifyInputs(q: Core, r: Service, k: Control)
    requires DecodeRom(q) == k == Control(ai := k.ai, bi := DlToBi)
    requires k.ai.DlToAi? || k.ai.Neg1ToAi? || k.ai.ZeroToAi?
    ensures var p, m := Cycle(q, r), q.mem[Address(q)];
      p.bi == m && p.ai == match k.ai case DlToAi => m case Neg1ToAi => 0xFF case _ => 0
  {
    hide OpcodeOf, DecodeRom, NextT, Hi, Lo, ToWord, And8, Alu, AdhOut, Adl;
  }

  lemma RmwOperand(q: Core, a: Arch, o: Opcode, r: Service)
    requires D.MemoryOpcode(o) && IsRmw(o.op) && OperandReady(q, a, o)
    ensures RmwReady(Cycle(q, r), a, o, a.mem[EffectiveAddress(a, o.mode)])
  {
    hide OpcodeOf, DecodeRom, NextT, Cycle, Alu, EffectiveAddress, Legal, Length, At;
    var k := DecodeRom(q);
    D.Operand(q, Alu(k, q).carry);
    InternalCycle(q, r, k, q.t + 1);
    ModifyInputs(q, r, k);
  }

  /** The ALU function of a read-modify-write instruction, on memory or on the accumulator. */
  function RmwFunction(op: Op, acc: bool): AluFunction {
    match op
    case ASL => if acc then AslAcc else AslMem
    case LSR => if acc then LsrAcc else LsrMem
    case ROL => if acc then RolAcc else RolMem
    case ROR => if acc then RorAcc else RorMem
    case DEC => Dec
    case _ => Inc
  }

  lemma RmwOutput(op: Op, m: Byte, c: bool, acc: bool)
    requires IsRmw(op) && (acc ==> IsShift(op))
    ensures var alu := AluOutput(RmwFunction(op, acc), RmwLeft(op, m), m, c);
      alu.out == Modified(op, m, c) && (IsShift(op) ==> alu.carry == ModifiedCarry(op, m, c))
  {
    hide Add, Add8, And8, Or8, Xor8;
    AddDoubles(m, c);
    AddDoubles(m, false);
    AddSteps(m);
  }

  lemma AddDoubles(m: Byte, c: bool)
    ensures var alu := Add(m, m, c); alu.out == (2 * m + B(c)) % 0x100 && alu.carry == (m >= 0x80)
  {
  }

  lemma AddSteps(m: Byte)
    ensures Add(0, m, true).out == Add8(m, 1) && Add(0xFF, m, false).out == Add8(m, -1)
  {
  }

  lemma RmwLines(op: Op, acc: bool)
    requires IsRmw(op) && (acc ==> IsShift(op))
    ensures var f := RmwFunction(op, acc);
      LoadsA(f) == acc && LoadsCarry(f) == IsShift(op) &&
      !(f.Dex? || f.Inx? || f.Dey? || f.Iny? || f.Adc? || f.BitTst?)
  {
  }

  /** What the ALU computes for a read-modify-write instruction, and the flags it sets. */
  lemma RmwAlu(k: Control, q: Core, op: Op, m: Byte, acc: bool)
    requires IsRmw(op) && (acc ==> IsShift(op)) && k == Control(pc := k.pc, op := AluOp(RmwFunction(op, acc)))
    requires q.ai == RmwLeft(op, m) && q.bi == m
    ensures var alu, result := Alu(k, q), Modified(op, m, q.r.c);
      alu.out == result &&
      NextRegisters(k, alu, result, result, q.r) ==
        if acc then ModifyFlags(q.r, op, m).(ac := result) else ModifyFlags(q.r, op, m)
  {
    hide AluOutput, Modified, RmwLeft, RmwFunction, LoadsA, LoadsCarry, Bit;
    RmwOutput(op, m, q.r.c, acc);
    RmwLines(op, acc);
  }

  predicate WriteReady(q: Core, a: Arch, o: Opcode, m: Byte) {
    q.t == D.OperandT(o.mode) + 2 && q.ir == o && q.service.SOFT? && q.mem == a.mem &&
    Pc(q) == At(a, Length(o.mode) - 1) && Address(q) == EffectiveAddress(a, o.mode) &&
    q.r == ModifyFlags(a.r, o.op, m) && q.dor == Modified(o.op, m, a.r.c)
  }

  lemma RmwResult(q: Core, a: Arch, o: Opcode, r: Service, m: Byte)
    requires D.MemoryOpcode(o) && IsRmw(o.op) && RmwReady(q, a, o, m)
    ensures WriteReady(Cycle(q, r), a, o, m)
  {
    hide OpcodeOf, DecodeRom, NextT, Cycle, Alu, EffectiveAddress, Legal, Length, At, ModifyFlags,
      Modified, NextRegisters;
    var k := DecodeRom(q);
    D.Result(q, Alu(k, q).carry);
    InternalCycle(q, r, k, q.t + 1);
    AluStep(q, r, k);
    RmwAlu(k, q, o.op, m, false);
  }

  lemma RmwWriteBack(q: Core, a: Arch, o: Opcode, r: Service)
    requires D.MemoryOpcode(o) && IsRmw(o.op) && WriteReady(q, a, o, a.mem[EffectiveAddress(a, o.mode)])
    ensures AtFetch(Cycle(q, r), ExecMemory(a, o.op, o.mode))
  {
    hide OpcodeOf, DecodeRom, NextT, Cycle, Alu, Add16, EffectiveAddress, Legal, Length, ModifyFlags,
      Modified;
    var k := DecodeRom(q);
    D.WriteBack(q, Alu(k, q).carry);
    LengthStep(a, o.mode);
    ProgramByte(q, r, k, 0, Next(a, o.mode).pc);
  }
}
