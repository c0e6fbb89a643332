/** The effect of single core cycles of the instructions without a memory operand: accumulator
    shifts, register instructions, branches, the stack, subroutines and interrupts. */
module CpuImplied {
  import opened Bytes
  import opened Opcodes
  import opened RegisterFile
  import opened Isa
  import opened CpuCore
  import opened CpuSteps
  import opened CpuFinish
  import D = CpuDecode

  /** A one-byte instruction has just been fetched. */
  predicate Started(q: Core, a: Arch, o: Opcode) { Mid(q, a, o, 1, At(a, 1), At(a, 1)) }

  // ---------------------------------------------------------------------------------------------
  // Accumulator shifts
  // ---------------------------------------------------------------------------------------------

  lemma AccumulatorT1(q: Core, a: Arch, op: Op, r: Service)
    requires IsShift(op) && Started(q, a, Opcode(op, ACC))
    ensures var p := Cycle(q, r);
      Mid(p, a, Opcode(op, ACC), 2, At(a, 1), At(a, 1)) && p.ai == p.bi == a.r.ac
  {
    hide OpcodeOf, Hi, Lo, ToWord, Add16, And8;
    Halves(At(a, 1));
  }

  lemma AccumulatorT2(q: Core, a: Arch, op: Op, r: Service)
    requires IsShift(op) && Mid(q, a, Opcode(op, ACC), 2, At(a, 1), At(a, 1)) && q.ai == q.bi == a.r.ac
    ensures Boundary(Cycle(q, r), Execute(a, Opcode(op, ACC)), r)
  {
    hide OpcodeOf, Cycle, Alu, Add16, ModifyFlags, Modified, NextRegisters;
    var k := DecodeRom(q);
    assert k == Control(pc := LoadPrgByte, op := AluOp(RmwFunction(op, true)));
    Prefetch(q, r, k, At(a, 1));
    AluStep(q, r, k);
    RmwAlu(k, q, op, a.r.ac, true);
  }

  // ---------------------------------------------------------------------------------------------
  // Register instructions
  // ---------------------------------------------------------------------------------------------

  function Source(r: Registers, from: Register): Byte {
    match from
    case A => r.ac
    case X => r.x
    case Y => r.y
    case S => r.s
  }

  /** The source register reaches SB, and DB unless the target is the stack pointer. */
  lemma TransferBuses(k: Control, q: Core)
    requires k == Control(op := k.op) && k.op.TransferOp?
    ensures SbOut(k, q) == Source(q.r, k.op.from) && (!k.op.to.S? ==> DbOut(k, q) == SbOut(k, q))
  {
    hide And8;
  }

  lemma TransferNext(k: Control, alu: AluResult, v: Byte, db: Byte, r: Registers)
    requires k == Control(op := k.op) && k.op.TransferOp? && (!k.op.to.S? ==> db == v)
    ensures NextRegisters(k, alu, v, db, r) ==
      if k.op.to.S? then r.(s := v) else LoadRegister(r, k.op.to, v)
  {
    hide Bit;
  }

  lemma TransferRegisters(q: Core, r: Service, k: Control)
    requires DecodeRom(q) == k == Control(op := k.op) && k.op.TransferOp?
    ensures Cycle(q, r).r ==
      if k.op.to.S? then q.r.(s := Source(q.r, k.op.from)) else LoadRegister(q.r, k.op.to, Source(q.r, k.op.from))
  {
    hide OpcodeOf, DecodeRom, NextT, Add16, Hi, Lo, ToWord, Alu, AdhOut, Adl, SbOut, DbOut, Source,
      NextRegisters, LoadRegister;
    var p := Phase2(k, NextT(q, Alu(k, q).carry) == 1 && !r.SOFT?, q);
    TransferBuses(k, p);
    TransferNext(k, Alu(k, p), SbOut(k, p), DbOut(k, p), q.r);
  }

  function SetFlag(r: Registers, flag: Flag, value: bool): Registers {
    match flag
    case CarryFlag => r.(c := value)
    case DecimalFlag => r.(d := value)
    case InterruptFlag => r.(i := value)
    case OverflowFlag => r.(v := value)
  }

  lemma FlagRegisters(q: Core, r: Service, k: Control)
    requires DecodeRom(q) == k == Control(op := k.op) && k.op.FlagOp?
    ensures Cycle(q, r).r == SetFlag(q.r, k.op.flag, k.op.value)
  {
    hide OpcodeOf, DecodeRom, NextT, Add16, Hi, Lo, ToWord, Alu, AdhOut, Adl;
  }

  /** What the decode ROM raises for the instructions that end in T1. */
  lemma SingleCycleDecode(q: Core)
    requires q.t == 1 && q.ir.mode.IMP? && EndsInT1(q.ir.op)
    ensures var k, r, op := DecodeRom(q), q.r, q.ir.op;
      k == Control(op := k.op, line := k.line) && (k.line.Break? <==> op.HLT?) && (k.op.NoOp? || k.line.NoLine?) &&
      !k.op.AluOp? && !k.op.LoadOp? &&
      RegisterOp(r, op) ==
        match k.op
        case NoOp => r
        case FlagOp(flag, value) => SetFlag(r, flag, value)
        case TransferOp(from, to) =>
          if to.S? then r.(s := Source(r, from)) else LoadRegister(r, to, Source(r, from))
        case _ => RegisterOp(r, DEX)
  {
    hide LoadA, LoadX, LoadY, StepResult, DecodeT2, DecodeT3, DecodeT4, DecodeT5, DecodeT6, OperandCycle;
  }

  lemma SingleCycleTiming(q: Core, carry: bool)
    requires q.t == 1 && q.ir.mode.IMP? && EndsInT1(q.ir.op)
    ensures NextT(q, carry) == 0
  {
    hide EndsInT1;
  }

  lemma SingleCycleResult(a: Arch, op: Op)
    requires EndsInT1(op)
    ensures Execute(a, Opcode(op, IMP)) == Next(a.(r := RegisterOp(a.r, op)), IMP)
  {
    hide RegisterOp, JumpToSubroutine, ReturnFromSubroutine, ReturnFromInterrupt, Interrupt, Push, Pop, Add16;
  }

  lemma SingleCycle(q: Core, a: Arch, op: Op, r: Service)
    requires EndsInT1(op) && Started(q, a, Opcode(op, IMP))
    ensures AtFetch(Cycle(q, r), Execute(a, Opcode(op, IMP)))
  {
    hide OpcodeOf, DecodeRom, Cycle, Alu, Add16, RegisterOp, SetFlag, LoadRegister, Source, Execute, NextT;
    var k := DecodeRom(q);
    SingleCycleDecode(q);
    SingleCycleResult(a, op);
    assert NextT(q, Alu(k, q).carry) == 0 by { SingleCycleTiming(q, Alu(k, q).carry); }
    InternalCycle(q, r, k, 0);
    if k.op.FlagOp? {
      FlagRegisters(q, r, k);
    } else if k.op.TransferOp? {
      TransferRegisters(q, r, k);
    }
  }

  function StepInput(r: Registers, op: Op): Byte { if op.DEX? || op.INX? then r.x else r.y }

  lemma StepInputs(q: Core, r: Service, k: Control)
    requires DecodeRom(q) == k == Control(ai := k.ai, bi := k.bi)
    requires (k.bi.Neg1ToBi? && (k.ai.XToAi? || k.ai.YToAi?)) || (k.ai.ZeroToAi? && (k.bi.XToBi? || k.bi.YToBi?))
    ensures var p := Cycle(q, r);
      if k.bi.Neg1ToBi? then p.bi == 0xFF && p.ai == if k.ai.XToAi? then q.r.x else q.r.y
      else p.ai == 0 && p.bi == if k.bi.XToBi? then q.r.x else q.r.y
  {
    hide OpcodeOf, DecodeRom, NextT, Hi, Lo, ToWord, Add16, And8, Alu, AdhOut, Adl;
  }

  lemma StepT1(q: Core, a: Arch, op: Op, r: Service)
    requires IsStep(op) && Started(q, a, Opcode(op, IMP))
    ensures var p := Cycle(q, r);
      Mid(p, a, Opcode(op, IMP), 2, At(a, 1), At(a, 1)) &&
      if op.DEX? || op.DEY? then p.ai == StepInput(a.r, op) && p.bi == 0xFF
      else p.ai == 0 && p.bi == StepInput(a.r, op)
  {
    hide OpcodeOf, DecodeRom, NextT, Cycle, Alu, At;
    var k := DecodeRom(q);
    D.Step(q, Alu(k, q).carry);
    InternalCycle(q, r, k, 2);
    StepInputs(q, r, k);
  }

  lemma StepT2(q: Core, a: Arch, op: Op, r: Service)
    requires IsStep(op) && Mid(q, a, Opcode(op, IMP), 2, At(a, 1), At(a, 1))
    requires if op.DEX? || op.DEY? then q.ai == StepInput(a.r, op) && q.bi == 0xFF
             else q.ai == 0 && q.bi == StepInput(a.r, op)
    ensures Boundary(Cycle(q, r), Execute(a, Opcode(op, IMP)), r)
  {
    hide OpcodeOf, DecodeRom, NextT, Cycle, Alu, Add16, NextRegisters, StepResult;
    var k := DecodeRom(q);
    D.Step(q, Alu(k, q).carry);
    Prefetch(q, r, k, At(a, 1));
    AluStep(q, r, k);
    StepRegisters(k, q, op);
  }

  lemma StepRegisters(k: Control, q: Core, op: Op)
    requires IsStep(op) && k == Control(pc := LoadPrgByte, op := AluOp(D.StepFunction(op)))
    requires if op.DEX? || op.DEY? then q.ai == StepInput(q.r, op) && q.bi == 0xFF
             else q.ai == 0 && q.bi == StepInput(q.r, op)
    ensures var alu := Alu(k, q); NextRegisters(k, alu, alu.out, alu.out, q.r) == StepResult(q.r, op)
  {
    hide Bit, Add, Add8, And8, Or8, Xor8;
    StepOutput(StepInput(q.r, op));
  }

  lemma StepOutput(v: Byte)
    ensures Add(v, 0xFF, false).out == Add8(v, -1) && Add(0, v, true).out == Add8(v, 1)
  {
  }

  // ---------------------------------------------------------------------------------------------
  // Branches
  // ---------------------------------------------------------------------------------------------

  lemma BranchInputs(q: Core, r: Service)
    requires DecodeRom(q) == Control(pc := LoadPrgByte, ai := DlToAi, bi := PclToBi)
    ensures var p := Cycle(q, r);
      p.ai == q.mem[Address(q)] && (NextT(q, Alu(DecodeRom(q), q).carry) != 1 ==> p.bi == Lo(Add16(Pc(q), 1)))
  {
    hide OpcodeOf, DecodeRom, NextT, Hi, Lo, ToWord, Add16, AdhOut;
  }

  lemma BranchT1(q: Core, a: Arch, op: Op, r: Service)
    requires IsBranch(op) && Started(q, a, Opcode(op, REL))
    ensures var p := Cycle(q, r);
      if BranchTaken(a.r, op) then
        Mid(p, a, Opcode(op, REL), 2, At(a, 2), At(a, 2)) && p.ai == Fetch(a, 1) && p.bi == Lo(At(a, 2))
      else AtFetch(p, Execute(a, Opcode(op, REL)))
  {
    hide OpcodeOf, DecodeRom, NextT, Cycle, Alu, Hi, Lo, ToWord, Add16;
    var k := DecodeRom(q);
    D.BranchT1(q, Alu(k, q).carry);
    NextByte(a, 1);
    ProgramByte(q, r, k, if BranchTaken(a.r, op) then 2 else 0, At(a, 2));
    BranchInputs(q, r);
  }

  /** The low byte of the target, and whether the high byte must be corrected. */
  lemma BranchWord(pc: Word, offset: Byte)
    ensures var low, target := Lo(pc) + offset, Add16(pc, Signed(offset));
      Lo(target) == low % 0x100 &&
      ((low >= 0x100) == (offset >= 0x80) ==> Hi(target) == Hi(pc)) &&
      ((low >= 0x100) != (offset >= 0x80) ==> Hi(target) == (Hi(pc) + if offset >= 0x80 then 0xFF else 1) % 0x100)
  {
    var low := Lo(pc) + offset;
    assert pc == Hi(pc) * 0x100 + Lo(pc);
    var h := Hi(pc) + (if low >= 0x100 then 1 else 0) - (if offset >= 0x80 then 1 else 0);
    assert pc + Signed(offset) == h * 0x100 + low % 0x100;
  }

  /** The cycle that adds the offset to the low byte of PC. */
  lemma BranchLow(q: Core, r: Service, t: nat)
    requires DecodeRom(q) == Control(pcl := AlusumToPcl, abl := AlusumToAbl, bi := PchToBi,
                                     ai := if q.ai >= 0x80 then Neg1ToAi else OneToAi)
    requires NextT(q, q.ai + q.bi >= 0x100) == t != 1
    ensures var p, low := Cycle(q, r), Add8(q.ai, q.bi);
      p.t == t && p.ir == q.ir && p.service == q.service && p.mem == q.mem && p.r == q.r &&
      Pc(p) == ToWord(q.pchs, low) && Address(p) == ToWord(q.abh, low) &&
      p.ai == (if q.ai >= 0x80 then 0xFF else 1) && p.bi == q.pchs
  {
    hide OpcodeOf, DecodeRom, NextT, Hi, Lo;
  }

  /** The cycle that corrects the high byte of PC. */
  lemma BranchHigh(q: Core, r: Service)
    requires DecodeRom(q) == Control(pch := AlusumToPch, abh := AlusumToAbh)
    requires NextT(q, q.ai + q.bi >= 0x100) == 0
    ensures var p, high := Cycle(q, r), Add8(q.ai, q.bi);
      p.t == 0 && p.service == q.service && p.mem == q.mem && p.r == q.r &&
      Pc(p) == ToWord(high, q.pcls) && Address(p) == ToWord(high, q.abl)
  {
    hide OpcodeOf, DecodeRom, NextT, Hi, Lo;
  }

  lemma BranchT2(q: Core, a: Arch, op: Op, r: Service)
    requires IsBranch(op) && BranchTaken(a.r, op) && Mid(q, a, Opcode(op, REL), 2, At(a, 2), At(a, 2))
    requires q.ai == Fetch(a, 1) && q.bi == Lo(At(a, 2))
    ensures var p, target := Cycle(q, r), Add16(At(a, 2), Signed(Fetch(a, 1)));
      if Hi(target) == Hi(At(a, 2)) then AtFetch(p, Execute(a, Opcode(op, REL)))
      else
        Mid(p, a, Opcode(op, REL), 3, ToWord(Hi(At(a, 2)), Lo(target)), ToWord(Hi(At(a, 2)), Lo(target))) &&
        p.ai == (if Fetch(a, 1) >= 0x80 then 0xFF else 1) && p.bi == Hi(At(a, 2))
  {
    hide OpcodeOf, DecodeRom, NextT, Cycle, Alu, Hi, Lo, ToWord, Add16, BranchTaken;
    D.BranchT23(q, q.ai + q.bi >= 0x100);
    BranchWord(At(a, 2), Fetch(a, 1));
    Halves(Add16(At(a, 2), Signed(Fetch(a, 1))));
    BranchLow(q, r, NextT(q, q.ai + q.bi >= 0x100));
  }

  lemma BranchT3(q: Core, a: Arch, op: Op, r: Service)
    requires IsBranch(op) && BranchTaken(a.r, op)
    requires var target := Add16(At(a, 2), Signed(Fetch(a, 1)));
      Hi(target) != Hi(At(a, 2)) &&
      Mid(q, a, Opcode(op, REL), 3, ToWord(Hi(At(a, 2)), Lo(target)), ToWord(Hi(At(a, 2)), Lo(target))) &&
      q.ai == (if Fetch(a, 1) >= 0x80 then 0xFF else 1) && q.bi == Hi(At(a, 2))
    ensures AtFetch(Cycle(q, r), Execute(a, Opcode(op, REL)))
  {
    hide OpcodeOf, DecodeRom, NextT, Cycle, Alu, Hi, Lo, ToWord, Add16, BranchTaken;
    D.BranchT23(q, q.ai + q.bi >= 0x100);
    BranchWord(At(a, 2), Fetch(a, 1));
    Halves(Add16(At(a, 2), Signed(Fetch(a, 1))));
    BranchHigh(q, r);
  }
}
