/** The microcoded core refines the instruction-level machine: from the start of one instruction or
    interrupt sequence to the start of the next, for every opcode byte, every state and every
    stream of interrupt requests. */
module CpuRefinement {
  import opened Bytes
  import opened Opcodes
  import opened RegisterFile
  import opened Isa
  import opened CpuCore
  import opened CpuSteps
  import opened CpuFinish
  import opened CpuImplied
  import opened CpuStack
  import D = CpuDecode

  /** The core after one cycle for each entry of a stream of requests. */
  function Cycles(q: Core, rs: seq<Service>): Core
    decreases |rs|
  {
    if rs == [] then q else Cycles(Cycle(q, rs[0]), rs[1..])
  }

  /** Running through rs the core is at the start of an instruction exactly once, at the end, and
      then its visible state is a. */
  predicate Arrives(q: Core, rs: seq<Service>, a: Arch)
    decreases |rs|
  {
    |rs| > 0 &&
    if |rs| == 1 then Boundary(Cycle(q, rs[0]), a, rs[0])
    else Cycle(q, rs[0]).t != 1 && Arrives(Cycle(q, rs[0]), rs[1..], a)
  }

  /** What the machine does next: an instruction, or the service of a request. */
  function Advance(a: Arch, service: Service): Arch {
    if service.SOFT? then Exec(a) else Interrupt(a, a.pc, false, Vector(service))
  }

  // ---------------------------------------------------------------------------------------------
  // How many cycles it takes
  // ---------------------------------------------------------------------------------------------

  /** Indexing carries into the high byte of the address. */
  predicate Crosses(a: Arch, mode: Mode) {
    match mode
    case INDY => PointerLow(a) + a.r.y >= 0x100
    case _ => Fetch(a, 1) + Index(a, mode) >= 0x100
  }

  /** Cycles before the operand cycle. */
  function Lead(a: Arch, o: Opcode): nat {
    var fixup := if Crosses(a, o.mode) || !D.SkipsFixup(o) then 1 else 0;
    match o.mode
    case IMM => 0
    case ZP => 1
    case ABS | ZPX | ZPY => 2
    case INDX => 4
    case INDY => 3 + fixup
    case _ => 2 + fixup
  }

  /** Cycles from the operand cycle up to and including the next opcode fetch. */
  function Tail(op: Op): nat { if IsRmw(op) then 4 else 2 }

  function BranchLatency(a: Arch, op: Op): nat {
    var next := Add16(a.pc, 2);
    if !BranchTaken(a.r, op) then 2
    else if Hi(Add16(next, Signed(Fetch(a, 1)))) == Hi(next) then 3 else 4
  }

  function ImpliedLatency(op: Op): nat {
    match op
    case PHA | PHP => 3
    case PLA | PLP => 4
    case JSR | RTS | RTI => 6
    case BRK | ILLEGAL => 7
    case _ => 2
  }

  /** Cycles of one instruction, by opcode. */
  function OpcodeLatency(a: Arch, o: Opcode): (n: nat)
    ensures n >= 2
  {
    match o.mode
    case ACC => 2
    case REL => BranchLatency(a, o.op)
    case IND => 5
    case IMP => ImpliedLatency(o.op)
    case _ => if o.op.JMP? then 3 else Lead(a, o) + Tail(o.op)
  }

  /** Cycles until the next instruction or interrupt sequence begins. */
  function Latency(a: Arch, service: Service): (n: nat)
    ensures n >= 2
  {
    if service.SOFT? then OpcodeLatency(a, OpcodeOf(a.mem[a.pc])) else 7
  }

  /** Between two and seven; the longest are interrupt sequences, BRK, bytes that are no opcodes, and
      read-modify-write instructions with absolute indexing. */
  lemma LatencyRange(a: Arch, service: Service)
    ensures var n, o := Latency(a, service), OpcodeOf(a.mem[a.pc]);
      2 <= n <= 7 &&
      (n == 7 <==> !service.SOFT? || o.op.BRK? || o.op.ILLEGAL? || (IsRmw(o.op) && o.mode.ABSX?))
  {
    hide OpcodeOf, Crosses, BranchTaken, Hi;
    assert Legal(OpcodeOf(a.mem[a.pc]));
  }

  // ---------------------------------------------------------------------------------------------
  // Composition
  // ---------------------------------------------------------------------------------------------

  lemma Step(q: Core, rs: seq<Service>, a: Arch)
    requires |rs| > 1 && Cycle(q, rs[0]).t != 1 && Arrives(Cycle(q, rs[0]), rs[1..], a)
    ensures Arrives(q, rs, a)
  {
    hide Cycle, Boundary;
  }

  lemma Fetched(q: Core, rs: seq<Service>, a: Arch)
    requires AtFetch(q, a) && |rs| == 1
    ensures Arrives(q, rs, a)
  {
    hide Cycle, Boundary;
    FetchOpcode(q, a, rs[0]);
  }

  lemma FromOperand(q: Core, a: Arch, o: Opcode, rs: seq<Service>)
    requires D.MemoryOpcode(o) && OperandReady(q, a, o) && |rs| == Tail(o.op)
    ensures Arrives(q, rs, ExecMemory(a, o.op, o.mode))
  {
    hide Cycle, Boundary, ExecMemory, EffectiveAddress, Legal, Length, Mid, At, ModifyFlags, Modified;
    D.MemoryClasses(o);
    var q1 := Cycle(q, rs[0]);
    if IsLoad(o.op) {
      Load(q, a, o, rs[0]);
      Fetched(q1, rs[1..], ExecMemory(a, o.op, o.mode));
    } else if IsStore(o.op) {
      Store(q, a, o, rs[0]);
      Fetched(q1, rs[1..], ExecMemory(a, o.op, o.mode));
    } else if IsAlu(o.op) {
      AluOperand(q, a, o, rs[0]);
      AluFinish(q1, a, o, rs[1]);
    } else {
      FromModify(q, a, o, rs);
    }
  }

  lemma FromModify(q: Core, a: Arch, o: Opcode, rs: seq<Service>)
    requires D.MemoryOpcode(o) && OperandReady(q, a, o) && IsRmw(o.op) && |rs| == 4
    ensures Arrives(q, rs, ExecMemory(a, o.op, o.mode))
  {
    hide Cycle, Boundary, ExecMemory, EffectiveAddress, Legal, Length, At, ModifyFlags, Modified;
    var m := a.mem[EffectiveAddress(a, o.mode)];
    var q1 := Cycle(q, rs[0]);
    var q2 := Cycle(q1, rs[1]);
    var q3 := Cycle(q2, rs[2]);
    RmwOperand(q, a, o, rs[0]);
    RmwResult(q1, a, o, rs[1], m);
    RmwWriteBack(q2, a, o, rs[2]);
    Fetched(q3, rs[3..], ExecMemory(a, o.op, o.mode));
    Step(q2, rs[2..], ExecMemory(a, o.op, o.mode));
    Step(q1, rs[1..], ExecMemory(a, o.op, o.mode));
  }

  // ---------------------------------------------------------------------------------------------
  // Addressing modes
  // ---------------------------------------------------------------------------------------------

  lemma FromAbsolute(q: Core, a: Arch, o: Opcode, rs: seq<Service>)
    requires D.MemoryOpcode(o) && o.mode.ABS? && Started(q, a, o) && |rs| == 2 + Tail(o.op)
    ensures Arrives(q, rs, ExecMemory(a, o.op, o.mode))
  {
    hide Cycle, Boundary, ExecMemory, Legal, At, Fetch, StoreValue;
    var a' := ExecMemory(a, o.op, o.mode);
    var q1 := Cycle(q, rs[0]);
    AbsoluteT1(q, a, o, rs[0]);
    AbsoluteT2(q1, a, o, rs[1]);
    if IsStore(o.op) {
      StoreDriven(q1, rs[1]);
    }
    FromOperand(Cycle(q1, rs[1]), a, o, rs[1..][1..]);
    Step(q1, rs[1..], a');
    Step(q, rs, a');
  }

  lemma FromIndexed(q: Core, a: Arch, o: Opcode, rs: seq<Service>)
    requires D.MemoryOpcode(o) && (o.mode.ABSX? || o.mode.ABSY?) && Started(q, a, o)
    requires |rs| == Lead(a, o) + Tail(o.op)
    ensures Arrives(q, rs, ExecMemory(a, o.op, o.mode))
  {
    hide Cycle, Boundary, ExecMemory, Legal, At, Fetch, StoreValue, EffectiveAddress, Index;
    var a' := ExecMemory(a, o.op, o.mode);
    var q1 := Cycle(q, rs[0]);
    var q2 := Cycle(q1, rs[1]);
    AbsoluteT1(q, a, o, rs[0]);
    IndexedT2(q1, a, o, rs[1]);
    if q2.t == 3 {
      IndexedT3(q2, a, o, rs[2]);
      FromOperand(Cycle(q2, rs[2]), a, o, rs[1..][1..][1..]);
      Step(q2, rs[1..][1..], a');
    } else {
      UnfixedAddress(a, o.mode);
      SkippedRead(o);
      FromOperand(q2, a, o, rs[1..][1..]);
    }
    Step(q1, rs[1..], a');
    Step(q, rs, a');
  }

  /** Without a carry the first guess of an indexed address is right. */
  lemma UnfixedAddress(a: Arch, mode: Mode)
    requires (mode.ABSX? || mode.ABSY? || mode.INDY?) && !Crosses(a, mode)
    ensures EffectiveAddress(a, mode) ==
      if mode.INDY? then ToWord(PointerHigh(a), Add8(PointerLow(a), a.r.y))
      else ToWord(Fetch(a, 2), Add8(Fetch(a, 1), Index(a, mode)))
  {
    hide ToWord, Add16, Add8;
    if mode.INDY? {
      IndexWord(PointerHigh(a), PointerLow(a), a.r.y);
    } else {
      IndexWord(Fetch(a, 2), Fetch(a, 1), Index(a, mode));
    }
  }

  lemma SkippedRead(o: Opcode)
    requires D.SkipsFixup(o)
    ensures !IsStore(o.op)
  {
  }

  lemma FromZeroPage(q: Core, a: Arch, o: Opcode, rs: seq<Service>)
    requires D.MemoryOpcode(o) && o.mode.ZP? && Started(q, a, o) && |rs| == 1 + Tail(o.op)
    ensures Arrives(q, rs, ExecMemory(a, o.op, o.mode))
  {
    hide Cycle, Boundary, ExecMemory, Legal, At, Fetch, StoreValue;
    ZeroPageT1(q, a, o, rs[0]);
    if IsStore(o.op) {
      StoreDriven(q, rs[0]);
    }
    FromOperand(Cycle(q, rs[0]), a, o, rs[1..]);
    Step(q, rs, ExecMemory(a, o.op, o.mode));
  }

  lemma FromZeroPageIndexed(q: Core, a: Arch, o: Opcode, rs: seq<Service>)
    requires D.MemoryOpcode(o) && (o.mode.ZPX? || o.mode.ZPY?) && Started(q, a, o) && |rs| == 2 + Tail(o.op)
    ensures Arrives(q, rs, ExecMemory(a, o.op, o.mode))
  {
    hide Cycle, Boundary, ExecMemory, Legal, At, Fetch, StoreValue, Add8;
    var a' := ExecMemory(a, o.op, o.mode);
    var q1 := Cycle(q, rs[0]);
    ZeroPageIndexT1(q, a, o, rs[0]);
    ZeroPageIndexT2(q1, a, o, rs[1]);
    if IsStore(o.op) {
      StoreDriven(q1, rs[1]);
    }
    FromOperand(Cycle(q1, rs[1]), a, o, rs[1..][1..]);
    Step(q1, rs[1..], a');
    Step(q, rs, a');
  }

  lemma FromIndirectX(q: Core, a: Arch, o: Opcode, rs: seq<Service>)
    requires D.MemoryOpcode(o) && o.mode.INDX? && Started(q, a, o) && |rs| == 4 + Tail(o.op)
    ensures Arrives(q, rs, ExecMemory(a, o.op, o.mode))
  {
    hide Cycle, Boundary, ExecMemory, Legal, At, Fetch, StoreValue, Add8, EffectiveAddress;
    var a' := ExecMemory(a, o.op, o.mode);
    var q1 := Cycle(q, rs[0]);
    var q2 := Cycle(q1, rs[1]);
    var q3 := Cycle(q2, rs[2]);
    ZeroPageIndexT1(q, a, o, rs[0]);
    ZeroPageIndexT2(q1, a, o, rs[1]);
    IndirectXT3(q2, a, o, rs[2]);
    IndirectXT4(q3, a, o, rs[3]);
    if IsStore(o.op) {
      StoreDriven(q3, rs[3]);
    }
    FromOperand(Cycle(q3, rs[3]), a, o, rs[1..][1..][1..][1..]);
    Step(q3, rs[1..][1..][1..], a');
    Step(q2, rs[1..][1..], a');
    Step(q1, rs[1..], a');
    Step(q, rs, a');
  }

  lemma FromIndirectY(q: Core, a: Arch, o: Opcode, rs: seq<Service>)
    requires D.MemoryOpcode(o) && o.mode.INDY? && Started(q, a, o) && |rs| == Lead(a, o) + Tail(o.op)
    ensures Arrives(q, rs, ExecMemory(a, o.op, o.mode))
  {
    hide Cycle, Boundary, ExecMemory, Legal, At, Fetch, StoreValue, Add8, EffectiveAddress;
    var a' := ExecMemory(a, o.op, o.mode);
    var q1 := Cycle(q, rs[0]);
    var q2 := Cycle(q1, rs[1]);
    var q3 := Cycle(q2, rs[2]);
    IndirectYT1(q, a, o, rs[0]);
    IndirectYT2(q1, a, o, rs[1]);
    IndirectYT3(q2, a, o, rs[2]);
    if q3.t == 4 {
      IndirectYT4(q3, a, o, rs[3]);
      FromOperand(Cycle(q3, rs[3]), a, o, rs[1..][1..][1..][1..]);
      Step(q3, rs[1..][1..][1..], a');
    } else {
      UnfixedAddress(a, INDY);
      SkippedRead(o);
      FromOperand(q3, a, o, rs[1..][1..][1..]);
    }
    Step(q2, rs[1..][1..], a');
    Step(q1, rs[1..], a');
    Step(q, rs, a');
  }

  lemma FromMemory(q: Core, a: Arch, o: Opcode, rs: seq<Service>)
    requires D.MemoryOpcode(o) && Started(q, a, o) && |rs| == Lead(a, o) + Tail(o.op)
    ensures Arrives(q, rs, ExecMemory(a, o.op, o.mode))
  {
    hide Boundary, ExecMemory, Legal, Arrives;
    match o.mode {
      case IMM =>
        D.MemoryClasses(o);
        FromOperand(q, a, o, rs);
      case ZP => FromZeroPage(q, a, o, rs);
      case ABS => FromAbsolute(q, a, o, rs);
      case ZPX | ZPY => FromZeroPageIndexed(q, a, o, rs);
      case INDX => FromIndirectX(q, a, o, rs);
      case INDY => FromIndirectY(q, a, o, rs);
      case _ => FromIndexed(q, a, o, rs);
    }
  }

  // ---------------------------------------------------------------------------------------------
  // Jumps, branches and instructions without an operand
  // ---------------------------------------------------------------------------------------------

  lemma FromJump(q: Core, a: Arch, o: Opcode, rs: seq<Service>)
    requires o == Opcode(JMP, ABS) || o == Opcode(JMP, IND)
    requires Started(q, a, o) && |rs| == OpcodeLatency(a, o)
    ensures Arrives(q, rs, Execute(a, o))
  {
    hide Cycle, Boundary, At, Fetch, EffectiveAddress, IndirectTarget;
    var a' := Execute(a, o);
    var q1 := Cycle(q, rs[0]);
    AbsoluteT1(q, a, o, rs[0]);
    if o.mode.ABS? {
      AbsoluteJump(q1, a, rs[1]);
      Fetched(Cycle(q1, rs[1]), rs[1..][1..], a');
    } else {
      var q2 := Cycle(q1, rs[1]);
      AbsoluteT2(q1, a, o, rs[1]);
      IndirectJumpT3(q2, a, rs[2]);
      IndirectJumpT4(Cycle(q2, rs[2]), a, rs[3]);
      Fetched(Cycle(Cycle(q2, rs[2]), rs[3]), rs[1..][1..][1..][1..], a');
      Step(Cycle(q2, rs[2]), rs[1..][1..][1..], a');
      Step(q2, rs[1..][1..], a');
    }
    Step(q1, rs[1..], a');
    Step(q, rs, a');
  }

  lemma FromBranch(q: Core, a: Arch, op: Op, rs: seq<Service>)
    requires IsBranch(op) && Started(q, a, Opcode(op, REL)) && |rs| == BranchLatency(a, op)
    ensures Arrives(q, rs, Execute(a, Opcode(op, REL)))
  {
    hide Cycle, Boundary, Execute, BranchTaken, Hi, Lo, ToWord, IsBranch;
    var a' := Execute(a, Opcode(op, REL));
    var q1 := Cycle(q, rs[0]);
    BranchT1(q, a, op, rs[0]);
    if BranchTaken(a.r, op) {
      var q2 := Cycle(q1, rs[1]);
      BranchT2(q1, a, op, rs[1]);
      if |rs| == 4 {
        BranchT3(q2, a, op, rs[2]);
        Fetched(Cycle(q2, rs[2]), rs[1..][1..][1..], a');
        Step(q2, rs[1..][1..], a');
      } else {
        Fetched(q2, rs[1..][1..], a');
      }
      Step(q1, rs[1..], a');
    } else {
      Fetched(q1, rs[1..], a');
    }
    Step(q, rs, a');
  }

  lemma FromAccumulator(q: Core, a: Arch, op: Op, rs: seq<Service>)
    requires IsShift(op) && Started(q, a, Opcode(op, ACC)) && |rs| == 2
    ensures Arrives(q, rs, Execute(a, Opcode(op, ACC)))
  {
    hide Cycle, Boundary, Execute, At;
    AccumulatorT1(q, a, op, rs[0]);
    AccumulatorT2(Cycle(q, rs[0]), a, op, rs[1]);
  }

  lemma FromShortImplied(q: Core, a: Arch, op: Op, rs: seq<Service>)
    requires (EndsInT1(op) || IsStep(op)) && Started(q, a, Opcode(op, IMP)) && |rs| == 2
    ensures Arrives(q, rs, Execute(a, Opcode(op, IMP)))
  {
    hide Cycle, Boundary, Execute, At, EndsInT1, StepInput;
    if EndsInT1(op) {
      SingleCycle(q, a, op, rs[0]);
      Fetched(Cycle(q, rs[0]), rs[1..], Execute(a, Opcode(op, IMP)));
      Step(q, rs, Execute(a, Opcode(op, IMP)));
    } else {
      StepT1(q, a, op, rs[0]);
      StepT2(Cycle(q, rs[0]), a, op, rs[1]);
    }
  }

  lemma FromStackOp(q: Core, a: Arch, op: Op, rs: seq<Service>)
    requires (op.PHA? || op.PHP? || op.PLA? || op.PLP?) && Started(q, a, Opcode(op, IMP))
    requires |rs| == ImpliedLatency(op)
    ensures Arrives(q, rs, Execute(a, Opcode(op, IMP)))
  {
    hide Cycle, Boundary, Execute, At, PushedValue, Sp, ToWord;
    var a' := Execute(a, Opcode(op, IMP));
    var q1 := Cycle(q, rs[0]);
    var q2 := Cycle(q1, rs[1]);
    if op.PHA? || op.PHP? {
      PushT1(q, a, op, rs[0]);
      PushT2(q1, a, op, rs[1]);
      PushT3(q2, a, op, rs[2]);
    } else {
      PullT1(q, a, op, rs[0]);
      PullT2(q1, a, op, rs[1]);
      PullT3(q2, a, op, rs[2]);
      Fetched(Cycle(q2, rs[2]), rs[1..][1..][1..], a');
      Step(q2, rs[1..][1..], a');
    }
    Step(q1, rs[1..], a');
    Step(q, rs, a');
  }

  lemma FromReturn(q: Core, a: Arch, op: Op, rs: seq<Service>)
    requires (op.RTS? || op.RTI?) && Started(q, a, Opcode(op, IMP)) && |rs| == 6
    ensures Arrives(q, rs, Execute(a, Opcode(op, IMP)))
  {
    hide Cycle, Boundary, At, Sp, ToWord, Stacked, ReturnFromSubroutine, ReturnFromInterrupt, SetStatus;
    var a' := Execute(a, Opcode(op, IMP));
    var q1 := Cycle(q, rs[0]);
    var q2 := Cycle(q1, rs[1]);
    var q3 := Cycle(q2, rs[2]);
    var q4 := Cycle(q3, rs[3]);
    PullT1(q, a, op, rs[0]);
    ReturnT2(q1, a, op, rs[1]);
    if op.RTS? {
      RtsT3(q2, a, rs[2]);
      RtsT4(q3, a, rs[3]);
      RtsT5(q4, a, rs[4]);
    } else {
      RtiT3(q2, a, rs[2]);
      RtiT4(q3, a, rs[3]);
      RtiT5(q4, a, rs[4]);
    }
    Fetched(Cycle(q4, rs[4]), rs[1..][1..][1..][1..][1..], a');
    Step(q4, rs[1..][1..][1..][1..], a');
    Step(q3, rs[1..][1..][1..], a');
    Step(q2, rs[1..][1..], a');
    Step(q1, rs[1..], a');
    Step(q, rs, a');
  }

  lemma FromCall(q: Core, a: Arch, rs: seq<Service>)
    requires Started(q, a, JSR_) && |rs| == 6
    ensures Arrives(q, rs, JumpToSubroutine(a))
  {
    hide Cycle, Boundary, At, Fetch, Sp, ToWord, Hi, Lo, JumpToSubroutine, JsrMemory;
    var a' := JumpToSubroutine(a);
    var q1 := Cycle(q, rs[0]);
    var q2 := Cycle(q1, rs[1]);
    var q3 := Cycle(q2, rs[2]);
    var q4 := Cycle(q3, rs[3]);
    JsrT1(q, a, rs[0]);
    JsrT2(q1, a, rs[1]);
    JsrT3(q2, a, rs[2]);
    JsrT4(q3, a, rs[3]);
    JsrT5(q4, a, rs[4]);
    Fetched(Cycle(q4, rs[4]), rs[1..][1..][1..][1..][1..], a');
    Step(q4, rs[1..][1..][1..][1..], a');
    Step(q3, rs[1..][1..][1..], a');
    Step(q2, rs[1..][1..], a');
    Step(q1, rs[1..], a');
    Step(q, rs, a');
  }

  /** BRK and every serviced request. */
  lemma FromInterrupt(q: Core, a: Arch, service: Service, rs: seq<Service>)
    requires Boundary(q, a, service) && q.ir == BRK_ && |rs| == 7
    ensures Arrives(q, rs, Interrupt(a, ReturnAddress(a, service), service.SOFT?, Vector(service)))
  {
    hide Cycle, Boundary, At, Sp, ToWord, Hi, Lo, StatusByte, Interrupt, BrkMemory, ReturnAddress, Vector,
      Masked;
    var a' := Interrupt(a, ReturnAddress(a, service), service.SOFT?, Vector(service));
    var q1 := Cycle(q, rs[0]);
    var q2 := Cycle(q1, rs[1]);
    var q3 := Cycle(q2, rs[2]);
    var q4 := Cycle(q3, rs[3]);
    var q5 := Cycle(q4, rs[4]);
    BrkT1(q, a, service, rs[0]);
    BrkT2(q1, a, service, rs[1]);
    BrkT3(q2, a, service, rs[2]);
    BrkT4(q3, a, service, rs[3]);
    BrkT5(q4, a, service, rs[4]);
    BrkT6(q5, a, service, rs[5]);
    Fetched(Cycle(q5, rs[5]), rs[1..][1..][1..][1..][1..][1..], a');
    Step(q5, rs[1..][1..][1..][1..][1..], a');
    Step(q4, rs[1..][1..][1..][1..], a');
    Step(q3, rs[1..][1..][1..], a');
    Step(q2, rs[1..][1..], a');
    Step(q1, rs[1..], a');
    Step(q, rs, a');
  }

  lemma {:induction false} FromIllegal(q: Core, a: Arch, t: nat, rs: seq<Service>)
    requires 1 <= t <= 6 && Mid(q, a, Opcode(ILLEGAL, IMP), t, At(a, 1), At(a, 1)) && |rs| == 8 - t
    ensures Arrives(q, rs, Execute(a, Opcode(ILLEGAL, IMP)))
    decreases 6 - t
  {
    hide Cycle, Boundary, Execute, At;
    IllegalStep(q, a, t, rs[0]);
    if t == 6 {
      Fetched(Cycle(q, rs[0]), rs[1..], Execute(a, Opcode(ILLEGAL, IMP)));
    } else {
      FromIllegal(Cycle(q, rs[0]), a, t + 1, rs[1..]);
    }
    Step(q, rs, Execute(a, Opcode(ILLEGAL, IMP)));
  }

  lemma FromImplied(q: Core, a: Arch, op: Op, rs: seq<Service>)
    requires Legal(Opcode(op, IMP)) && Started(q, a, Opcode(op, IMP)) && !op.BRK?
    requires |rs| == ImpliedLatency(op)
    ensures Arrives(q, rs, Execute(a, Opcode(op, IMP)))
  {
    hide Cycle, Boundary, Arrives, JumpToSubroutine, At;
    match op {
      case JSR => FromCall(q, a, rs);
      case RTS | RTI => FromReturn(q, a, op, rs);
      case PHA | PHP | PLA | PLP => FromStackOp(q, a, op, rs);
      case ILLEGAL => FromIllegal(q, a, 1, rs);
      case _ => FromShortImplied(q, a, op, rs);
    }
  }

  lemma FromOpcode(q: Core, a: Arch, o: Opcode, rs: seq<Service>)
    requires Legal(o) && Started(q, a, o) && o != BRK_ && |rs| == OpcodeLatency(a, o)
    ensures Arrives(q, rs, Execute(a, o))
  {
    hide Boundary, Arrives, ExecMemory, At, Lead, Tail, BranchLatency, ImpliedLatency;
    match o.mode {
      case ACC => FromAccumulator(q, a, o.op, rs);
      case REL => FromBranch(q, a, o.op, rs);
      case IND => FromJump(q, a, o, rs);
      case IMP => FromImplied(q, a, o.op, rs);
      case ABS =>
        if o.op.JMP? {
          FromJump(q, a, o, rs);
        } else {
          FromMemory(q, a, o, rs);
        }
      case _ => FromMemory(q, a, o, rs);
    }
  }

  // ---------------------------------------------------------------------------------------------
  // Main results
  // ---------------------------------------------------------------------------------------------

  /** From one boundary the core takes exactly Latency cycles to the next one and does what the
      instruction-level machine does, whatever requests come and go on the way; only the request
      seen in the last cycle decides what is serviced next. */
  lemma InstructionRefines(q: Core, a: Arch, service: Service, rs: seq<Service>)
    requires Boundary(q, a, service) && |rs| == Latency(a, service)
    ensures Arrives(q, rs, Advance(a, service))
  {
    hide OpcodeOf, Arrives, Execute, Interrupt, OpcodeLatency, Legal;
    var o := OpcodeOf(a.mem[a.pc]);
    if service.SOFT? && o != BRK_ {
      FromOpcode(q, a, o, rs);
    } else {
      BrkIsInterrupt(a);
      FromInterrupt(q, a, service, rs);
    }
  }

  lemma BrkIsInterrupt(a: Arch)
    ensures Execute(a, BRK_) == Interrupt(a, ReturnAddress(a, SOFT), true, Vector(SOFT)) && OpcodeLatency(a, BRK_) == 7
  {
    hide Interrupt;
  }

  lemma {:induction false} ArrivesAt(q: Core, rs: seq<Service>, a: Arch)
    requires Arrives(q, rs, a)
    ensures Boundary(Cycles(q, rs), a, rs[|rs| - 1])
    decreases |rs|
  {
    hide Cycle, Boundary;
    if |rs| > 1 {
      ArrivesAt(Cycle(q, rs[0]), rs[1..], a);
    }
  }

  lemma {:induction false} CyclesAdd(q: Core, rs: seq<Service>, ts: seq<Service>)
    ensures Cycles(q, rs + ts) == Cycles(Cycles(q, rs), ts)
    decreases |rs|
  {
    hide Cycle;
    if rs == [] {
      assert rs + ts == ts;
    } else {
      assert (rs + ts)[1..] == rs[1..] + ts;
      CyclesAdd(Cycle(q, rs[0]), rs[1..], ts);
    }
  }

  /** The instruction-level run over a stream of requests: whole instructions and interrupt
      sequences only.  left is the number of cycles at the end that do not complete another one. */
  datatype Progress = Progress(a: Arch, service: Service, left: nat)

  function Follow(a: Arch, service: Service, rs: seq<Service>): (p: Progress)
    ensures p.left <= |rs|
    decreases |rs|
  {
    var n := Latency(a, service);
    if |rs| < n then Progress(a, service, |rs|) else Follow(Advance(a, service), rs[n - 1], rs[n..])
  }

  /** Over any number of instructions: after every run of the core the last boundary it has passed is
      that of the instruction-level machine. */
  lemma {:induction false} CoreRefines(q: Core, a: Arch, service: Service, rs: seq<Service>)
    requires Boundary(q, a, service)
    ensures var p := Follow(a, service, rs); Boundary(Cycles(q, rs[..|rs| - p.left]), p.a, p.service)
    decreases |rs|
  {
    hide Cycle, Boundary, Advance, Latency, Arrives;
    var n := Latency(a, service);
    if |rs| < n {
      assert rs[..0] == [];
    } else {
      var q' := Cycles(q, rs[..n]);
      InstructionRefines(q, a, service, rs[..n]);
      ArrivesAt(q, rs[..n], Advance(a, service));
      CoreRefines(q', Advance(a, service), rs[n - 1], rs[n..]);
      var left := Follow(a, service, rs).left;
      CyclesAdd(q, rs[..n], rs[n..][..|rs| - n - left]);
      assert rs[..|rs| - left] == rs[..n] + rs[n..][..|rs| - n - left];
    }
  }
}
