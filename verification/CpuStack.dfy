/** The effect of single core cycles of the stack, subroutine and interrupt sequences.  During
    these the stack pointer register also holds the low byte of a return or target address. */
module CpuStack {
  import opened Bytes
  import opened Opcodes
  import opened RegisterFile
  import opened Isa
  import opened CpuCore
  import opened CpuSteps
  import opened CpuFinish
  import opened CpuImplied
  import D = CpuDecode

  /** A state in the middle of a sequence: the stack pointer register holds s, everything else
      visible is as in r. */
  predicate Inside(q: Core, o: Opcode, service: Service, t: nat, r: Registers, s: Byte, mem: Memory,
                   pc: Word, addr: Word) {
    q.t == t && q.ir == o && q.service == service && q.r == r.(s := s) && q.mem == mem && Pc(q) == pc &&
    Address(q) == addr
  }

  function Sp(a: Arch, k: int): Byte { Add8(a.r.s, k) }

  /** The stack pointer of k + 1 and k - 1, and how the ALU gets there. */
  lemma SpSteps(a: Arch, k: int)
    ensures Add(0, Sp(a, k), true).out == Sp(a, k + 1)
    ensures Add(0xFF, Sp(a, k), false).out == Sp(a, k - 1)
    ensures Sp(a, 0) == a.r.s && Add8(Sp(a, k), -1) == Sp(a, k - 1)
  {
    hide Add, Add8;
    AddSteps(Sp(a, k));
    Add8Adds(a.r.s, k, 1);
    Add8Adds(a.r.s, k, -1);
    assert Add8(a.r.s, 0) == a.r.s by { Add8Nothing(a.r.s); }
  }

  lemma Add8Nothing(b: Byte)
    ensures Add8(b, 0) == b
  {
  }

  // ---------------------------------------------------------------------------------------------
  // PHA, PHP
  // ---------------------------------------------------------------------------------------------

  function PushedValue(a: Arch, op: Op): Byte { if op.PHA? then a.r.ac else StatusByte(a.r, true) }

  lemma PushT1(q: Core, a: Arch, op: Op, r: Service)
    requires (op.PHA? || op.PHP?) && Started(q, a, Opcode(op, IMP))
    ensures var p := Cycle(q, r);
      Mid(p, a, Opcode(op, IMP), 2, At(a, 1), ToWord(1, a.r.s)) && p.dor == PushedValue(a, op)
  {
    hide OpcodeOf, DecodeRom, NextT, Hi, Lo, ToWord, Add16, And8, Bit, Add, Add8, StatusByte;
    D.PushDecode(q, Alu(DecodeRom(q), q).carry);
    Halves(At(a, 1));
  }

  lemma PushT2(q: Core, a: Arch, op: Op, r: Service)
    requires (op.PHA? || op.PHP?) && Mid(q, a, Opcode(op, IMP), 2, At(a, 1), ToWord(1, a.r.s))
    requires q.dor == PushedValue(a, op)
    ensures var p := Cycle(q, r);
      Inside(p, Opcode(op, IMP), SOFT, 3, a.r, a.r.s, a.mem[ToWord(1, a.r.s) := PushedValue(a, op)],
             At(a, 1), At(a, 1)) && p.ai == a.r.s && p.bi == 0xFF
  {
    hide OpcodeOf, DecodeRom, NextT, Hi, Lo, ToWord, Add16, And8, Bit, Add, Add8, StatusByte;
    D.PushDecode(q, Alu(DecodeRom(q), q).carry);
    Halves(At(a, 1));
  }

  lemma PushT3(q: Core, a: Arch, op: Op, r: Service)
    requires (op.PHA? || op.PHP?)
    requires Inside(q, Opcode(op, IMP), SOFT, 3, a.r, a.r.s, a.mem[ToWord(1, a.r.s) := PushedValue(a, op)],
                    At(a, 1), At(a, 1)) && q.ai == a.r.s && q.bi == 0xFF
    ensures Boundary(Cycle(q, r), Execute(a, Opcode(op, IMP)), r)
  {
    hide OpcodeOf, Cycle, Add16, StatusByte, DecodeRom, NextT, Alu;
    var k := DecodeRom(q);
    D.PushDecode(q, Alu(k, q).carry);
    Prefetch(q, r, k, At(a, 1));
    PushPointer(q, r);
  }

  lemma PushPointer(q: Core, r: Service)
    requires DecodeRom(q) == Control(pc := LoadPrgByte, s := AlusumToS) && q.bi == 0xFF
    ensures Cycle(q, r).r == q.r.(s := Add8(q.ai, -1))
  {
    hide OpcodeOf, DecodeRom, NextT, Hi, Lo, ToWord, Add16, AdhOut, Adl, Bit;
  }

  // ---------------------------------------------------------------------------------------------
  // PLA, PLP, and the first two cycles of RTS and RTI
  // ---------------------------------------------------------------------------------------------

  predicate IsPull(op: Op) { op.PLA? || op.PLP? || op.RTS? || op.RTI? }

  lemma PullInputs(q: Core, r: Service)
    requires DecodeRom(q) == Control(ai := ZeroToAi, bi := SToBi)
    ensures Cycle(q, r).ai == 0 && Cycle(q, r).bi == q.r.s
  {
    hide OpcodeOf, DecodeRom, NextT, Hi, Lo, ToWord, Add16, And8, Alu, DbOut, AdhOut;
  }

  lemma PullT1(q: Core, a: Arch, op: Op, r: Service)
    requires IsPull(op) && Started(q, a, Opcode(op, IMP))
    ensures var p := Cycle(q, r);
      Mid(p, a, Opcode(op, IMP), 2, At(a, 1), At(a, 1)) && p.ai == 0 && p.bi == a.r.s
  {
    hide OpcodeOf, DecodeRom, NextT, Cycle, Alu, At;
    var k := DecodeRom(q);
    match op {
      case RTS => D.RtsDecode(q, Alu(k, q).carry);
      case RTI => D.RtiDecode(q, Alu(k, q).carry);
      case _ => D.PullDecode(q, Alu(k, q).carry);
    }
    InternalCycle(q, r, k, 2);
    PullInputs(q, r);
  }

  lemma PullT2(q: Core, a: Arch, op: Op, r: Service)
    requires (op.PLA? || op.PLP?) && Mid(q, a, Opcode(op, IMP), 2, At(a, 1), At(a, 1))
    requires q.ai == 0 && q.bi == a.r.s
    ensures Inside(Cycle(q, r), Opcode(op, IMP), SOFT, 3, a.r, Sp(a, 1), a.mem, At(a, 1), ToWord(1, Sp(a, 1)))
  {
    hide OpcodeOf, DecodeRom, NextT, Hi, Lo, ToWord, Add16, And8, Bit, Add, Add8;
    D.PullDecode(q, Alu(DecodeRom(q), q).carry);
    SpSteps(a, 0);
    Halves(At(a, 1));
  }

  lemma PullLast(q: Core, r: Service, k: Control)
    requires DecodeRom(q) == k == Control(pc := LoadPrgByteNoinc, op := k.op, p := k.p) && !k.p.OneToI?
    requires NextT(q, Alu(k, q).carry) == 0
    ensures var p := Cycle(q, r); p.t == 0 && p.mem == q.mem && Pc(p) == Pc(q) == Address(p)
  {
    hide OpcodeOf, DecodeRom, NextT, Hi, Lo, ToWord, Alu, DbOut, SbOut, NextRegisters;
    Halves(Pc(q));
  }

  lemma PullRegisters(q: Core, r: Service, k: Control)
    requires DecodeRom(q) == k
    requires k == Control(pc := LoadPrgByteNoinc, op := LoadOp(A)) || k == Control(pc := LoadPrgByteNoinc, p := DlToP)
    ensures var m := q.mem[Address(q)]; Cycle(q, r).r == if k.p.DlToP? then SetStatus(q.r, m) else LoadA(q.r, m)
  {
    hide OpcodeOf, DecodeRom, NextT, Hi, Lo, ToWord, Alu, AdhOut, Adl, And8, Bit;
  }

  lemma PullT3(q: Core, a: Arch, op: Op, r: Service)
    requires op.PLA? || op.PLP?
    requires Inside(q, Opcode(op, IMP), SOFT, 3, a.r, Sp(a, 1), a.mem, At(a, 1), ToWord(1, Sp(a, 1)))
    ensures AtFetch(Cycle(q, r), Execute(a, Opcode(op, IMP)))
  {
    hide OpcodeOf, DecodeRom, NextT, Cycle, Alu, Add16, Add8, ToWord, SetStatus, LoadA;
    var k := DecodeRom(q);
    D.PullDecode(q, Alu(k, q).carry);
    PullLast(q, r, k);
    PullRegisters(q, r, k);
  }

  lemma ReturnT2(q: Core, a: Arch, op: Op, r: Service)
    requires (op.RTS? || op.RTI?) && Mid(q, a, Opcode(op, IMP), 2, At(a, 1), At(a, 1))
    requires q.ai == 0 && q.bi == a.r.s
    ensures var p := Cycle(q, r);
      Inside(p, Opcode(op, IMP), SOFT, 3, a.r, a.r.s, a.mem, At(a, 1), ToWord(1, Sp(a, 1))) &&
      p.ai == 0 && p.bi == Sp(a, 1)
  {
    hide OpcodeOf, DecodeRom, NextT, Hi, Lo, ToWord, Add16, And8, Bit, Add, Add8;
    var k := DecodeRom(q);
    if op.RTS? {
      D.RtsDecode(q, Alu(k, q).carry);
    } else {
      D.RtiDecode(q, Alu(k, q).carry);
    }
    SpSteps(a, 0);
    Halves(At(a, 1));
  }

  // ---------------------------------------------------------------------------------------------
  // RTS
  // ---------------------------------------------------------------------------------------------

  const RTS_: Opcode := Opcode(RTS, IMP)
  const RTI_: Opcode := Opcode(RTI, IMP)
  const JSR_: Opcode := Opcode(JSR, IMP)
  const BRK_: Opcode := Opcode(BRK, IMP)

  lemma RtsT3(q: Core, a: Arch, r: Service)
    requires Inside(q, RTS_, SOFT, 3, a.r, a.r.s, a.mem, At(a, 1), ToWord(1, Sp(a, 1)))
    requires q.ai == 0 && q.bi == Sp(a, 1)
    ensures var p := Cycle(q, r);
      Inside(p, RTS_, SOFT, 4, a.r, Stacked(a, 1), a.mem, At(a, 1), ToWord(1, Sp(a, 2))) &&
      p.ai == 0 && p.bi == Sp(a, 1)
  {
    hide OpcodeOf, DecodeRom, NextT, Hi, Lo, ToWord, Add16, And8, Bit, Add, Add8;
    D.RtsDecode(q, Alu(DecodeRom(q), q).carry);
    Halves(At(a, 1));
    SpSteps(a, 1);
  }

  lemma RtsT4(q: Core, a: Arch, r: Service)
    requires Inside(q, RTS_, SOFT, 4, a.r, Stacked(a, 1), a.mem, At(a, 1), ToWord(1, Sp(a, 2)))
    requires q.ai == 0 && q.bi == Sp(a, 1)
    ensures Inside(Cycle(q, r), RTS_, SOFT, 5, a.r, Sp(a, 2), a.mem,
                   ToWord(Stacked(a, 2), Stacked(a, 1)), ToWord(1, Sp(a, 2)))
  {
    hide OpcodeOf, DecodeRom, NextT, Hi, Lo, ToWord, Add16, And8, Bit, Add, Add8;
    D.RtsDecode(q, Alu(DecodeRom(q), q).carry);
    SpSteps(a, 1);
  }

  lemma RtsT5(q: Core, a: Arch, r: Service)
    requires Inside(q, RTS_, SOFT, 5, a.r, Sp(a, 2), a.mem, ToWord(Stacked(a, 2), Stacked(a, 1)),
                    ToWord(1, Sp(a, 2)))
    ensures AtFetch(Cycle(q, r), ReturnFromSubroutine(a))
  {
    hide OpcodeOf, Cycle, Add16, ToWord;
    ProgramByte(q, r, DecodeRom(q), 0, Add16(ToWord(Stacked(a, 2), Stacked(a, 1)), 1));
  }

  // ---------------------------------------------------------------------------------------------
  // RTI
  // ---------------------------------------------------------------------------------------------

  lemma RtiT3(q: Core, a: Arch, r: Service)
    requires Inside(q, RTI_, SOFT, 3, a.r, a.r.s, a.mem, At(a, 1), ToWord(1, Sp(a, 1)))
    requires q.ai == 0 && q.bi == Sp(a, 1)
    ensures var p := Cycle(q, r);
      Inside(p, RTI_, SOFT, 4, SetStatus(a.r, Stacked(a, 1)), a.r.s, a.mem, At(a, 1), ToWord(1, Sp(a, 2))) &&
      p.ai == 0 && p.bi == Sp(a, 2)
  {
    hide OpcodeOf, DecodeRom, NextT, Hi, Lo, ToWord, Add16, And8, Bit, Add, Add8;
    D.RtiDecode(q, Alu(DecodeRom(q), q).carry);
    Halves(At(a, 1));
    SpSteps(a, 1);
  }

  lemma RtiT4(q: Core, a: Arch, r: Service)
    requires Inside(q, RTI_, SOFT, 4, SetStatus(a.r, Stacked(a, 1)), a.r.s, a.mem, At(a, 1), ToWord(1, Sp(a, 2)))
    requires q.ai == 0 && q.bi == Sp(a, 2)
    ensures var p := Cycle(q, r);
      Inside(p, RTI_, SOFT, 5, SetStatus(a.r, Stacked(a, 1)), Stacked(a, 2), a.mem, At(a, 1), ToWord(1, Sp(a, 3))) &&
      p.ai == 0 && p.bi == Sp(a, 2)
  {
    hide OpcodeOf, DecodeRom, NextT, Hi, Lo, ToWord, Add16, And8, Bit, Add, Add8;
    D.RtiDecode(q, Alu(DecodeRom(q), q).carry);
    Halves(At(a, 1));
    SpSteps(a, 2);
  }

  lemma RtiT5(q: Core, a: Arch, r: Service)
    requires Inside(q, RTI_, SOFT, 5, SetStatus(a.r, Stacked(a, 1)), Stacked(a, 2), a.mem, At(a, 1),
                    ToWord(1, Sp(a, 3)))
    requires q.ai == 0 && q.bi == Sp(a, 2)
    ensures AtFetch(Cycle(q, r), ReturnFromInterrupt(a))
  {
    hide OpcodeOf, DecodeRom, NextT, Hi, Lo, ToWord, Add16, And8, Bit, Add, Add8;
    D.RtiDecode(q, Alu(DecodeRom(q), q).carry);
    SpSteps(a, 2);
  }

  // ---------------------------------------------------------------------------------------------
  // JSR
  // ---------------------------------------------------------------------------------------------

  function JsrMemory(a: Arch, pushed: nat): Memory
    requires pushed <= 2
  {
    var m := if pushed == 0 then a.mem else a.mem[ToWord(1, a.r.s) := Hi(At(a, 2))];
    if pushed < 2 then m else m[ToWord(1, Sp(a, -1)) := Lo(At(a, 2))]
  }

  lemma JsrT1(q: Core, a: Arch, r: Service)
    requires Started(q, a, JSR_)
    ensures var p := Cycle(q, r);
      Inside(p, JSR_, SOFT, 2, a.r, Fetch(a, 1), JsrMemory(a, 0), At(a, 2), ToWord(1, a.r.s)) && p.bi == a.r.s
  {
    hide OpcodeOf, DecodeRom, NextT, Hi, Lo, ToWord, Add16, And8, Bit, Add, Add8;
    D.JsrDecode(q, Alu(DecodeRom(q), q).carry);
    NextByte(a, 1);
  }

  lemma JsrT2(q: Core, a: Arch, r: Service)
    requires Inside(q, JSR_, SOFT, 2, a.r, Fetch(a, 1), JsrMemory(a, 0), At(a, 2), ToWord(1, a.r.s))
    requires q.bi == a.r.s
    ensures var p := Cycle(q, r);
      Inside(p, JSR_, SOFT, 3, a.r, Fetch(a, 1), JsrMemory(a, 0), At(a, 2), ToWord(1, a.r.s)) &&
      p.ai == 0xFF && p.bi == a.r.s && p.dor == Hi(At(a, 2))
  {
    hide OpcodeOf, DecodeRom, NextT, Hi, Lo, ToWord, Add16, And8, Bit, Add, Add8;
    D.JsrDecode(q, Alu(DecodeRom(q), q).carry);
    Halves(At(a, 2));
  }

  lemma JsrT3(q: Core, a: Arch, r: Service)
    requires Inside(q, JSR_, SOFT, 3, a.r, Fetch(a, 1), JsrMemory(a, 0), At(a, 2), ToWord(1, a.r.s))
    requires q.ai == 0xFF && q.bi == a.r.s && q.dor == Hi(At(a, 2))
    ensures var p := Cycle(q, r);
      Inside(p, JSR_, SOFT, 4, a.r, Fetch(a, 1), JsrMemory(a, 1), At(a, 2), ToWord(1, Sp(a, -1))) &&
      p.ai == 0xFF && p.bi == Sp(a, -1) && p.dor == Lo(At(a, 2))
  {
    hide OpcodeOf, DecodeRom, NextT, Hi, Lo, ToWord, Add16, And8, Bit, Add, Add8;
    D.JsrDecode(q, Alu(DecodeRom(q), q).carry);
    Halves(At(a, 2));
    SpSteps(a, 0);
  }

  lemma JsrT4(q: Core, a: Arch, r: Service)
    requires Inside(q, JSR_, SOFT, 4, a.r, Fetch(a, 1), JsrMemory(a, 1), At(a, 2), ToWord(1, Sp(a, -1)))
    requires q.ai == 0xFF && q.bi == Sp(a, -1) && q.dor == Lo(At(a, 2))
    ensures var p := Cycle(q, r);
      Inside(p, JSR_, SOFT, 5, a.r, Fetch(a, 1), JsrMemory(a, 2), At(a, 2), At(a, 2)) &&
      p.ai == 0xFF && p.bi == Sp(a, -1)
  {
    hide OpcodeOf, DecodeRom, NextT, Hi, Lo, ToWord, Add16, And8, Bit, Add, Add8;
    D.JsrDecode(q, Alu(DecodeRom(q), q).carry);
    Halves(At(a, 2));
  }

  lemma JsrT5(q: Core, a: Arch, r: Service)
    requires Inside(q, JSR_, SOFT, 5, a.r, Fetch(a, 1), JsrMemory(a, 2), At(a, 2), At(a, 2))
    requires q.ai == 0xFF && q.bi == Sp(a, -1)
    ensures AtFetch(Cycle(q, r), JumpToSubroutine(a))
  {
    hide OpcodeOf, DecodeRom, NextT, Hi, Lo, ToWord, Add16, And8, Bit, Add, Add8;
    D.JsrDecode(q, Alu(DecodeRom(q), q).carry);
    SpSteps(a, -1);
  }

  // ---------------------------------------------------------------------------------------------
  // BRK and interrupt requests
  // ---------------------------------------------------------------------------------------------

  function Vector(service: Service): (v: Word)
    ensures v < 0xFFFF
  {
    match service
    case RST => 0xFFFC
    case NMI => 0xFFFA
    case _ => 0xFFFE
  }

  /** The address that is pushed: past the padding byte of a BRK, or of the opcode that was dropped. */
  function ReturnAddress(a: Arch, service: Service): Word { if service.SOFT? then At(a, 2) else a.pc }

  function BrkMemory(a: Arch, service: Service, pushed: nat): Memory
    requires pushed <= 3
  {
    var ret := ReturnAddress(a, service);
    var m1 := if pushed == 0 then a.mem else a.mem[ToWord(1, a.r.s) := Hi(ret)];
    var m2 := if pushed < 2 then m1 else m1[ToWord(1, Sp(a, -1)) := Lo(ret)];
    if pushed < 3 then m2 else m2[ToWord(1, Sp(a, -2)) := StatusByte(a.r, service.SOFT?)]
  }

  function Masked(a: Arch): Registers { a.r.(i := true) }

  lemma BrkT1(q: Core, a: Arch, service: Service, r: Service)
    requires Boundary(q, a, service) && q.ir == BRK_
    ensures var p := Cycle(q, r);
      Inside(p, BRK_, service, 2, a.r, a.r.s, BrkMemory(a, service, 0), ReturnAddress(a, service), ToWord(1, a.r.s)) &&
      p.ai == 0xFF && p.bi == a.r.s && p.dor == Hi(ReturnAddress(a, service))
  {
    hide OpcodeOf, DecodeRom, NextT, Hi, Lo, ToWord, Add16, And8, Bit, Add, Add8, StatusByte;
    D.BrkDecode(q, Alu(DecodeRom(q), q).carry);
    NextByte(a, 1);
    Halves(a.pc);
  }

  lemma BrkT2(q: Core, a: Arch, service: Service, r: Service)
    requires Inside(q, BRK_, service, 2, a.r, a.r.s, BrkMemory(a, service, 0), ReturnAddress(a, service),
                    ToWord(1, a.r.s))
    requires q.ai == 0xFF && q.bi == a.r.s && q.dor == Hi(ReturnAddress(a, service))
    ensures var p := Cycle(q, r);
      Inside(p, BRK_, service, 3, a.r, a.r.s, BrkMemory(a, service, 1), ReturnAddress(a, service),
             ToWord(1, Sp(a, -1))) &&
      p.ai == 0xFF && p.bi == Sp(a, -1) && p.dor == Lo(ReturnAddress(a, service))
  {
    hide OpcodeOf, DecodeRom, NextT, Hi, Lo, ToWord, Add16, And8, Bit, Add, Add8, StatusByte;
    D.BrkDecode(q, Alu(DecodeRom(q), q).carry);
    Halves(ReturnAddress(a, service));
    SpSteps(a, 0);
  }

  lemma BrkT3(q: Core, a: Arch, service: Service, r: Service)
    requires Inside(q, BRK_, service, 3, a.r, a.r.s, BrkMemory(a, service, 1), ReturnAddress(a, service),
                    ToWord(1, Sp(a, -1)))
    requires q.ai == 0xFF && q.bi == Sp(a, -1) && q.dor == Lo(ReturnAddress(a, service))
    ensures var p := Cycle(q, r);
      Inside(p, BRK_, service, 4, a.r, a.r.s, BrkMemory(a, service, 2), ReturnAddress(a, service),
             ToWord(1, Sp(a, -2))) &&
      p.ai == 0xFF && p.bi == Sp(a, -2) && p.dor == StatusByte(a.r, service.SOFT?) && p.add == Sp(a, -2)
  {
    hide OpcodeOf, DecodeRom, NextT, Hi, Lo, ToWord, Add16, And8, Bit, Add, Add8, StatusByte;
    D.BrkDecode(q, Alu(DecodeRom(q), q).carry);
    Halves(ReturnAddress(a, service));
    SpSteps(a, -1);
  }

  lemma BrkT4(q: Core, a: Arch, service: Service, r: Service)
    requires Inside(q, BRK_, service, 4, a.r, a.r.s, BrkMemory(a, service, 2), ReturnAddress(a, service),
                    ToWord(1, Sp(a, -2)))
    requires q.ai == 0xFF && q.bi == Sp(a, -2) && q.dor == StatusByte(a.r, service.SOFT?)
    ensures var p := Cycle(q, r);
      Inside(p, BRK_, service, 5, Masked(a), a.r.s, BrkMemory(a, service, 3), ReturnAddress(a, service),
             Vector(service)) &&
      p.ai == 0xFF && p.bi == Sp(a, -2)
  {
    hide OpcodeOf, DecodeRom, NextT, Hi, Lo, ToWord, Add16, And8, Bit, Add, Add8, StatusByte;
    D.BrkDecode(q, Alu(DecodeRom(q), q).carry);
    VectorWords(service);
    Halves(ReturnAddress(a, service));
  }

  lemma BrkT5(q: Core, a: Arch, service: Service, r: Service)
    requires Inside(q, BRK_, service, 5, Masked(a), a.r.s, BrkMemory(a, service, 3), ReturnAddress(a, service),
                    Vector(service))
    requires q.ai == 0xFF && q.bi == Sp(a, -2)
    ensures var p := Cycle(q, r);
      Inside(p, BRK_, service, 6, Masked(a), q.mem[Vector(service)], BrkMemory(a, service, 3),
             ReturnAddress(a, service), Vector(service) + 1) &&
      p.ai == 0xFF && p.bi == Sp(a, -2)
  {
    hide OpcodeOf, DecodeRom, NextT, Hi, Lo, ToWord, Add16, And8, Bit, Add, Add8, StatusByte, BrkMemory, ReturnAddress, Sp,
      Masked, Vector;
    D.BrkDecode(q, Alu(DecodeRom(q), q).carry);
    VectorWords(service);
    Halves(ReturnAddress(a, service));
  }

  /** The interrupt sequence as a whole, in terms of the memory it has built up. */
  lemma InterruptIs(a: Arch, service: Service)
    ensures var ret, m, v := ReturnAddress(a, service), BrkMemory(a, service, 3), Vector(service);
      Interrupt(a, ret, service.SOFT?, v) == Arch(Masked(a).(s := Sp(a, -3)), ToWord(m[v + 1], m[v]), m)
  {
    hide StatusByte, Add8, ToWord, Hi, Lo;
    SpSteps(a, 0);
    SpSteps(a, -1);
    SpSteps(a, -2);
  }

  lemma BrkT6(q: Core, a: Arch, service: Service, r: Service)
    requires Inside(q, BRK_, service, 6, Masked(a), q.mem[Vector(service)], BrkMemory(a, service, 3),
                    ReturnAddress(a, service), Vector(service) + 1)
    requires q.ai == 0xFF && q.bi == Sp(a, -2)
    ensures AtFetch(Cycle(q, r), Interrupt(a, ReturnAddress(a, service), service.SOFT?, Vector(service)))
  {
    hide OpcodeOf, DecodeRom, NextT, Hi, Lo, ToWord, Add16, And8, Bit, Add, Add8, StatusByte, Interrupt,
      BrkMemory, ReturnAddress, Vector;
    D.BrkDecode(q, Alu(DecodeRom(q), q).carry);
    InterruptIs(a, service);
    SpSteps(a, -2);
  }

  /** The vectors lie at the end of page 0xFF. */
  lemma VectorWords(service: Service)
    ensures var low := match service case RST => 0xFC case NMI => 0xFA case _ => 0xFE;
      ToWord(0xFF, low) == Vector(service) && ToWord(0xFF, low + 1) == Vector(service) + 1
    ensures Bit(0xFF, 2)
  {
    assert Bit(0xFF / 2, 1);
  }

  // ---------------------------------------------------------------------------------------------
  // Bytes that are not opcodes
  // ---------------------------------------------------------------------------------------------

  lemma IllegalStep(q: Core, a: Arch, t: nat, r: Service)
    requires 1 <= t <= 6 && Mid(q, a, Opcode(ILLEGAL, IMP), t, At(a, 1), At(a, 1))
    ensures if t == 6 then AtFetch(Cycle(q, r), Execute(a, Opcode(ILLEGAL, IMP)))
            else Mid(Cycle(q, r), a, Opcode(ILLEGAL, IMP), t + 1, At(a, 1), At(a, 1))
  {
    hide OpcodeOf, Cycle, Add16;
    InternalCycle(q, r, DecodeRom(q), if t == 6 then 0 else t + 1);
  }
}
