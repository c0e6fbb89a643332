/** Reset, NMI and IRQ request logic around the core: edge-triggered latches, their acknowledgement
    inside the interrupt sequence, and what an interrupt followed by RTI leaves behind. */
module Interrupts {
  import opened Bytes
  import opened Opcodes
  import opened RegisterFile
  import opened Isa
  import opened CpuCore
  import opened CpuSteps
  import opened CpuStack
  import opened CpuRefinement

  /** Levels of the request lines; all are active low. */
  datatype Lines = Lines(nres: bool, nnmi: bool, nirq: bool)

  /** A latch set by a falling edge of its line; level is the line one cycle ago. */
  datatype Latch = Latch(pending: bool, level: bool)

  /** One cycle of a latch: an acknowledgement wins over an edge. */
  function Sample(l: Latch, clear: bool, level: bool): Latch {
    Latch(if clear then false else l.pending || (l.level && !level), level)
  }

  datatype System = System(core: Core, rst: Latch, nmi: Latch)

  /** What the core is asked to service: reset before NMI before IRQ. */
  function Request(rst: Latch, nmi: Latch, nirq: bool): Service {
    if rst.pending then RST else if nmi.pending then NMI else if !nirq then IRQ else SOFT
  }

  /** One cycle of the core and its request latches. */
  function Tick(y: System, l: Lines): System {
    var line := DecodeRom(y.core).line;
    System(Cycle(y.core, Request(y.rst, y.nmi, l.nirq)),
           Sample(y.rst, line.ClearRst?, l.nres), Sample(y.nmi, line.ClearNmi?, l.nnmi))
  }

  function Ticks(y: System, ls: seq<Lines>): System
    decreases |ls|
  {
    if ls == [] then y else Ticks(Tick(y, ls[0]), ls[1..])
  }

  // ---------------------------------------------------------------------------------------------
  // The instruction-level platform
  // ---------------------------------------------------------------------------------------------

  function Level(l: Lines, nmi: bool): bool { if nmi then l.nnmi else l.nres }

  /** A latch watching its line with nobody acknowledging it. */
  function Watch(l: Latch, ls: seq<Lines>, nmi: bool): (w: Latch)
    ensures l.pending ==> w.pending
    decreases |ls|
  {
    if ls == [] then l else Watch(Sample(l, false, Level(ls[0], nmi)), ls[1..], nmi)
  }

  /** A latch before the last cycle of an instruction or sequence: the sequence that serves it
      acknowledges it in the cycle before that one, whatever the line does meanwhile. */
  function Settled(l: Latch, served: bool, ls: seq<Lines>, nmi: bool): Latch
    requires |ls| > 0
  {
    if served then Latch(false, Level(ls[|ls| - 1], nmi)) else Watch(l, ls, nmi)
  }

  /** The machine between two instructions, together with the request latches. */
  datatype Platform = Platform(a: Arch, service: Service, rst: Latch, nmi: Latch)

  /** One instruction or interrupt sequence during which the lines are as ls.  The request that is
      serviced next is the one pending before its last cycle. */
  function Serve(p: Platform, ls: seq<Lines>): Platform
    requires |ls| == Latency(p.a, p.service)
  {
    var n := |ls| - 1;
    var rst := Settled(p.rst, p.service.RST?, ls[..n], false);
    var nmi := Settled(p.nmi, p.service.NMI?, ls[..n], true);
    Platform(Advance(p.a, p.service), Request(rst, nmi, ls[n].nirq),
             Sample(rst, false, ls[n].nres), Sample(nmi, false, ls[n].nnmi))
  }

  /** The system is at the start of an instruction or sequence and shows p. */
  predicate Shows(y: System, p: Platform) {
    Boundary(y.core, p.a, p.service) && y.rst == p.rst && y.nmi == p.nmi
  }

  // ---------------------------------------------------------------------------------------------
  // The system over one instruction or sequence
  // ---------------------------------------------------------------------------------------------

  function Requests(y: System, ls: seq<Lines>): (rs: seq<Service>)
    ensures |rs| == |ls|
    decreases |ls|
  {
    if ls == [] then [] else [Request(y.rst, y.nmi, ls[0].nirq)] + Requests(Tick(y, ls[0]), ls[1..])
  }

  function Pick(y: System, nmi: bool): Latch { if nmi then y.nmi else y.rst }

  function Server(nmi: bool): Service { if nmi then NMI else RST }

  function Acknowledge(nmi: bool): LineControl { if nmi then ClearNmi else ClearRst }

  lemma {:induction false} TicksCore(y: System, ls: seq<Lines>)
    ensures Ticks(y, ls).core == Cycles(y.core, Requests(y, ls))
    decreases |ls|
  {
    hide Cycle, DecodeRom;
    if ls == [] {
    } else {
      TicksCore(Tick(y, ls[0]), ls[1..]);
      assert Requests(y, ls)[1..] == Requests(Tick(y, ls[0]), ls[1..]);
    }
  }

  /** Splitting off the last cycle. */
  lemma {:induction false} TicksLast(y: System, ls: seq<Lines>)
    requires |ls| > 0
    ensures var n := |ls| - 1; var z := Ticks(y, ls[..n]);
      Ticks(y, ls) == Tick(z, ls[n]) && Requests(y, ls)[n] == Request(z.rst, z.nmi, ls[n].nirq)
    decreases |ls|
  {
    hide Tick, Request;
    if |ls| > 1 {
      TicksLast(Tick(y, ls[0]), ls[1..]);
      assert ls[..|ls| - 1][1..] == ls[1..][..|ls| - 2];
    }
  }

  /** No instruction starts before the end. */
  predicate Busy(y: System, ls: seq<Lines>)
    decreases |ls|
  {
    |ls| > 1 ==> Tick(y, ls[0]).core.t != 1 && Busy(Tick(y, ls[0]), ls[1..])
  }

  lemma {:induction false} ArrivesBusy(y: System, ls: seq<Lines>, a: Arch)
    requires |ls| > 0 && Arrives(y.core, Requests(y, ls), a)
    ensures Busy(y, ls)
    decreases |ls|
  {
    hide Cycle, DecodeRom, Boundary, Request;
    if |ls| > 1 {
      var rs := Requests(y, ls);
      assert rs[1..] == Requests(Tick(y, ls[0]), ls[1..]) && rs[0] == Request(y.rst, y.nmi, ls[0].nirq);
      ArrivesBusy(Tick(y, ls[0]), ls[1..], a);
    }
  }

  lemma {:induction false} BusyPrefix(y: System, ls: seq<Lines>, n: nat)
    requires Busy(y, ls) && n < |ls|
    ensures Busy(y, ls[..n])
    decreases |ls|
  {
    hide Tick;
    if n > 1 {
      BusyPrefix(Tick(y, ls[0]), ls[1..], n - 1);
      assert ls[..n][1..] == ls[1..][..n - 1];
    }
  }

  /** The service changes only where an instruction starts. */
  lemma ServiceKept(q: Core, r: Service)
    requires Cycle(q, r).t != 1
    ensures Cycle(q, r).service == q.service && Cycle(q, r).ir == q.ir
  {
    hide DecodeRom, NextT, Alu, Phase2, DbOut, SbOut, AdhOut, Adl, NextRegisters, OpcodeOf;
    var k := DecodeRom(q);
    KeepsBoth(k, NextT(q, Alu(k, q).carry), r, q);
  }

  lemma KeepsBoth(k: Control, t: nat, r: Service, q: Core)
    ensures var p := Phase2(k, t == 1 && !r.SOFT?, q); p.service == q.service && p.ir == q.ir
  {
    hide Alu, Add16, Hi, Lo, ToWord;
  }

  /** A latch is acknowledged only in T6 of the interrupt sequence that serves it. */
  lemma AcknowledgeIs(q: Core, nmi: bool)
    ensures DecodeRom(q).line == Acknowledge(nmi) <==> q.t == 6 && q.ir == BRK_ && q.service == Server(nmi)
  {
    hide DecodeT1, DecodeT2, DecodeT3, DecodeT4, DecodeT5;
    LineT1(q.ir, q.service);
    LineT2(q.ir, q.ai >= 0x80);
    LineT3(q.ir, q.acr);
    LineT4(q.ir, q.acr, q.service);
    LineT5(q.ir, q.service);
  }

  predicate Unheard(k: Control) { k.line.NoLine? || k.line.Break? }

  lemma LineT1(o: Opcode, service: Service)
    ensures Unheard(DecodeT1(o, service))
  {
    hide StoreSource;
  }

  lemma LineT2(o: Opcode, back: bool)
    ensures Unheard(DecodeT2(o, back))
  {
    hide StoreSource;
  }

  lemma LineT3(o: Opcode, carry: bool)
    ensures Unheard(DecodeT3(o, carry))
  {
    hide StoreSource;
  }

  lemma LineT4(o: Opcode, carry: bool, service: Service)
    ensures Unheard(DecodeT4(o, carry, service))
  {
    hide StoreSource;
  }

  lemma LineT5(o: Opcode, service: Service)
    ensures Unheard(DecodeT5(o, service))
  {
    hide StoreSource;
  }

  lemma {:induction false} Unacknowledged(y: System, ls: seq<Lines>, nmi: bool)
    requires Busy(y, ls) && y.core.service != Server(nmi)
    ensures Pick(Ticks(y, ls), nmi) == Watch(Pick(y, nmi), ls, nmi)
    ensures |ls| > 0 && Ticks(y, ls).core.t != 1 ==> Ticks(y, ls).core.service == y.core.service
    decreases |ls|
  {
    hide Cycle, DecodeRom, Request;
    if ls == [] {
    } else {
      AcknowledgeIs(y.core, nmi);
      if |ls| > 1 || Tick(y, ls[0]).core.t != 1 {
        ServiceKept(y.core, Request(y.rst, y.nmi, ls[0].nirq));
      }
      if |ls| > 1 {
        Unacknowledged(Tick(y, ls[0]), ls[1..], nmi);
      }
    }
  }

  lemma BrkTiming(q: Core, r: Service)
    requires q.ir == BRK_ && 1 <= q.t <= 6
    ensures Cycle(q, r).t == if q.t == 6 then 0 else q.t + 1
  {
    hide DecodeRom, Alu, Phase2, DbOut, SbOut, AdhOut, Adl, NextRegisters, OpcodeOf;
  }

  /** The sequence that serves a latch reaches its acknowledgement in T6. */
  lemma {:induction false} Served(y: System, ls: seq<Lines>, nmi: bool)
    requires y.core.ir == BRK_ && y.core.service == Server(nmi) && 1 <= y.core.t <= 6 && |ls| == 7 - y.core.t
    ensures var z := Ticks(y, ls);
      z.core.t == 0 && Pick(z, nmi) == Latch(false, Level(ls[|ls| - 1], nmi))
    decreases |ls|
  {
    hide Cycle, DecodeRom, Request;
    var r := Request(y.rst, y.nmi, ls[0].nirq);
    AcknowledgeIs(y.core, nmi);
    BrkTiming(y.core, r);
    if y.core.t < 6 {
      ServiceKept(y.core, r);
      Served(Tick(y, ls[0]), ls[1..], nmi);
    }
  }

  lemma {:induction false} BusyInside(y: System, ls: seq<Lines>, n: nat)
    requires Busy(y, ls) && 0 < n < |ls|
    ensures Ticks(y, ls[..n]).core.t != 1
    decreases n
  {
    hide Tick;
    assert ls[..n][1..] == ls[1..][..n - 1];
    if n > 1 {
      BusyInside(Tick(y, ls[0]), ls[1..], n - 1);
    }
  }

  /** Before the last cycle, and in the last cycle nothing is acknowledged. */
  lemma LatchSettles(y: System, p: Platform, ls: seq<Lines>, nmi: bool)
    requires Shows(y, p) && |ls| == Latency(p.a, p.service) && Busy(y, ls)
    ensures var n := |ls| - 1; var z := Ticks(y, ls[..n]);
      Pick(z, nmi) == Settled(Pick(y, nmi), p.service == Server(nmi), ls[..n], nmi) &&
      DecodeRom(z.core).line != Acknowledge(nmi)
  {
    hide Tick, Ticks, Cycle, DecodeRom, OpcodeLatency, Busy, Watch;
    var n := |ls| - 1;
    var z := Ticks(y, ls[..n]);
    AcknowledgeIs(z.core, nmi);
    if p.service == Server(nmi) {
      Served(y, ls[..n], nmi);
    } else {
      BusyPrefix(y, ls, n);
      BusyInside(y, ls, n);
      Unacknowledged(y, ls[..n], nmi);
    }
  }

  // ---------------------------------------------------------------------------------------------
  // Main results
  // ---------------------------------------------------------------------------------------------

  /** The core with its latches does one instruction or sequence of the platform at a time, for every
      behaviour of the request lines. */
  lemma SystemRefines(y: System, p: Platform, ls: seq<Lines>)
    requires Shows(y, p) && |ls| == Latency(p.a, p.service)
    ensures Shows(Ticks(y, ls), Serve(p, ls))
  {
    hide Ticks, Boundary, Cycle, Cycles, DecodeRom, OpcodeLatency, Busy, Watch, Request, Arrives, Advance, Settled;
    var rs := Requests(y, ls);
    InstructionRefines(y.core, p.a, p.service, rs);
    ArrivesAt(y.core, rs, Advance(p.a, p.service));
    ArrivesBusy(y, ls, Advance(p.a, p.service));
    TicksCore(y, ls);
    TicksLast(y, ls);
    LatchSettles(y, p, ls, true);
    LatchSettles(y, p, ls, false);
  }

  /** Over a stream of line levels: whole instructions and sequences, how many of them served an NMI,
      and the number of cycles at the end that do not complete another one. */
  datatype Trace = Trace(p: Platform, served: nat, left: nat)

  function Operate(p: Platform, ls: seq<Lines>): (r: Trace)
    ensures r.left <= |ls|
    decreases |ls|
  {
    var n := Latency(p.a, p.service);
    if |ls| < n then Trace(p, 0, |ls|)
    else
      var r := Operate(Serve(p, ls[..n]), ls[n..]);
      r.(served := r.served + B(p.service.NMI?))
  }

  lemma {:induction false} TicksAdd(y: System, ls: seq<Lines>, ms: seq<Lines>)
    ensures Ticks(y, ls + ms) == Ticks(Ticks(y, ls), ms)
    decreases |ls|
  {
    hide Tick;
    if ls == [] {
      assert ls + ms == ms;
    } else {
      assert (ls + ms)[1..] == ls[1..] + ms;
      TicksAdd(Tick(y, ls[0]), ls[1..], ms);
    }
  }

  /** Over any number of cycles and any behaviour of the lines. */
  lemma {:induction false} SystemFollows(y: System, p: Platform, ls: seq<Lines>)
    requires Shows(y, p)
    ensures var r := Operate(p, ls); Shows(Ticks(y, ls[..|ls| - r.left]), r.p)
    decreases |ls|
  {
    hide Tick, Shows, Serve, Latency;
    var n := Latency(p.a, p.service);
    if |ls| < n {
      assert ls[..0] == [];
    } else {
      SystemRefines(y, p, ls[..n]);
      SystemFollows(Ticks(y, ls[..n]), Serve(p, ls[..n]), ls[n..]);
      var left := Operate(Serve(p, ls[..n]), ls[n..]).left;
      TicksAdd(y, ls[..n], ls[n..][..|ls| - n - left]);
      assert ls[..|ls| - left] == ls[..n] + ls[n..][..|ls| - n - left];
    }
  }

  /** The line falls in cycle i. */
  predicate Falls(level: bool, ls: seq<Lines>, nmi: bool, i: nat)
    requires i < |ls|
  {
    !Level(ls[i], nmi) && if i == 0 then level else Level(ls[i - 1], nmi)
  }

  /** Left alone, a latch is pending exactly if it was or its line has fallen. */
  lemma {:induction false} WatchIsEdge(l: Latch, ls: seq<Lines>, nmi: bool)
    ensures var w := Watch(l, ls, nmi);
      (w.pending <==> l.pending || exists i :: 0 <= i < |ls| && Falls(l.level, ls, nmi, i)) &&
      w.level == if ls == [] then l.level else Level(ls[|ls| - 1], nmi)
    decreases |ls|
  {
    if ls == [] {
    } else {
      var l' := Sample(l, false, Level(ls[0], nmi));
      WatchIsEdge(l', ls[1..], nmi);
      assert Falls(l.level, ls, nmi, 0) == (l.level && !Level(ls[0], nmi));
      if i :| 0 <= i < |ls| - 1 && Falls(l'.level, ls[1..], nmi, i) {
        assert Falls(l.level, ls, nmi, i + 1);
      }
      if i :| 0 < i < |ls| && Falls(l.level, ls, nmi, i) {
        assert Falls(l'.level, ls[1..], nmi, i - 1);
      }
    }
  }

  /** An NMI that is pending, or whose edge comes before the last cycle of the current instruction, is
      serviced right after that instruction unless a reset is; and nothing else causes one. */
  lemma NmiIsTakenNext(y: System, p: Platform, ls: seq<Lines>)
    requires Shows(y, p) && !p.service.NMI? && |ls| == Latency(p.a, p.service)
    ensures var n := |ls| - 1; var rst := Settled(p.rst, p.service.RST?, ls[..n], false);
      Ticks(y, ls).core.service.NMI? <==>
        !rst.pending && (p.nmi.pending || exists i :: 0 <= i < n && Falls(p.nmi.level, ls[..n], true, i))
  {
    hide Tick, Ticks, Watch, Latency, Advance, Falls, Settled;
    SystemRefines(y, p, ls);
    WatchIsEdge(p.nmi, ls[..|ls| - 1], true);
    assert Settled(p.nmi, false, ls[..|ls| - 1], true) == Watch(p.nmi, ls[..|ls| - 1], true) by {
      NotServed(p.nmi, ls[..|ls| - 1], true);
    }
  }

  lemma NotServed(l: Latch, ls: seq<Lines>, nmi: bool)
    requires |ls| > 0
    ensures Settled(l, false, ls, nmi) == Watch(l, ls, nmi)
  {
  }

  /** The seven cycles of an NMI sequence push the address of the instruction that was not executed and
      the status with bit 4 clear, mask interrupts and go through FFFA.  The NMI is not taken a second
      time: an edge in the first six cycles is absorbed and one in the seventh waits for the
      instruction after. */
  lemma NmiIsTakenOnce(y: System, p: Platform, ls: seq<Lines>)
    requires Shows(y, p) && p.service.NMI? && |ls| == 7
    ensures var z := Ticks(y, ls);
      Boundary(z.core, Interrupt(p.a, p.a.pc, false, 0xFFFA), z.core.service) && !z.core.service.NMI? &&
      (z.nmi.pending <==> ls[5].nnmi && !ls[6].nnmi)
  {
    hide Tick, Ticks, Watch, Interrupt;
    SystemRefines(y, p, ls);
    assert ls[..6][5] == ls[5];
  }

  function FallCount(level: bool, ls: seq<Lines>): nat
    decreases |ls|
  {
    if ls == [] then 0 else B(level && !ls[0].nnmi) + FallCount(ls[0].nnmi, ls[1..])
  }

  lemma {:induction false} FallCountAdds(level: bool, ls: seq<Lines>, n: nat)
    requires n <= |ls|
    ensures FallCount(level, ls) ==
      FallCount(level, ls[..n]) + FallCount(if n == 0 then level else ls[n - 1].nnmi, ls[n..])
    decreases n
  {
    if n == 0 {
    } else {
      FallCountAdds(ls[0].nnmi, ls[1..], n - 1);
      assert ls[..n][1..] == ls[1..][..n - 1] && ls[1..][n - 1..] == ls[n..];
    }
  }

  lemma {:induction false} WatchCounts(l: Latch, ls: seq<Lines>)
    ensures B(Watch(l, ls, true).pending) <= B(l.pending) + FallCount(l.level, ls)
    ensures Watch(l, ls, true).level == if ls == [] then l.level else ls[|ls| - 1].nnmi
    decreases |ls|
  {
    if ls == [] {
    } else {
      WatchCounts(Sample(l, false, ls[0].nnmi), ls[1..]);
    }
  }

  /** The NMI latch over one instruction or sequence: what is pending afterwards has come from an edge. */
  lemma ServePays(p: Platform, ls: seq<Lines>)
    requires |ls| == Latency(p.a, p.service) && (p.service.NMI? ==> p.nmi.pending)
    ensures var r := Serve(p, ls);
      B(r.nmi.pending) + B(p.service.NMI?) <= B(p.nmi.pending) + FallCount(p.nmi.level, ls) &&
      r.nmi.level == ls[|ls| - 1].nnmi && (r.service.NMI? ==> r.nmi.pending)
  {
    hide Latency, Advance, Watch;
    var n := |ls| - 1;
    FallCountAdds(p.nmi.level, ls, n);
    assert ls[n..] == [ls[n]] && ls[..n][n - 1] == ls[n - 1];
    assert FallCount(ls[n - 1].nnmi, [ls[n]]) == B(ls[n - 1].nnmi && !ls[n].nnmi);
    WatchCounts(p.nmi, ls[..n]);
  }

  /** Over any run every NMI that is serviced or still pending has a falling edge of its own. */
  lemma {:induction false} NmisArePaidFor(p: Platform, ls: seq<Lines>)
    requires p.service.NMI? ==> p.nmi.pending
    ensures var r := Operate(p, ls);
      r.served + B(r.p.nmi.pending) <= B(p.nmi.pending) + FallCount(p.nmi.level, ls)
    decreases |ls|
  {
    hide Serve, Latency;
    var n := Latency(p.a, p.service);
    if n <= |ls| {
      ServePays(p, ls[..n]);
      NmisArePaidFor(Serve(p, ls[..n]), ls[n..]);
      FallCountAdds(p.nmi.level, ls, n);
    }
  }

  // ---------------------------------------------------------------------------------------------
  // Interrupt and return
  // ---------------------------------------------------------------------------------------------

  /** m is as a.mem but for the three bytes at and below the stack pointer. */
  predicate OnlyStacked(a: Arch, m: Memory) {
    forall k: Word :: k != ToWord(1, a.r.s) && k != ToWord(1, Add8(a.r.s, -1)) && k != ToWord(1, Add8(a.r.s, -2))
      ==> m[k] == a.mem[k]
  }

  lemma StatusRestored(r: Registers, b: bool)
    ensures var p := StatusByte(r, b);
      SetStatus(r, p) == r && (Bit(p, 4) <==> b)
  {
    StatusBit(r, b, 0);
    StatusBit(r, b, 1);
    StatusBit(r, b, 2);
    StatusBit(r, b, 3);
    StatusBit(r, b, 4);
    StatusBit(r, b, 6);
  }

  /** An interrupt whose handler starts with RTI returns to the pushed address with the stack pointer,
      the other registers and all six flags as before; of memory only three stack bytes differ.
      Bit 4 of the pushed status tells a request from BRK. */
  lemma InterruptThenReturn(a: Arch, ret: Word, b: bool, vector: Word)
    requires vector < 0xFFFF
    requires var h := Interrupt(a, ret, b, vector); OpcodeOf(h.mem[h.pc]) == Opcode(RTI, IMP)
    ensures var h := Interrupt(a, ret, b, vector);
      Exec(h) == Arch(a.r, ret, h.mem) && OnlyStacked(a, h.mem) && h.r.i &&
      h.pc == ToWord(h.mem[vector + 1], h.mem[vector]) && (Bit(Stacked(h, 1), 4) <==> b)
  {
    hide OpcodeOf, StatusByte, SetStatus, Bit, Hi, Lo, ToWord, Add8;
    StatusRestored(a.r, b);
    Pointers(a.r.s);
    Halves(ret);
    var h := Interrupt(a, ret, b, vector);
    assert Stacked(h, 1) == StatusByte(a.r, b) && Stacked(h, 2) == Lo(ret) && Stacked(h, 3) == Hi(ret);
    assert Exec(h) == ReturnFromInterrupt(h);
    assert SetStatus(Pop(h.r, 3), Stacked(h, 1)) == SetStatus(a.r, Stacked(h, 1)) by {
      StatusOnly(Pop(h.r, 3), a.r, Stacked(h, 1));
    }
  }

  lemma StatusOnly(r: Registers, t: Registers, p: Byte)
    requires r == t.(i := r.i)
    ensures SetStatus(r, p) == SetStatus(t, p)
  {
    hide Bit;
  }

  /** Three pushes and three pulls of the stack pointer. */
  lemma Pointers(s: Byte)
    ensures var s1 := Add8(s, -1); var s2 := Add8(s1, -1); var s3 := Add8(s2, -1);
      s2 == Add8(s, -2) && Add8(s3, 1) == s2 && Add8(s3, 2) == s1 && Add8(s3, 3) == s && s != s1 && s1 != s2 && s2 != s
  {
    hide Add8;
    Add8Adds(s, -1, -1);
    Add8Adds(s, -2, -1);
    Add8Adds(s, -3, 1);
    Add8Adds(s, -3, 2);
    Add8Adds(s, -3, 3);
    Add8Differs(s, -1, 0);
    Add8Differs(s, -2, 0);
    Add8Differs(s, -2, -1);
  }

  /** The line falls in one of the cycles lo .. hi - 1. */
  predicate FallsIn(level: bool, ls: seq<Lines>, nmi: bool, lo: nat, hi: nat)
    requires hi <= |ls|
  {
    exists i :: lo <= i < hi && Falls(level, ls, nmi, i)
  }

  /** A latch left alone over some of the cycles. */
  lemma WatchPart(l: Latch, level: bool, ls: seq<Lines>, nmi: bool, lo: nat, hi: nat)
    requires lo < hi <= |ls| && l.level == if lo == 0 then level else Level(ls[lo - 1], nmi)
    ensures var w := Watch(l, ls[lo..hi], nmi);
      (w.pending <==> l.pending || FallsIn(level, ls, nmi, lo, hi)) && w.level == Level(ls[hi - 1], nmi)
  {
    hide Watch;
    var ms := ls[lo..hi];
    WatchIsEdge(l, ms, nmi);
    assert forall i :: lo <= i < hi ==> ms[i - lo] == ls[i];
    if i :| 0 <= i < |ms| && Falls(l.level, ms, nmi, i) {
      assert Falls(level, ls, nmi, lo + i);
    }
    if i :| lo <= i < hi && Falls(level, ls, nmi, i) {
      assert Falls(l.level, ms, nmi, i - lo);
    }
  }

  /** The line falls in cycle n or in one of the cycles after it. */
  lemma FallsLater(level: bool, ls: seq<Lines>, nmi: bool, n: nat, hi: nat)
    requires n < hi <= |ls|
    ensures FallsIn(level, ls, nmi, n, hi) <==> Falls(level, ls, nmi, n) || FallsIn(level, ls, nmi, n + 1, hi)
  {
    hide Falls;
  }

  /** A latch over the last cycle of a sequence and the instruction after it. */
  lemma WatchOn(l: Latch, level: bool, ls: seq<Lines>, nmi: bool, n: nat, hi: nat)
    requires 0 < n && n + 1 < hi <= |ls| && !l.pending && l.level == Level(ls[n - 1], nmi)
    ensures Watch(Sample(l, false, Level(ls[n], nmi)), ls[n + 1..hi], nmi).pending <==> FallsIn(level, ls, nmi, n, hi)
  {
    hide Watch, FallsIn;
    WatchPart(Sample(l, false, Level(ls[n], nmi)), level, ls, nmi, n + 1, hi);
    FallsLater(level, ls, nmi, n, hi);
  }

  /** From the core's side: an NMI sequence and an immediate RTI bring it back, thirteen cycles later, to
      the instruction it had dropped.  The NMI line may stay low.  RTI comes next because no reset or IRQ
      request is there in time, and the dropped instruction is executed then if and only if no request
      arrives before the last cycle of RTI; NMI edges before the seventh cycle are absorbed. */
  lemma NmiThenReturn(y: System, p: Platform, ls: seq<Lines>)
    requires Shows(y, p) && p.service.NMI? && !p.rst.pending && |ls| == 13
    requires !FallsIn(p.rst.level, ls, false, 0, 6) && ls[6].nirq
    requires var h := Interrupt(p.a, p.a.pc, false, 0xFFFA); OpcodeOf(h.mem[h.pc]) == Opcode(RTI, IMP)
    ensures var h := Interrupt(p.a, p.a.pc, false, 0xFFFA); var q := Ticks(y, ls).core;
      Boundary(q, Arch(p.a.r, p.a.pc, h.mem), q.service) && OnlyStacked(p.a, h.mem) &&
      (q.service.SOFT? <==>
         !FallsIn(p.rst.level, ls, false, 6, 12) && !FallsIn(p.nmi.level, ls, true, 6, 12) && ls[12].nirq)
  {
    hide OpcodeOf, Interrupt, Exec, Ticks, Tick, OnlyStacked, Watch, FallsIn;
    InterruptThenReturn(p.a, p.a.pc, false, 0xFFFA);
    SystemRefines(y, p, ls[..7]);
    assert ls[..7][..6] == ls[0..6];
    WatchPart(p.rst, p.rst.level, ls, false, 0, 6);
    var rst, nmi := Watch(p.rst, ls[0..6], false), Latch(false, ls[5].nnmi);
    var s := Serve(p, ls[..7]);
    assert s.service.SOFT? && s.rst == Sample(rst, false, ls[6].nres) && s.nmi == Sample(nmi, false, ls[6].nnmi);
    SystemRefines(Ticks(y, ls[..7]), s, ls[7..]);
    assert ls[7..][..5] == ls[7..12];
    WatchOn(rst, p.rst.level, ls, false, 6, 12);
    WatchOn(nmi, p.nmi.level, ls, true, 6, 12);
    TicksAdd(y, ls[..7], ls[7..]);
    assert ls == ls[..7] + ls[7..];
  }
}
