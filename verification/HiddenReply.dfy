/** A session whose last reply never arrives: of two halt queries the second is answered in the clock in which
    the first answer leaves the transmit buffer, and the early empty flag hides it for good. */
module HiddenReply {
  import opened Bytes
  import opened Uart
  import opened Packets
  import opened Hci
  import opened HciFraming
  import opened DebugLink
  import opened LinkProgress
  import opened LinkPace
  import opened LinkRoom
  import HciBuffer
  import UartLink
  import Fifo

  const QUERY: Byte := 0x07

  /** Two halt queries, and a unit that waits for packets. */
  predicate Querying(y: System, g: Trail, all: seq<Byte>) {
    y.Valid() && all == [QUERY, QUERY] && y.m.k.ctl.Decode? && |g.t| <= 1
  }

  /** Nothing is in the receive buffer and nothing on its way out. */
  predicate Resting(y: System, g: Trail) { g.s == [] && !y.m.wrEn }

  /** A byte shows in the receive buffer. */
  predicate Arrived(y: System, g: Trail) {
    g.s == [QUERY] && !y.rxq.empty && !y.rx.done && !y.m.wrEn
  }

  lemma FewFit(y: System, g: Trail, all: seq<Byte>, k0: Engine)
    requires y.Valid() && Inv(y, g, all, k0) && |g.s| <= 2 && |g.t| <= 1
    ensures Fits(y)
  {
    hide UpInv, RxInv, UnitInv, DownInv, Fifo.Step, Fifo.Holds, HciBuffer.RepliesBlindly, Shown;
    Holding(y, g, all, k0);
    FewIsNotFull(y.rxq, g.s);
    OneIsNotFull(y.txq, g.t, TxInput(y));
  }

  /** Without a byte the unit stands still. */
  lemma UnitRests(y: System)
    requires y.Valid() && WaitsForByte(y.m.k) && y.rxq.empty && !y.parityErr && y.m.k.rx == []
    ensures var m := NextMachine(y); m.k == y.m.k && !m.wrEn && !Moves(Shown(y).k, Flags(y)) && !Consumes(y)
  {
    hide CpuCell, PpuCell, Advance, WaitsForByte;
    SameWaits(y.m.k, []);
  }

  /** A halt query is answered at once. */
  lemma UnitAnswers(y: System)
    requires y.Valid() && y.m.k.ctl.Decode? && !y.rxq.empty && Fifo.Front(y.rxq) == QUERY
    ensures NextMachine(y).k.ctl.Decode? && NextMachine(y).wrEn && Consumes(y) && Moves(Shown(y).k, Flags(y))
  {
    hide CpuCell, PpuCell;
  }

  /** A clock without a tick of the way back, with the unit at rest. */
  lemma QuietStep(y: System, g: Trail, all: seq<Byte>, k0: Engine, i: Input)
    requires Querying(y, g, all) && Inv(y, g, all, k0) && Resting(y, g) && !y.tx.done && (g.down.Between? ==> g.t == [])
    ensures var h, r := NextTrail(y, g, i), Step(y, i);
      Fits(y) && Inv(r, h, all, k0) && Querying(r, h, all) && !r.m.wrEn && |h.t| == |g.t| && h.taken == g.taken &&
      |h.s| == B(y.rx.done) && (h.s != [] ==> !r.rxq.empty) && |h.recv| == |g.recv| + B(y.rx.done) &&
      (if g.down.Between? then h.down.Between? && !r.tx.done
       else if g.down.pos + B(i.downTick) < 176 then
         h.down.Within? && h.down.pos == g.down.pos + B(i.downTick) && !r.tx.done
       else h.down.Between? && r.tx.done)
  {
    hide UpInv, RxInv, UnitInv, DownInv, Fifo.Step, Fifo.Holds, Fits, NextTrail, NextMachine, Moves, Consumes, StepTx, StepRx, Shown,
      UartLink.Inv;
    var h, r := NextTrail(y, g, i), Step(y, i);
    FewFit(y, g, all, k0);
    StepKeeps(y, g, all, k0, i);
    Holding(y, g, all, k0);
    EmptyShows(y.rxq, g.s);
    assert !y.parityErr by { NoParityError(y, g, all); }
    assert y.m.k.rx == [] by { NoneKept(y, g, all, k0); }
    UnitRests(y);
    TrailLengths(y, g, i);
    TrailCounts(y, g, i);
    PhaseMoves(y, g, i);
    StepBuffers(y, i);
    StillTx(r, h);
    assert |h.recv| == |g.recv| + B(y.rx.done) by { RecvGrows(y, g, all, i); }
    RxFilled(y.rxq, RxInput(y));
  }

  lemma NoneKept(y: System, g: Trail, all: seq<Byte>, k0: Engine)
    requires UnitInv(y, g, all, k0)
    ensures y.m.k.rx == []
  {
    hide FastN, LatchReady;
  }

  lemma RxFilled(q: Fifo.State<Byte>, i: Fifo.Input<Byte>)
    requires Fifo.Holds(q, []) && !i.read
    ensures |Fifo.Popped(q, i)| == 0 && |Fifo.Pushed(q, i)| == B(i.write) && (i.write ==> !Fifo.Step(q, i).empty)
  {
    Fifo.PointersCount(q, []);
  }

  lemma RecvGrows(y: System, g: Trail, all: seq<Byte>, i: Input)
    requires y.Valid() && UpInv(y, g, all)
    ensures |NextTrail(y, g, i).recv| == |g.recv| + B(y.rx.done)
  {
    hide UpInv, UartLink.Step, NextUnit, UartLink.NextPhase;
    UpStep(y, g, all, i);
  }

  /** The receiver's done signal lasts one clock, and none comes without a tick. */
  lemma DoneOnce(y: System, g: Trail, all: seq<Byte>, i: Input)
    requires y.Valid() && UpInv(y, g, all) && (y.rx.done || !i.upTick)
    ensures !Step(y, i).rx.done
  {
    hide UartLink.TxAt, UartLink.LevelAt, Wired, NextMachine, Fifo.Step, StepTx, Reduce, Consumes;
  }

  lemma AllQueries(y: System, g: Trail, all: seq<Byte>)
    requires RxInv(y, g, all) && all == [QUERY, QUERY] && |g.s| == 1
    ensures g.s == [QUERY]
  {
    hide Fifo.Holds;
  }

  /** Where a stage leaves the way back. */
  predicate SameWay(y: System, g: Trail, r: System, h: Trail) {
    |h.t| == |g.t| && !r.tx.done && if g.down.Between? then h.down.Between? else h.down.Within? && h.down.pos == g.down.pos
  }

  /** Ticks of the way to the unit alone bring the next byte. */
  lemma {:induction false} ByteComes(y: System, g: Trail, all: seq<Byte>, k0: Engine) returns (ins: seq<Input>)
    requires Querying(y, g, all) && Inv(y, g, all, k0) && Resting(y, g) && !y.tx.done && (g.down.Between? ==> g.t == [])
    requires |g.recv| < 2 && (g.down.Within? ==> g.down.pos < 176)
    ensures AllFits(y, ins)
    ensures var r, h := DebugLink.Run(y, ins), Trails(y, g, ins);
      Inv(r, h, all, k0) && Querying(r, h, all) && Arrived(r, h) && SameWay(y, g, r, h) && |h.recv| == |g.recv| + 1
    decreases UartLink.Remaining(Up(y, g), g.up)
  {
    hide UpInv, RxInv, UnitInv, DownInv, Fits, NextTrail, Step, UartLink.Remaining, Up;
    var i := Input(true, false, true);
    var r, h := Step(y, i), NextTrail(y, g, i);
    QuietStep(y, g, all, k0, i);
    UpProgress(y, g, all, i);
    var rest: seq<Input> := [];
    if y.rx.done {
      DoneOnce(y, g, all, i);
      AllQueries(r, h, all);
    } else {
      rest := ByteComes(r, h, all, k0);
    }
    ins := [i] + rest;
    assert ins[0] == i && ins[1..] == rest;
  }

  /** Ticks of the way back alone bring the frame on. */
  lemma {:induction false} FrameGoesOn(y: System, g: Trail, all: seq<Byte>, k0: Engine, goal: nat) returns (ins: seq<Input>)
    requires Querying(y, g, all) && Inv(y, g, all, k0) && Resting(y, g) && !y.tx.done && !y.rx.done
    requires g.down.Within? && g.down.pos <= goal < 176
    ensures AllFits(y, ins)
    ensures var r, h := DebugLink.Run(y, ins), Trails(y, g, ins);
      Inv(r, h, all, k0) && Querying(r, h, all) && Resting(r, h) && !r.tx.done && !r.rx.done &&
      h.down.Within? && h.down.pos == goal && |h.t| == |g.t| && |h.recv| == |g.recv|
    decreases goal - g.down.pos
  {
    hide UpInv, RxInv, UnitInv, DownInv, Fits, NextTrail, Step;
    if g.down.pos == goal {
      ins := [];
    } else {
      var i := Input(false, true, false);
      QuietStep(y, g, all, k0, i);
      DoneOnce(y, g, all, i);
      var rest := FrameGoesOn(Step(y, i), NextTrail(y, g, i), all, k0, goal);
      ins := [i] + rest;
      assert ins[0] == i && ins[1..] == rest;
    }
  }

  /** The unit takes a query and hands over its answer. */
  lemma QueryTaken(y: System, g: Trail, all: seq<Byte>, k0: Engine, i: Input)
    requires Querying(y, g, all) && Inv(y, g, all, k0) && Arrived(y, g) && !y.tx.done && !i.upTick
    requires g.down.Between? ==> g.t == []
    ensures var h, r := NextTrail(y, g, i), Step(y, i);
      Fits(y) && Inv(r, h, all, k0) && Querying(r, h, all) && h.s == [] && r.m.wrEn && !r.rx.done && |h.t| == |g.t| &&
      |h.recv| == |g.recv| &&
      (if g.down.Between? then h.down.Between? && !r.tx.done
       else if g.down.pos + B(i.downTick) < 176 then
         h.down.Within? && h.down.pos == g.down.pos + B(i.downTick) && !r.tx.done
       else h.down.Between? && r.tx.done)
  {
    hide UpInv, RxInv, UnitInv, DownInv, Fifo.Step, Fifo.Holds, Fits, NextTrail, NextMachine, Moves, Consumes, StepTx, StepRx, Shown,
      UartLink.Inv;
    var h, r := NextTrail(y, g, i), Step(y, i);
    FewFit(y, g, all, k0);
    StepKeeps(y, g, all, k0, i);
    Holding(y, g, all, k0);
    FrontOf(y.rxq, g.s);
    UnitAnswers(y);
    TrailLengths(y, g, i);
    PhaseMoves(y, g, i);
    StepBuffers(y, i);
    StillTx(r, h);
    DoneOnce(y, g, all, i);
    RecvGrows(y, g, all, i);
  }

  const PAUSE: Input := Input(false, false, false)

  /** The answer enters the transmit buffer.  If the byte before it leaves in the same clock, the buffer then
      claims to be empty. */
  lemma AnswerEnters(y: System, g: Trail, all: seq<Byte>, k0: Engine)
    requires Querying(y, g, all) && Inv(y, g, all, k0) && g.s == [] && y.m.wrEn && !y.rx.done && g.down.Between?
    requires |g.t| == B(y.tx.done)
    ensures var h, r := NextTrail(y, g, PAUSE), Step(y, PAUSE);
      Fits(y) && Inv(r, h, all, k0) && Querying(r, h, all) && h.s == [] && !r.m.wrEn && !r.rx.done && |h.t| == 1 &&
      |h.recv| == |g.recv| && h.down.Between? && !r.tx.done && r.txq.empty == y.tx.done
  {
    hide UpInv, RxInv, UnitInv, DownInv, Fifo.Step, Fifo.Holds, Fits, NextTrail, NextMachine, Moves, Consumes, StepTx, StepRx, Shown,
      UartLink.Inv;
    var h, r := NextTrail(y, g, PAUSE), Step(y, PAUSE);
    FewFit(y, g, all, k0);
    StepKeeps(y, g, all, k0, PAUSE);
    Holding(y, g, all, k0);
    EmptyShows(y.rxq, g.s);
    assert !y.parityErr by { NoParityError(y, g, all); }
    assert y.m.k.rx == [] by { NoneKept(y, g, all, k0); }
    UnitRests(y);
    TrailLengths(y, g, PAUSE);
    PhaseMoves(y, g, PAUSE);
    StepBuffers(y, PAUSE);
    DoneOnce(y, g, all, PAUSE);
    RecvGrows(y, g, all, PAUSE);
    RxFilled(y.rxq, RxInput(y));
    assert y.tx.done ==> !y.txq.empty by { SentShows(y, g); }
    BufferTurns(y.txq, g.t, TxInput(y));
  }

  lemma BufferTurns(q: Fifo.State<Byte>, s: seq<Byte>, i: Fifo.Input<Byte>)
    requires Fifo.Holds(q, s) && i.write && |s| == B(i.read) && (i.read ==> !q.empty)
    ensures |Fifo.Popped(q, i)| == B(i.read) && |Fifo.Pushed(q, i)| == 1 && Fifo.Step(q, i).empty == i.read
  {
    Fifo.PointersCount(q, s);
  }

  /** The first answer goes on the wire. */
  lemma FrameBegins(y: System, g: Trail, all: seq<Byte>, k0: Engine)
    requires Querying(y, g, all) && Inv(y, g, all, k0) && Resting(y, g) && !y.rx.done && g.down.Between? && !y.tx.done
    requires |g.t| == 1 && !y.txq.empty
    ensures var h, r := NextTrail(y, g, PAUSE), Step(y, PAUSE);
      Fits(y) && Inv(r, h, all, k0) && Querying(r, h, all) && Resting(r, h) && !r.rx.done && |h.t| == 1 &&
      |h.recv| == |g.recv| && h.down.Within? && h.down.pos == 0 && !r.tx.done
  {
    hide UpInv, RxInv, UnitInv, DownInv, Fifo.Step, Fifo.Holds, Fits, NextMachine, Moves, Consumes, StepTx, StepRx, Shown,
      UartLink.Inv, BitsOf, UartLink.Step, NextUnit, NextUp;
    var h, r := NextTrail(y, g, PAUSE), Step(y, PAUSE);
    FewFit(y, g, all, k0);
    StepKeeps(y, g, all, k0, PAUSE);
    Holding(y, g, all, k0);
    EmptyShows(y.rxq, g.s);
    assert !y.parityErr by { NoParityError(y, g, all); }
    assert y.m.k.rx == [] by { NoneKept(y, g, all, k0); }
    UnitRests(y);
    TrailLengths(y, g, PAUSE);
    StepBuffers(y, PAUSE);
    StillTx(r, h);
    DoneOnce(y, g, all, PAUSE);
    RecvGrows(y, g, all, PAUSE);
    RxFilled(y.rxq, RxInput(y));
  }

  /** Everything is done but the last answer is in a buffer that claims to be empty. */
  predicate Hidden(y: System, g: Trail, all: seq<Byte>) {
    Querying(y, g, all) && Resting(y, g) && |g.recv| == 2 && |g.t| == 1 && y.txq.empty && g.down.Between? && !y.tx.done
  }

  /** It stays there whatever happens. */
  lemma HiddenStep(y: System, g: Trail, all: seq<Byte>, k0: Engine, i: Input)
    requires Hidden(y, g, all) && Inv(y, g, all, k0)
    ensures var h, r := NextTrail(y, g, i), Step(y, i);
      Fits(y) && Inv(r, h, all, k0) && Hidden(r, h, all) && r.got == y.got
  {
    hide UpInv, RxInv, UnitInv, DownInv, Fifo.Step, Fifo.Holds, Fits, NextMachine, Moves, Consumes, StepTx, StepRx, Shown,
      UartLink.Inv, BitsOf, UartLink.Step, NextUnit, NextUp, ByteOf;
    var h, r := NextTrail(y, g, i), Step(y, i);
    FewFit(y, g, all, k0);
    StepKeeps(y, g, all, k0, i);
    Holding(y, g, all, k0);
    EmptyShows(y.rxq, g.s);
    assert !y.parityErr by { NoParityError(y, g, all); }
    assert y.m.k.rx == [] by { NoneKept(y, g, all, k0); }
    assert g.taken == 2 by { AllTaken(y, g, all); }
    NothingComes(y, g, all, i);
    UnitRests(y);
    TrailLengths(y, g, i);
    PhaseMoves(y, g, i);
    StepBuffers(y, i);
    RecvGrows(y, g, all, i);
    NothingMoves(y.rxq, RxInput(y));
    NothingMoves(y.txq, TxInput(y));
    assert !y.hostRx.done by { HostRests(y, g); }
  }

  lemma AllTaken(y: System, g: Trail, all: seq<Byte>)
    requires RxInv(y, g, all) && g.s == []
    ensures g.taken == |g.recv|
  {
    hide Fifo.Holds;
  }

  lemma NothingMoves(q: Fifo.State<Byte>, i: Fifo.Input<Byte>)
    requires q.Valid() && !i.write && (i.read ==> q.empty)
    ensures Fifo.Popped(q, i) == [] && Fifo.Pushed(q, i) == [] && (q.empty ==> Fifo.Step(q, i).empty)
  {
  }

  lemma HostRests(y: System, g: Trail)
    requires DownInv(y, g) && g.down.Between?
    ensures !y.hostRx.done
  {
    hide Wired, Unwired;
  }

  lemma {:induction false} HiddenStays(y: System, g: Trail, all: seq<Byte>, k0: Engine, ins: seq<Input>)
    requires Hidden(y, g, all) && Inv(y, g, all, k0)
    ensures AllFits(y, ins) && DebugLink.Run(y, ins).got == y.got
    decreases |ins|
  {
    hide Inv, Step, NextTrail, Fits;
    if ins == [] {
    } else {
      HiddenStep(y, g, all, k0, ins[0]);
      HiddenStays(Step(y, ins[0]), NextTrail(y, g, ins[0]), all, k0, ins[1..]);
    }
  }

  /** What the host has by then. */
  lemma OneAnswer(y: System, g: Trail, all: seq<Byte>, k0: Engine)
    requires Hidden(y, g, all) && Inv(y, g, all, k0) && k0.ctl.Decode? && k0.rx == all && k0.out == []
    ensures y.got == [1]
  {
    hide UartLink.Inv, FastN, LatchReady, HciBuffer.Inv, Fifo.Holds, Stuck, Wired, Unwired;
    var ps := [QueryHlt, QueryHlt];
    TwoQueries(k0.w);
    HciBuffer.RepliesOfSession(k0, ps, g.steps);
    TakenWithin(y, g, all, k0);
    AllTaken(y, g, all);
    assert Stuck(FastN(k0, g.steps)) by { NothingLeft(FastN(k0, g.steps)); }
    assert [] + ResponseAll(k0.w, ps) == [1, 1];
    HciBuffer.OfInv(HciBuffer.Port(Whole(y, all[g.taken..]), y.txq, g.drained), g.t);
    assert g.drained + g.t + [] == g.drained + g.t == [1, 1];
    assert |g.drained| == 1 && g.drained[0] == (g.drained + g.t)[0];
    AllButQueued(g.drained, g.t, Down(y, g));
  }

  lemma NothingLeft(k: Engine)
    requires k.ctl.Decode? && k.rx == []
    ensures Stuck(k)
  {
  }

  lemma TwoQueries(w: World)
    ensures var ps := [QueryHlt, QueryHlt]; Session(ps) && EncodeAll(ps) == [QUERY, QUERY] && ResponseAll(w, ps) == [1, 1]
  {
    var ps := [QueryHlt, QueryHlt];
    assert ps[1..] == [QueryHlt] && [QueryHlt][1..] == [];
    assert EncodeAll([QueryHlt]) == [QUERY] && ResponseAll(w, [QueryHlt]) == [1];
  }

  /** Between frames everything but the queue has been received. */
  lemma AllButQueued(drained: seq<Byte>, t: seq<Byte>, k: UartLink.Link)
    requires UartLink.Inv(k, UartLink.Between, Wired(drained + t)) && k.queue == Wired(t) && !k.tx.done
    ensures Unwired(k.received) == drained
  {
    hide ByteOf, BitsOf;
    assert k.received + k.queue == Wired(drained + t);
    WiredAdds(drained, t);
    assert k.received == (k.received + k.queue)[..|drained|] == Wired(drained);
    UnwiredPrefix(k.received, drained);
  }

  // ---------------------------------------------------------------------------------------------
  // The run
  // ---------------------------------------------------------------------------------------------

  /** A clock, and then others. */
  lemma Cons(y: System, g: Trail, i: Input, rest: seq<Input>)
    requires y.Valid() && Fits(y) && AllFits(Step(y, i), rest)
    ensures var ins := [i] + rest;
      AllFits(y, ins) && DebugLink.Run(y, ins) == DebugLink.Run(Step(y, i), rest) &&
      Trails(y, g, ins) == Trails(Step(y, i), NextTrail(y, g, i), rest)
  {
    hide Fits, Step, NextTrail;
    var ins := [i] + rest;
    assert ins[0] == i && ins[1..] == rest;
  }

  /** One run after another. */
  lemma Join(y: System, g: Trail, a: seq<Input>, b: seq<Input>)
    requires y.Valid() && AllFits(y, a) && AllFits(DebugLink.Run(y, a), b)
    ensures AllFits(y, a + b) && DebugLink.Run(y, a + b) == DebugLink.Run(DebugLink.Run(y, a), b)
    ensures Trails(y, g, a + b) == Trails(DebugLink.Run(y, a), Trails(y, g, a), b)
  {
    hide AllVisible, AllFits, DebugLink.Run, Trails;
    RunTwo(y, g, a, b);
  }

  /** The second query has arrived while the first answer is in the last tick of its frame. */
  lemma FromSecond(y: System, g: Trail, all: seq<Byte>, k0: Engine) returns (ins: seq<Input>)
    requires Querying(y, g, all) && Inv(y, g, all, k0) && Arrived(y, g) && !y.tx.done && |g.recv| == 2 && |g.t| == 1
    requires g.down.Within? && g.down.pos == 175
    ensures AllFits(y, ins)
    ensures var r, h := DebugLink.Run(y, ins), Trails(y, g, ins); Inv(r, h, all, k0) && Hidden(r, h, all)
  {
    hide Inv, Step, NextTrail, Fits;
    var tick := Input(false, true, false);
    QueryTaken(y, g, all, k0, tick);
    AnswerEnters(Step(y, tick), NextTrail(y, g, tick), all, k0);
    Cons(Step(y, tick), NextTrail(y, g, tick), PAUSE, []);
    Cons(y, g, tick, [PAUSE] + []);
    ins := [tick] + ([PAUSE] + []);
  }

  /** The first query has arrived. */
  lemma FromFirst(y: System, g: Trail, all: seq<Byte>, k0: Engine) returns (ins: seq<Input>)
    requires Querying(y, g, all) && Inv(y, g, all, k0) && Arrived(y, g) && !y.tx.done && |g.recv| == 1 && g.t == []
    requires g.down.Between?
    ensures AllFits(y, ins)
    ensures var r, h := DebugLink.Run(y, ins), Trails(y, g, ins); Inv(r, h, all, k0) && Hidden(r, h, all)
  {
    hide Inv, Step, NextTrail, Fits, AllFits, DebugLink.Run, Trails;
    QueryTaken(y, g, all, k0, PAUSE);
    var y1, g1 := Step(y, PAUSE), NextTrail(y, g, PAUSE);
    AnswerEnters(y1, g1, all, k0);
    var y2, g2 := Step(y1, PAUSE), NextTrail(y1, g1, PAUSE);
    FrameBegins(y2, g2, all, k0);
    var y3, g3 := Step(y2, PAUSE), NextTrail(y2, g2, PAUSE);
    var a := FrameGoesOn(y3, g3, all, k0, 175);
    var y4, g4 := DebugLink.Run(y3, a), Trails(y3, g3, a);
    var b := ByteComes(y4, g4, all, k0);
    var y5, g5 := DebugLink.Run(y4, b), Trails(y4, g4, b);
    var c := FromSecond(y5, g5, all, k0);
    Join(y4, g4, b, c);
    Join(y3, g3, a, b + c);
    Cons(y2, g2, PAUSE, a + (b + c));
    Cons(y1, g1, PAUSE, [PAUSE] + (a + (b + c)));
    Cons(y, g, PAUSE, [PAUSE] + ([PAUSE] + (a + (b + c))));
    ins := [PAUSE] + ([PAUSE] + ([PAUSE] + (a + (b + c))));
  }

  /** There is a run of two halt queries, with no byte refused anywhere, after which the host has one answer of
      the two and never gets the other. */
  lemma LastReplyHidden(y: System) returns (ins: seq<Input>)
    requires AtRest(y) && y.m.k.ctl.Decode? && y.unsent == EncodeAll([QueryHlt, QueryHlt])
    ensures ResponseAll(y.m.k.w, [QueryHlt, QueryHlt]) == [1, 1] && AllFits(y, ins)
    ensures forall more: seq<Input> :: AllFits(y, ins + more) && DebugLink.Run(y, ins + more).got == [1]
  {
    hide Inv, Step, NextTrail, Fits, AllFits, DebugLink.Run, Trails, Hidden;
    var k0, all := Whole(y, y.unsent).k, y.unsent;
    TwoQueries(y.m.k.w);
    RestInv(y);
    var a := ByteComes(y, START, all, k0);
    var y1, g1 := DebugLink.Run(y, a), Trails(y, START, a);
    var b := FromFirst(y1, g1, all, k0);
    Join(y, START, a, b);
    ins := a + b;
    var r, h := DebugLink.Run(y, ins), Trails(y, START, ins);
    OneAnswer(r, h, all, k0);
    forall more: seq<Input>
      ensures AllFits(y, ins + more) && DebugLink.Run(y, ins + more).got == [1]
    {
      HiddenStays(r, h, all, k0, more);
      Join(y, START, ins, more);
    }
  }
}
