/** Progress on the link: with enough ticks everything the host sends arrives, the unit gets through its work and
    its replies reach the host, as long as the buffers show what they hold. */
module LinkProgress {
  import opened Bytes
  import opened Uart
  import opened Packets
  import opened Hci
  import opened HciFraming
  import opened DebugLink
  import HciBuffer
  import UartLink
  import Fifo

  function Trails(y: System, g: Trail, ins: seq<Input>): Trail
    requires y.Valid()
    decreases |ins|
  {
    if ins == [] then g else Trails(Step(y, ins[0]), NextTrail(y, g, ins[0]), ins[1..])
  }

  lemma {:induction false} TrailsKeep(y: System, g: Trail, all: seq<Byte>, k0: Engine, ins: seq<Input>)
    requires y.Valid() && Inv(y, g, all, k0) && AllFits(y, ins)
    ensures Inv(DebugLink.Run(y, ins), Trails(y, g, ins), all, k0)
    decreases |ins|
  {
    hide Inv, Step, Fits, NextTrail;
    if ins == [] {
    } else {
      StepKeeps(y, g, all, k0, ins[0]);
      TrailsKeep(Step(y, ins[0]), NextTrail(y, g, ins[0]), all, k0, ins[1..]);
    }
  }

  lemma {:induction false} RunTwo(y: System, g: Trail, a: seq<Input>, b: seq<Input>)
    requires y.Valid()
    ensures DebugLink.Run(y, a + b) == DebugLink.Run(DebugLink.Run(y, a), b)
    ensures Trails(y, g, a + b) == Trails(DebugLink.Run(y, a), Trails(y, g, a), b)
    ensures AllFits(y, a + b) <==> AllFits(y, a) && AllFits(DebugLink.Run(y, a), b)
    ensures AllVisible(y, g, a + b) <==> AllVisible(y, g, a) && AllVisible(DebugLink.Run(y, a), Trails(y, g, a), b)
    decreases |a|
  {
    hide Step, Fits, NextTrail, Visible;
    if a == [] {
      assert a + b == b;
    } else {
      assert (a + b)[1..] == a[1..] + b;
      RunTwo(Step(y, a[0]), NextTrail(y, g, a[0]), a[1..], b);
    }
  }

  // ---------------------------------------------------------------------------------------------
  // Buffers that show what they hold
  // ---------------------------------------------------------------------------------------------

  predicate Visible(y: System, g: Trail) { (g.s != [] ==> !y.rxq.empty) && (g.t != [] ==> !y.txq.empty) }

  predicate AllVisible(y: System, g: Trail, ins: seq<Input>)
    requires y.Valid()
    decreases |ins|
  {
    Visible(y, g) && (ins == [] || AllVisible(Step(y, ins[0]), NextTrail(y, g, ins[0]), ins[1..]))
  }

  /** No byte enters a buffer in the clock in which its only one leaves. */
  predicate Smooth(y: System)
    requires y.Valid()
  {
    !Clash(y.rxq, RxInput(y)) && !Clash(y.txq, TxInput(y))
  }

  predicate Clash(q: Fifo.State<Byte>, i: Fifo.Input<Byte>)
    requires q.Valid()
  {
    Fifo.Pops(q, i) && Fifo.Pushes(q, i) && Fifo.Ahead(q) == 1
  }

  predicate AllSmooth(y: System, ins: seq<Input>)
    requires y.Valid()
    decreases |ins|
  {
    ins == [] || (Smooth(y) && AllSmooth(Step(y, ins[0]), ins[1..]))
  }

  lemma StaysVisible(q: Fifo.State<Byte>, s: seq<Byte>, i: Fifo.Input<Byte>)
    requires Fifo.Holds(q, s) && (s != [] ==> !q.empty) && !Clash(q, i)
    ensures |s| - |Fifo.Popped(q, i)| + |Fifo.Pushed(q, i)| > 0 ==> !Fifo.Step(q, i).empty
  {
    Fifo.PointersCount(q, s);
  }

  lemma TrailLengths(y: System, g: Trail, i: Input)
    requires y.Valid() && Fifo.Holds(y.rxq, g.s) && Fifo.Holds(y.txq, g.t)
    ensures var h := NextTrail(y, g, i);
      |h.s| == |g.s| - |Fifo.Popped(y.rxq, RxInput(y))| + |Fifo.Pushed(y.rxq, RxInput(y))| &&
      |h.t| == |g.t| - |Fifo.Popped(y.txq, TxInput(y))| + |Fifo.Pushed(y.txq, TxInput(y))|
  {
    hide Fifo.Holds, Fifo.Step, NextUp, UartLink.Step, UartLink.NextPhase, Moves, Consumes, ByteOf, DownClock;
    FrontOf(y.rxq, g.s);
    FrontOf(y.txq, g.t);
  }

  lemma Holding(y: System, g: Trail, all: seq<Byte>, k0: Engine)
    requires Inv(y, g, all, k0)
    ensures Fifo.Holds(y.rxq, g.s) && Fifo.Holds(y.txq, g.t)
  {
    hide Fifo.Holds, UnitInv, UpInv, DownInv;
    TxHolds(y, g, all, k0);
  }

  lemma {:induction false} SmoothIsVisible(y: System, g: Trail, all: seq<Byte>, k0: Engine, ins: seq<Input>)
    requires y.Valid() && Inv(y, g, all, k0) && Visible(y, g) && AllFits(y, ins) && AllSmooth(y, ins)
    ensures AllVisible(y, g, ins)
    decreases |ins|
  {
    hide Inv, NextTrail, Fits, Clash, RxInput, TxInput, NextMachine, Fifo.Step;
    if ins == [] {
    } else {
      Holding(y, g, all, k0);
      StepKeeps(y, g, all, k0, ins[0]);
      TrailLengths(y, g, ins[0]);
      StaysVisible(y.rxq, g.s, RxInput(y));
      StaysVisible(y.txq, g.t, TxInput(y));
      StepBuffers(y, ins[0]);
      SmoothIsVisible(Step(y, ins[0]), NextTrail(y, g, ins[0]), all, k0, ins[1..]);
    }
  }

  lemma StepBuffers(y: System, i: Input)
    requires y.Valid()
    ensures Step(y, i).rxq == Fifo.Step(y.rxq, RxInput(y)) && Step(y, i).txq == Fifo.Step(y.txq, TxInput(y))
    ensures Step(y, i).m == NextMachine(y)
  {
    hide Fifo.Step, NextMachine, StepTx, StepRx, Consumes;
  }

  // ---------------------------------------------------------------------------------------------
  // Everything arrives
  // ---------------------------------------------------------------------------------------------

  /** Ticks of the way to the unit while the host is willing to send. */
  function UpTicks(ins: seq<Input>): nat
    decreases |ins|
  {
    if ins == [] then 0 else B(ins[0].upTick && ins[0].ready) + UpTicks(ins[1..])
  }

  function DownTicks(ins: seq<Input>): nat
    decreases |ins|
  {
    if ins == [] then 0 else B(ins[0].downTick) + DownTicks(ins[1..])
  }

  lemma UpProgress(y: System, g: Trail, all: seq<Byte>, i: Input)
    requires y.Valid() && UpInv(y, g, all)
    ensures var h, r := NextTrail(y, g, i), Step(y, i);
      var left, after := UartLink.Remaining(Up(y, g), g.up), UartLink.Remaining(Up(r, h), h.up);
      0 <= left <= 178 * |y.unsent| && (left == 0 ==> |g.recv| == |all| && y.unsent == []) && 0 <= after &&
      (if left > 0 then after <= left - B(i.upTick && i.ready) else after == 0)
  {
    hide UartLink.Inv, UartLink.NextPhase, UartLink.Remaining, StepTx, StepRx, Fifo.Step, NextMachine, BitsOf, Consumes, ByteOf, NextUnit,
      DownClock;
    var c := UartLink.Clock(i.upTick, i.ready, []);
    UartLink.Progress(Up(y, g), g.up, c, Wired(all));
    ReceivedPrefix(Up(y, g), g.up, Wired(all));
    assert Up(Step(y, i), NextTrail(y, g, i)) == UartLink.Step(Up(y, g), c);
    if UartLink.Remaining(Up(y, g), g.up) == 0 {
      UartLink.Emptied(Up(y, g), g.up, Wired(all));
    }
  }

  lemma {:induction false} UpDrains(y: System, g: Trail, all: seq<Byte>, k0: Engine, ins: seq<Input>)
    requires y.Valid() && Inv(y, g, all, k0) && AllFits(y, ins) && UartLink.Remaining(Up(y, g), g.up) <= UpTicks(ins)
    ensures |Trails(y, g, ins).recv| == |all| && DebugLink.Run(y, ins).unsent == []
    decreases |ins|
  {
    hide UpInv, RxInv, UnitInv, DownInv, Step, NextTrail, Fits, UartLink.Remaining, Up;
    if ins == [] {
      UpProgress(y, g, all, Input(false, false, true));
    } else {
      UpProgress(y, g, all, ins[0]);
      StepKeeps(y, g, all, k0, ins[0]);
      UpDrains(Step(y, ins[0]), NextTrail(y, g, ins[0]), all, k0, ins[1..]);
    }
  }

  // ---------------------------------------------------------------------------------------------
  // The unit works and its replies arrive
  // ---------------------------------------------------------------------------------------------

  /** With bytes coming in behind, if the first one shows. */
  lemma QueueProgress(k: UartLink.Link, ph: UartLink.Phase, c: UartLink.Clock, total: seq<Bits>)
    requires UartLink.Inv(k, ph, total) && (k.queue != [] ==> c.ready)
    ensures var left, after := UartLink.Remaining(k, ph), UartLink.Remaining(UartLink.Step(k, c), UartLink.NextPhase(k, ph, c));
      0 <= left <= 178 * |k.queue| && (left == 0 <==> k.queue == []) && 0 <= after &&
      after <= 178 * |c.pushed| + if left > 0 then left - B(c.tick) else 0
  {
    hide UartLink.Inv, StepRx, StepTx;
    var d := UartLink.Clock(c.tick, true, []);
    UartLink.Progress(k, ph, d, total);
    LinkStep(k, ph, c, total);
    SameMove(k, ph, c, d);
    LeftIsQueue(k, ph, total);
    LeftIsQueue(UartLink.Step(k, c), UartLink.NextPhase(k, ph, c), total + c.pushed);
  }

  lemma SameMove(k: UartLink.Link, ph: UartLink.Phase, c: UartLink.Clock, d: UartLink.Clock)
    requires (k.queue != [] ==> c.ready) && d == UartLink.Clock(c.tick, true, [])
    ensures UartLink.NextPhase(k, ph, c) == UartLink.NextPhase(k, ph, d) && UartLink.Step(k, c).tx == UartLink.Step(k, d).tx
    ensures |UartLink.Step(k, c).queue| == |UartLink.Step(k, d).queue| + |c.pushed|
  {
    hide StepRx, StepTx;
  }

  lemma LeftIsQueue(k: UartLink.Link, ph: UartLink.Phase, total: seq<Bits>)
    requires UartLink.Inv(k, ph, total)
    ensures var left := UartLink.Remaining(k, ph); 0 <= left <= 178 * |k.queue| && (left == 0 <==> k.queue == [])
  {
    hide UartLink.ViewAt, UartLink.LevelAt;
    if ph.Within? {
      UartLink.InFrame(k.tx, k.queue[0], ph.pos);
    }
  }

  /** Steps the unit still has to make if it is at its end after w steps. */
  function WorkLeft(k0: Engine, w: nat, n: nat): nat { if Stuck(FastN(k0, n)) || n >= w then 0 else w - n }

  lemma EndOfWork(k0: Engine, w: nat, n: nat)
    requires Stuck(FastN(k0, w))
    ensures FastN(k0, n).out <= FastN(k0, w).out
    ensures WorkLeft(k0, w, n) == 0 ==> FastN(k0, n) == FastN(k0, w)
    ensures WorkLeft(k0, w, n) == 0 <==> Stuck(FastN(k0, n))
  {
    hide FastN, Stuck;
    if n <= w {
      HciBuffer.RepliesSoFar(k0, n, w);
      if Stuck(FastN(k0, n)) {
        FastAdds(k0, n, w - n);
        StaysStuck(FastN(k0, n), w - n);
      }
    } else {
      FastAdds(k0, w, n - w);
      StaysStuck(FastN(k0, w), n - w);
    }
  }

  /** What is still owed to the host, in ticks: frames to send, steps to make, and a byte on its way. */
  function Owed(y: System, g: Trail, k0: Engine, w: nat): int {
    178 * (|FastN(k0, w).out| - |g.drained + g.t|) + UartLink.Remaining(Down(y, g), g.down) +
    2 * WorkLeft(k0, w, g.steps) + B(y.m.wrEn)
  }

  /** Replies made so far are drained, in the buffer, or on their way into it. */
  lemma Accounted(y: System, g: Trail, all: seq<Byte>, k0: Engine)
    requires UnitInv(y, g, all, k0)
    ensures |g.drained + g.t| + B(y.m.wrEn) == |FastN(k0, g.steps).out| && (y.m.wrEn ==> !y.txq.full)
    ensures g.t == [] ==> y.txq.empty && !y.txq.full
    ensures y.m.wrEn ==> Fifo.Pushed(y.txq, TxInput(y)) == [y.m.txData]
  {
    hide FastN, LatchReady, Fifo.Holds;
    HciBuffer.OfInv(HciBuffer.Port(Whole(y, all[g.taken..]), y.txq, g.drained), g.t);
    EmptyShows(y.txq, g.t);
  }

  /** Everything has come and the buffers show it: with an empty transmit buffer nothing holds the unit up. */
  lemma Unhindered(y: System, g: Trail, all: seq<Byte>, k0: Engine)
    requires y.Valid() && RxInv(y, g, all) && UnitInv(y, g, all, k0) && Visible(y, g) && |g.recv| == |all|
    requires g.t == [] && !Stuck(FastN(k0, g.steps))
    ensures Moves(Shown(y).k, Flags(y))
  {
    hide UnitInv, Fifo.Holds, FastN;
    TakenWithin(y, g, all, k0);
    Accounted(y, g, all, k0);
    SameWaits(y.m.k, Heads(y.rxq));
    SameWaits(y.m.k, all[g.taken..]);
  }

  lemma QueueLength(y: System, g: Trail, i: Input)
    requires y.Valid() && Fifo.Holds(y.txq, g.t)
    ensures var h := NextTrail(y, g, i); |h.drained + h.t| == |g.drained + g.t| + |Fifo.Pushed(y.txq, TxInput(y))|
    ensures !y.m.wrEn ==> Fifo.Pushed(y.txq, TxInput(y)) == []
  {
    hide Fifo.Holds, Fifo.Step, NextUp, UartLink.Step, UartLink.NextPhase, Moves, Consumes, ByteOf, DownClock;
    FrontOf(y.txq, g.t);
  }

  /** One clock of work. */
  lemma WorkStep(y: System, g: Trail, all: seq<Byte>, k0: Engine, w: nat, i: Input)
    requires y.Valid() && Inv(y, g, all, k0) && Fits(y) && Stuck(FastN(k0, w))
    ensures var h, r, moves := NextTrail(y, g, i), Step(y, i), Moves(Shown(y).k, Flags(y));
      B(r.m.wrEn) <= B(moves) && WorkLeft(k0, w, h.steps) <= WorkLeft(k0, w, g.steps) - B(moves) &&
      |h.drained + h.t| == |g.drained + g.t| + B(y.m.wrEn)
  {
    hide UpInv, RxInv, UnitInv, DownInv, FastN, Fast, Moves, NextTrail, NextMachine, Fits, Stuck, Step;
    var h, r := NextTrail(y, g, i), Step(y, i);
    StepKeeps(y, g, all, k0, i);
    Accounted(y, g, all, k0);
    Accounted(r, h, all, k0);
    assert Fifo.Holds(y.rxq, g.s) by { RxHolds(y, g, all); }
    TrailCounts(y, g, i);
    assert Fifo.Holds(y.txq, g.t) by { TxHolds(y, g, all, k0); }
    QueueLength(y, g, i);
    OneMore(k0, g.steps);
    EndOfWork(k0, w, g.steps);
    EndOfWork(k0, w, g.steps + 1);
    if Moves(Shown(y).k, Flags(y)) {
      MovesOn(y, g, all, k0);
    }
  }

  lemma DownProgress(y: System, g: Trail, all: seq<Byte>, k0: Engine, i: Input)
    requires y.Valid() && UnitInv(y, g, all, k0) && DownInv(y, g) && (g.t != [] ==> !y.txq.empty)
    ensures var h, r := NextTrail(y, g, i), Step(y, i);
      var left, after := UartLink.Remaining(Down(y, g), g.down), UartLink.Remaining(Down(r, h), h.down);
      0 <= left <= 178 * |g.t| && (left == 0 <==> g.t == []) && 0 <= after &&
      after <= 178 * B(y.m.wrEn) + if left > 0 then left - B(i.downTick) else 0
  {
    hide UartLink.Inv, UartLink.NextPhase, UartLink.Remaining, UartLink.Step, StepTx, StepRx, Fifo.Step, Fifo.Holds, NextMachine, NextUnit,
      NextUp, BitsOf, Consumes, ByteOf, UnitInv, Step, Wired;
    var k, c := Down(y, g), DownClock(y, i);
    assert Fifo.Holds(y.txq, g.t) by { TxHolds(y, g, all, k0); }
    Accounted(y, g, all, k0);
    QueueLength(y, g, i);
    QueueProgress(k, g.down, c, Wired(g.drained + g.t));
    assert Down(Step(y, i), NextTrail(y, g, i)) == UartLink.Step(k, c) by { DownMoves(y, g, i); }
  }

  lemma DownMoves(y: System, g: Trail, i: Input)
    requires y.Valid() && Fifo.Holds(y.txq, g.t) && DownInv(y, g)
    ensures Down(Step(y, i), NextTrail(y, g, i)) == UartLink.Step(Down(y, g), DownClock(y, i))
  {
    hide UartLink.Inv, UartLink.NextPhase, StepTx, StepRx, Fifo.Step, Fifo.Holds, NextMachine, NextUnit, NextUp, BitsOf, Consumes,
      ByteOf;
    ReceivedPrefix(Down(y, g), g.down, Wired(g.drained + g.t));
    QueueMoves(y, g);
  }

  /** In every clock with a tick, and in every clock with nothing to send, something is paid. */
  lemma OwedStep(y: System, g: Trail, all: seq<Byte>, k0: Engine, w: nat, i: Input)
    requires y.Valid() && Inv(y, g, all, k0) && Fits(y) && Visible(y, g) && |g.recv| == |all| && Stuck(FastN(k0, w))
    ensures var owed, after := Owed(y, g, k0, w), Owed(Step(y, i), NextTrail(y, g, i), k0, w);
      0 <= owed && 0 <= after && after <= owed - if owed == 0 then 0 else if g.t == [] then 1 else B(i.downTick)
  {
    hide UpInv, RxInv, UnitInv, DownInv, FastN, Moves, NextTrail, Fits, Stuck, Step, UartLink.Remaining, Shown, Visible;
    var h, r := NextTrail(y, g, i), Step(y, i);
    assert g.t != [] ==> !y.txq.empty by { VisibleShows(y, g); }
    StepKeeps(y, g, all, k0, i);
    WorkStep(y, g, all, k0, w, i);
    DownProgress(y, g, all, k0, i);
    Accounted(y, g, all, k0);
    Accounted(r, h, all, k0);
    EndOfWork(k0, w, g.steps);
    EndOfWork(k0, w, h.steps);
    if g.t == [] && !Stuck(FastN(k0, g.steps)) {
      Unhindered(y, g, all, k0);
    }
  }

  lemma OwedRange(y: System, g: Trail, all: seq<Byte>, k0: Engine, w: nat)
    requires Inv(y, g, all, k0) && Stuck(FastN(k0, w))
    ensures 0 <= Owed(y, g, k0, w) <= 178 * |FastN(k0, w).out| + 2 * w + 1
    ensures Owed(y, g, k0, w) == 0 ==> g.t == [] && !y.m.wrEn && FastN(k0, g.steps) == FastN(k0, w)
  {
    hide UpInv, RxInv, UnitInv, FastN, Stuck, UartLink.Remaining, UartLink.Inv;
    LeftIsQueue(Down(y, g), g.down, Wired(g.drained + g.t));
    Accounted(y, g, all, k0);
    EndOfWork(k0, w, g.steps);
  }

  lemma VisibleShows(y: System, g: Trail)
    requires Visible(y, g)
    ensures g.t != [] ==> !y.txq.empty
  {
  }

  lemma StillReceived(y: System, g: Trail, all: seq<Byte>, i: Input)
    requires y.Valid() && UpInv(y, g, all) && |g.recv| == |all|
    ensures |NextTrail(y, g, i).recv| == |all|
  {
    hide UpInv, UartLink.Step, NextUnit, UartLink.NextPhase;
    UpStep(y, g, all, i);
  }

  /** Clocks that pay: all of them if nothing is to be sent, else those with a tick of the way back. */
  function Payments(ins: seq<Input>, silent: bool): nat { if silent then |ins| else DownTicks(ins) }

  lemma SilentIsEmpty(y: System, g: Trail, all: seq<Byte>, k0: Engine, w: nat)
    requires UnitInv(y, g, all, k0) && Stuck(FastN(k0, w)) && FastN(k0, w).out == []
    ensures g.t == []
  {
    hide UnitInv, FastN, Stuck;
    Accounted(y, g, all, k0);
    EndOfWork(k0, w, g.steps);
  }

  lemma {:induction false} PaidOff(y: System, g: Trail, all: seq<Byte>, k0: Engine, w: nat, ins: seq<Input>, silent: bool)
    requires y.Valid() && Inv(y, g, all, k0) && AllFits(y, ins) && AllVisible(y, g, ins) && |g.recv| == |all|
    requires Stuck(FastN(k0, w)) && (silent ==> FastN(k0, w).out == []) && Owed(y, g, k0, w) <= Payments(ins, silent)
    ensures Owed(DebugLink.Run(y, ins), Trails(y, g, ins), k0, w) == 0
    decreases |ins|
  {
    hide UpInv, RxInv, UnitInv, DownInv, Step, NextTrail, Fits, Visible, Owed, FastN, Stuck;
    if ins == [] {
      OwedRange(y, g, all, k0, w);
    } else {
      OwedStep(y, g, all, k0, w, ins[0]);
      StepKeeps(y, g, all, k0, ins[0]);
      StillReceived(y, g, all, ins[0]);
      if silent {
        SilentIsEmpty(y, g, all, k0, w);
      }
      PaidOff(Step(y, ins[0]), NextTrail(y, g, ins[0]), all, k0, w, ins[1..], silent);
    }
  }

  /** With nothing owed the host has all replies. */
  lemma PaidMeansReceived(y: System, g: Trail, all: seq<Byte>, k0: Engine, w: nat)
    requires Inv(y, g, all, k0) && Stuck(FastN(k0, w)) && Owed(y, g, k0, w) == 0
    ensures y.got == FastN(k0, w).out && y.m.k == FastN(k0, w).(rx := [])
  {
    hide FastN, Stuck, UartLink.Inv, LatchReady, HciBuffer.Inv, Owed, Fifo.Holds, Wired, Unwired;
    OwedRange(y, g, all, k0, w);
    HciBuffer.OfInv(HciBuffer.Port(Whole(y, all[g.taken..]), y.txq, g.drained), g.t);
    assert g.drained + [] == g.drained && g.drained + [] + [] == g.drained;
    NothingQueued(g.drained, Down(y, g), g.down);
  }

  lemma NothingQueued(drained: seq<Byte>, k: UartLink.Link, ph: UartLink.Phase)
    requires UartLink.Inv(k, ph, Wired(drained)) && k.queue == []
    ensures Unwired(k.received) == drained
  {
    hide UartLink.Inv, ByteOf, BitsOf;
    UartLink.Emptied(k, ph, Wired(drained));
    UnwiredPrefix(k.received, drained);
  }

  // ---------------------------------------------------------------------------------------------
  // And then the link is at rest again
  // ---------------------------------------------------------------------------------------------

  lemma {:induction false} NothingUnsent(y: System, ins: seq<Input>)
    requires y.Valid() && y.unsent == []
    ensures DebugLink.Run(y, ins).unsent == []
    decreases |ins|
  {
    hide StepTx, StepRx, Fifo.Step, NextMachine, Consumes, BitsOf, ByteOf;
    if ins == [] {
    } else {
      NothingUnsent(Step(y, ins[0]), ins[1..]);
    }
  }

  /** A wire with nothing to carry is quiet. */
  lemma QuietWire(k: UartLink.Link, ph: UartLink.Phase, total: seq<Bits>)
    requires UartLink.Inv(k, ph, total) && k.queue == []
    ensures TxRests(k.tx) && RxRests(k.rx)
  {
  }

  lemma QuietUp(y: System, g: Trail, all: seq<Byte>)
    requires UpInv(y, g, all) && RxInv(y, g, all) && y.unsent == []
    ensures TxRests(y.hostTx) && RxRests(y.rx) && !y.parityErr && |g.recv| == |all|
  {
    hide UartLink.Inv, Fifo.Holds;
    QuietWire(Up(y, g), g.up, Wired(all));
    UartLink.Emptied(Up(y, g), g.up, Wired(all));
  }

  lemma QuietDown(y: System, g: Trail)
    requires DownInv(y, g) && g.t == []
    ensures TxRests(y.tx) && RxRests(y.hostRx)
  {
    hide UartLink.Inv;
    QuietWire(Down(y, g), g.down, Wired(g.drained + g.t));
  }

  /** The unit between packets has taken everything. */
  lemma TakenAll(y: System, g: Trail, all: seq<Byte>, k0: Engine, w: nat)
    requires RxInv(y, g, all) && UnitInv(y, g, all, k0) && |g.recv| == |all| && FastN(k0, g.steps) == FastN(k0, w)
    requires Stuck(FastN(k0, w)) && Between(FastN(k0, w))
    ensures g.s == [] && Between(y.m.k) && y.m.k.rx == []
  {
    hide FastN, LatchReady, Fifo.Holds;
    TakenWithin(y, g, all, k0);
  }

  lemma SettlesAgain(y: System, g: Trail, all: seq<Byte>, k0: Engine, w: nat)
    requires y.Valid() && Inv(y, g, all, k0) && y.unsent == [] && Stuck(FastN(k0, w)) && Between(FastN(k0, w))
    requires Owed(y, g, k0, w) == 0
    ensures Settled(y)
  {
    hide UpInv, RxInv, UnitInv, DownInv, FastN, Stuck, Between, Owed, Fifo.Holds, TxRests, RxRests;
    OwedRange(y, g, all, k0, w);
    QuietUp(y, g, all);
    QuietDown(y, g);
    TakenAll(y, g, all, k0, w);
    Holding(y, g, all, k0);
  }

  // ---------------------------------------------------------------------------------------------
  // Main result
  // ---------------------------------------------------------------------------------------------

  /** From rest: the host sends whatever it has, with 178 ticks for each byte, and then there is enough time for
      the unit's w steps and 178 ticks for each byte it replies.  If the buffers refuse nothing and show what
      they hold, the unit has then come to its end, the host has all replies, and the link is at rest again if the
      unit is between packets. */
  lemma LinkDelivers(y: System, a: seq<Input>, b: seq<Input>, w: nat, silent: bool)
    requires AtRest(y) && AllFits(y, a + b) && AllVisible(y, START, a + b) && UpTicks(a) >= 178 * |y.unsent|
    requires var end := FastN(Whole(y, y.unsent).k, w);
      Stuck(end) && (silent ==> end.out == []) && Payments(b, silent) >= 178 * |end.out| + 2 * w + 1
    ensures var r, end := DebugLink.Run(y, a + b), FastN(Whole(y, y.unsent).k, w);
      r.m.k == end.(rx := []) && r.got == end.out && r.unsent == [] && (Between(end) ==> Settled(r))
  {
    hide Inv, DebugLink.Run, FastN, AllFits, AllVisible, AtRest, Whole, Trails, UartLink.Remaining, Owed, Stuck, Between, Settled, Payments;
    var k0, all := Whole(y, y.unsent).k, y.unsent;
    assert y.Valid() by { RestValid(y); }
    RestInv(y);
    RunTwo(y, START, a, b);
    TrailsKeep(y, START, all, k0, a);
    var z, g := DebugLink.Run(y, a), Trails(y, START, a);
    RestRemaining(y);
    UpDrains(y, START, all, k0, a);
    OwedRange(z, g, all, k0, w);
    PaidOff(z, g, all, k0, w, b, silent);
    TrailsKeep(z, g, all, k0, b);
    NothingUnsent(z, b);
    PaidMeansReceived(DebugLink.Run(z, b), Trails(z, g, b), all, k0, w);
    if Between(FastN(k0, w)) {
      SettlesAgain(DebugLink.Run(z, b), Trails(z, g, b), all, k0, w);
    }
  }

  lemma RestRemaining(y: System)
    requires AtRest(y)
    ensures UartLink.Remaining(Up(y, START), START.up) == 178 * |y.unsent|
  {
  }

  /** The same with a condition on the signals: no byte enters a buffer in the clock in which its only one
      leaves. */
  lemma RestVisible(y: System, ins: seq<Input>)
    requires AtRest(y) && AllFits(y, ins) && AllSmooth(y, ins)
    ensures AllVisible(y, START, ins)
  {
    hide Inv, AllFits, AllSmooth, AllVisible, AtRest, Whole;
    assert y.Valid() by { RestValid(y); }
    RestInv(y);
    SmoothIsVisible(y, START, y.unsent, Whole(y, y.unsent).k, ins);
  }
}
