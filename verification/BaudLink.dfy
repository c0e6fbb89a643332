/** The link on the ticks of the baud generator, which both directions share: they are so far apart that the unit
    is through with a byte long before the next tick.  Replies then never enter a buffer while another one leaves
    it, and as long as no memory is read they never pile up. */
module BaudLink {
  import opened Bytes
  import opened Uart
  import opened Packets
  import opened Hci
  import opened HciFraming
  import opened DebugLink
  import opened LinkRoom
  import opened LinkProgress
  import opened LinkPace
  import DebugPort
  import HciBuffer
  import UartLink
  import Fifo

  /** Clocks to a tick: the clock frequency, 100 MHz, by 38400 baud, by 16 ticks to a bit, without remainders. */
  const PERIOD: nat := 162

  /** The generator at count n; both directions take the tick. */
  predicate OnBeat(i: Input, n: nat) { (i.upTick <==> n == PERIOD - 1) && (i.downTick <==> n == PERIOD - 1) }

  /** The inputs of clocks in which the generator counts on from n. */
  predicate Beat(ins: seq<Input>, n: nat)
    decreases |ins|
  {
    ins == [] ||
    (OnBeat(ins[0], n) && Beat(ins[1..], (n + 1) % PERIOD))
  }

  /** The unit does not read memory. */
  ghost predicate Brisk(k: Engine) { forall n: nat :: !Reading(FastN(k, n)) }

  // ---------------------------------------------------------------------------------------------
  // The unit over one clock
  // ---------------------------------------------------------------------------------------------

  /** Clocks until the unit looks for a byte again. */
  function Delay(k: Engine): nat { Busy(k) + B(k.ctl.QueryErr?) }

  lemma DelayStep(k: Engine)
    requires Counting(k) && !Reading(k) && !Stuck(k)
    ensures var f := Fast(k);
      Counting(f) && Delay(f) <= 8 && (Delay(k) > 0 ==> Delay(f) == Delay(k) - 1) && (WaitsForByte(k) <==> Delay(k) == 0) &&
      |f.out| + B(f.ctl.QueryErr?) <= |k.out| + B(k.ctl.QueryErr?) + B(WaitsForByte(k))
  {
    hide Advance, Busy, Counting, CpuShown, CpuCell, PpuCell;
    var e, b := if WaitsForByte(k) then k.(rx := k.rx[1..]) else k, if WaitsForByte(k) then k.rx[0] else 0;
    BusyStep(k);
    LooksWhenIdle(k);
    LooksWhenIdle(Fast(k));
    SameWaits(k, e.rx);
    QueryFollows(e, b, CpuRead(k.w, k.addr), PpuRead(k.w, k.addr));
  }

  lemma LooksWhenIdle(k: Engine)
    ensures !Reading(k) ==> (WaitsForByte(k) <==> Delay(k) == 0)
    ensures k.ctl.QueryErr? ==> Busy(k) == 0
  {
  }

  /** An error query is answered a clock later and without another byte. */
  lemma QueryFollows(k: Engine, b: Byte, cpuData: Byte, ppuData: Byte)
    requires !Reading(k)
    ensures var f := Advance(k, b, cpuData, ppuData);
      (f.ctl.QueryErr? ==> f.out == k.out && k.ctl.Decode?) && (f.ctl.QueryErr? || k.ctl.QueryErr? ==> Busy(f) == 0) &&
      (f.out != k.out ==> |f.out| == |k.out| + 1 && (WaitsForByte(k) || k.ctl.QueryErr?))
  {
    hide CpuCell, PpuCell, DebugPort.DebugRead, DebugPort.DebugWrite, Add16, ToWord, Decoded, Header, PpuOffStep;
    HciBuffer.AdvanceReplies(k, b, cpuData, ppuData);
    match k.ctl {
      case Decode => DecodedQuery(k.(decodeCnt := 0), b);
      case CpuRdHeader => HeaderQuiet(k, b, CpuRd, 2);
      case PpuRdHeader => HeaderQuiet(k, b, PpuRd, 2);
      case CpuWrHeader => HeaderQuiet(k, b, CpuWr, 1);
      case PpuWrHeader => HeaderQuiet(k, b, PpuWr, 1);
      case PpuOff => OffQuiet(k);
      case _ =>
    }
  }

  lemma HeaderQuiet(k: Engine, b: Byte, next: Ctl, perByte: nat)
    requires MemoryHeader(k.ctl) && !next.QueryErr?
    ensures !Header(k, b, next, perByte).ctl.QueryErr?
  {
    hide ToWord;
  }

  lemma OffQuiet(k: Engine)
    ensures PpuOffStep(k).out == k.out && (k.ctl.PpuOff? ==> !PpuOffStep(k).ctl.QueryErr?)
  {
    hide CpuCell;
  }

  lemma DecodedQuery(k: Engine, op: Byte)
    requires k.ctl.Decode?
    ensures var f := Decoded(k, op); f.ctl.QueryErr? ==> f.out == k.out && Busy(f) == 0
  {
  }

  /** With room to reply the unit is through with a byte at most eight clocks after it has taken it. */
  lemma UnitBeats(y: System, g: Trail, all: seq<Byte>, k0: Engine, i: Input)
    requires y.Valid() && Inv(y, g, all, k0) && Fits(y) && Brisk(k0) && !y.txq.full && Counting(y.m.k)
    ensures var r, takes := Step(y, i), WaitsForByte(y.m.k) && !y.rxq.empty;
      (WaitsForByte(y.m.k) <==> Delay(y.m.k) == 0) && |Fifo.Popped(y.rxq, RxInput(y))| == B(takes) && Counting(r.m.k) &&
      Delay(r.m.k) <= (if Delay(y.m.k) > 0 then Delay(y.m.k) - 1 else if takes then 8 else 0) &&
      B(r.m.wrEn) + B(r.m.k.ctl.QueryErr?) <= B(y.m.k.ctl.QueryErr?) + B(takes)
  {
    hide UpInv, RxInv, UnitInv, DownInv, FastN, Fast, Fits, Stuck, Step, NextTrail, NextMachine, Moves, Delay, Counting, Reading;
    var h, r := NextTrail(y, g, i), Step(y, i);
    StepKeeps(y, g, all, k0, i);
    TakenWithin(y, g, all, k0);
    TakenWithin(r, h, all, k0);
    var e, f := FastN(k0, g.steps), FastN(k0, h.steps);
    SameDelay(y.m.k, e.rx);
    SameDelay(r.m.k, f.rx);
    UnitMoves(y);
    Accounted(y, g, all, k0);
    Accounted(r, h, all, k0);
    Holding(y, g, all, k0);
    QueueLength(y, g, i);
    TrailCounts(y, g, i);
    OneMore(k0, g.steps);
    assert !Reading(e) && !Reading(f);
    LooksWhenIdle(y.m.k);
    if Moves(Shown(y).k, Flags(y)) {
      MovesOn(y, g, all, k0);
      DelayStep(e);
    }
  }

  lemma SameDelay(k: Engine, rx: seq<Byte>)
    ensures var e := k.(rx := rx);
      Delay(e) == Delay(k) && Counting(e) == Counting(k) && WaitsForByte(e) == WaitsForByte(k) && Reading(e) == Reading(k)
  {
  }

  // ---------------------------------------------------------------------------------------------
  // What is still to be sent, and what can still come
  // ---------------------------------------------------------------------------------------------

  /** Ticks of replies at most: one frame for each byte that is received, answered or queued, less what of the
      frame on the wire is over. */
  function Load(y: System, g: Trail): int {
    176 * (B(y.rx.done) + |g.s| + B(y.m.k.ctl.QueryErr?) + B(y.m.wrEn) + |g.t|) -
    match g.down
    case Between => 176 * B(y.tx.done)
    case Within(pos, _, _, _) => pos
  }

  /** What the host's frame allows for: its replies end before the next ones begin. */
  function Allowance(ph: UartLink.Phase): int {
    match ph
    case Between => 176
    case Within(pos, _, _, view) => if view.Through? then 352 - pos else 176 - pos
  }

  /** A byte arrives late in its frame and with a tick. */
  lemma Arrives(y: System, g: Trail, all: seq<Byte>, i: Input)
    requires y.Valid() && UpInv(y, g, all)
    ensures var h, r := NextTrail(y, g, i), Step(y, i);
      0 < Allowance(g.up) <= 184 && Allowance(h.up) >= Allowance(g.up) - B(i.upTick) + 176 * B(r.rx.done) &&
      (r.rx.done ==> i.upTick)
  {
    hide UartLink.LevelAt, UartLink.TxAt, StepTx, Fifo.Step, NextMachine, NextUnit, Consumes, ByteOf, BitsOf, Reduce, DownClock,
      UartLink.Step, Wired;
    if g.up.Within? {
      UartLink.InFrame(y.hostTx, Wired(y.unsent)[0], g.up.pos);
    }
  }

  // ---------------------------------------------------------------------------------------------
  // The invariant
  // ---------------------------------------------------------------------------------------------

  /** n clocks after a tick: bytes arrive and leave with the tick, then the unit answers, then a frame begins, and
      then everything waits for the next tick. */
  predicate Beating(y: System, g: Trail, n: nat) { UnitOnTime(y, g, n) && SentOnTime(y, g, n) && Load(y, g) <= Allowance(g.up) }

  predicate UnitOnTime(y: System, g: Trail, n: nat) {
    n < PERIOD && (y.rx.done ==> n == 0) && (g.s != [] ==> n == 1 && |g.s| == 1 && !y.rxq.empty) &&
    Counting(y.m.k) && (Delay(y.m.k) > 0 ==> 2 <= n && n + Delay(y.m.k) <= 12) && (y.m.wrEn ==> 2 <= n <= 12) &&
    (y.m.k.ctl.QueryErr? ==> Delay(y.m.k) > 0)
  }

  predicate SentOnTime(y: System, g: Trail, n: nat) {
    (y.tx.done ==> n == 0) && (g.t != [] ==> !y.txq.empty && (g.down.Between? && !y.tx.done ==> 1 <= n <= 14))
  }

  lemma FewReplies(y: System, g: Trail, n: nat)
    requires Beating(y, g, n) && Allowance(g.up) <= 184 && (g.down.Within? ==> g.down.pos < 176)
    ensures |g.t| + B(y.m.wrEn) + |g.s| <= 2
  {
    hide Delay, Counting;
  }

  lemma BeatFits(y: System, g: Trail, all: seq<Byte>, k0: Engine, n: nat, i: Input)
    requires y.Valid() && Inv(y, g, all, k0) && Beating(y, g, n)
    ensures Fits(y) && !y.txq.full && !y.rxq.full && Allowance(g.up) <= 184 && |g.t| + B(y.m.wrEn) + |g.s| <= 2
  {
    hide UpInv, RxInv, UnitInv, DownInv, Fifo.Step, Fifo.Holds, HciBuffer.RepliesBlindly, Delay, Counting, Load, Allowance;
    Holding(y, g, all, k0);
    Arrives(y, g, all, i);
    PhaseMoves(y, g, i);
    FewReplies(y, g, n);
    FewIsNotFull(y.rxq, g.s);
    FewIsNotFull(y.txq, g.t);
    EmptyShows(y.rxq, g.s);
    if !y.rxq.empty {
      OneIsNotFull(y.txq, g.t, TxInput(y));
    } else {
      NotBlind(y);
    }
  }

  /** The receive buffer: a byte that arrives finds it empty and is taken in the next clock. */
  lemma RxBeats(q: Fifo.State<Byte>, s: seq<Byte>, i: Fifo.Input<Byte>)
    requires Fifo.Holds(q, s) && |s| <= 1 && (s != [] ==> !q.empty && i.read && !i.write)
    ensures var n := |s| - |Fifo.Popped(q, i)| + |Fifo.Pushed(q, i)|; n == B(i.write) && (n > 0 ==> !Fifo.Step(q, i).empty)
    ensures s == [] ==> Fifo.Popped(q, i) == []
  {
    Fifo.PointersCount(q, s);
  }

  /** The transmitter takes the next byte as soon as it shows. */
  lemma FrameStarts(y: System, g: Trail, i: Input)
    requires y.Valid()
    ensures g.down.Between? && !y.tx.done && g.t != [] && !y.txq.empty ==> NextTrail(y, g, i).down.Within?
  {
    hide UartLink.Step, NextUnit, NextUp, BitsOf, Consumes;
  }

  lemma RxOnTime(y: System, g: Trail, all: seq<Byte>, k0: Engine, n: nat, i: Input)
    requires y.Valid() && Inv(y, g, all, k0) && Brisk(k0) && Beating(y, g, n)
    ensures var h, r := NextTrail(y, g, i), Step(y, i);
      |h.s| == B(y.rx.done) && (h.s != [] ==> !r.rxq.empty) && (y.rxq.empty <==> g.s == []) && r.m == NextMachine(y)
  {
    hide UpInv, RxInv, UnitInv, DownInv, Fits, Fifo.Step, Fifo.Holds, NextTrail, NextMachine, Moves, Allowance, Step, Load,
      SentOnTime, WaitsForByte, Brisk, Delay, Counting;
    BeatFits(y, g, all, k0, n, i);
    UnitBeats(y, g, all, k0, i);
    UnitMoves(y);
    Holding(y, g, all, k0);
    EmptyShows(y.rxq, g.s);
    TrailLengths(y, g, i);
    StepBuffers(y, i);
    RxBeats(y.rxq, g.s, RxInput(y));
  }

  /** The timing of the unit depends on these numbers only. */
  lemma UnitTimes(y: System, g: Trail, n: nat, r: System, h: Trail, tick: bool)
    requires UnitOnTime(y, g, n) && (tick <==> n == PERIOD - 1)
    requires |h.s| == B(y.rx.done) && (h.s != [] ==> !r.rxq.empty) && (r.rx.done ==> tick) && Counting(r.m.k)
    requires WaitsForByte(y.m.k) <==> Delay(y.m.k) == 0
    requires var takes := WaitsForByte(y.m.k) && g.s != [];
      Delay(r.m.k) <= (if Delay(y.m.k) > 0 then Delay(y.m.k) - 1 else if takes then 8 else 0) &&
      B(r.m.wrEn) + B(r.m.k.ctl.QueryErr?) <= B(y.m.k.ctl.QueryErr?) + B(takes)
    ensures UnitOnTime(r, h, (n + 1) % PERIOD)
  {
    hide Delay, Counting, WaitsForByte;
    assert r.m.k.ctl.QueryErr? ==> Delay(r.m.k) > 0 by { QueryDelays(r.m.k); }
  }

  lemma UnitStaysOnTime(y: System, g: Trail, all: seq<Byte>, k0: Engine, n: nat, i: Input)
    requires y.Valid() && Inv(y, g, all, k0) && Brisk(k0) && Beating(y, g, n) && OnBeat(i, n)
    ensures UnitOnTime(Step(y, i), NextTrail(y, g, i), (n + 1) % PERIOD)
  {
    hide UpInv, RxInv, UnitInv, DownInv, FastN, Fits, Fifo.Step, Fifo.Holds, Delay, Counting, NextTrail, NextMachine, StepRx, StepTx,
      Moves, Brisk, Allowance, Step, Load, SentOnTime, UnitOnTime, WaitsForByte, RxInput;
    BeatFits(y, g, all, k0, n, i);
    assert Counting(y.m.k) by { Counts(y, g, n); }
    UnitBeats(y, g, all, k0, i);
    RxOnTime(y, g, all, k0, n, i);
    Arrives(y, g, all, i);
    UnitTimes(y, g, n, Step(y, i), NextTrail(y, g, i), i.upTick);
  }

  lemma Counts(y: System, g: Trail, n: nat)
    requires UnitOnTime(y, g, n)
    ensures Counting(y.m.k)
  {
  }

  lemma QueryDelays(k: Engine)
    ensures k.ctl.QueryErr? ==> Delay(k) > 0
  {
  }

  lemma SentStaysOnTime(y: System, g: Trail, all: seq<Byte>, k0: Engine, n: nat, i: Input)
    requires y.Valid() && Inv(y, g, all, k0) && Brisk(k0) && Beating(y, g, n) && OnBeat(i, n)
    ensures SentOnTime(Step(y, i), NextTrail(y, g, i), (n + 1) % PERIOD)
  {
    hide UpInv, RxInv, UnitInv, DownInv, FastN, Fits, Fifo.Step, Fifo.Holds, Delay, Counting, NextTrail, NextMachine, StepRx, StepTx,
      Moves, Brisk, Allowance, Step, Load;
    var h, r := NextTrail(y, g, i), Step(y, i);
    BeatFits(y, g, all, k0, n, i);
    Holding(y, g, all, k0);
    PhaseMoves(y, g, i);
    TrailLengths(y, g, i);
    StepBuffers(y, i);
    Accounted(y, g, all, k0);
    QueueLength(y, g, i);
    StaysVisible(y.txq, g.t, TxInput(y));
    StepKeeps(y, g, all, k0, i);
    StillTx(r, h);
    FrameStarts(y, g, i);
  }

  lemma TxOnTime(y: System, g: Trail, all: seq<Byte>, k0: Engine, i: Input)
    requires y.Valid() && Inv(y, g, all, k0)
    ensures |NextTrail(y, g, i).t| == |g.t| - B(y.tx.done) + B(y.m.wrEn)
  {
    hide UpInv, RxInv, UnitInv, DownInv, Fifo.Step, Fifo.Holds, NextTrail;
    Holding(y, g, all, k0);
    TrailLengths(y, g, i);
    Accounted(y, g, all, k0);
    QueueLength(y, g, i);
    SentShows(y, g);
  }

  /** What is to be sent shrinks with every tick, and grows by a frame when a byte arrives. */
  lemma LoadTimes(y: System, g: Trail, n: nat, r: System, h: Trail, tick: bool)
    requires UnitOnTime(y, g, n) && SentOnTime(y, g, n) && Load(y, g) <= Allowance(g.up) && (tick <==> n == PERIOD - 1)
    requires 0 < Allowance(g.up) && Allowance(h.up) >= Allowance(g.up) - B(tick) + 176 * B(r.rx.done)
    requires |h.s| == B(y.rx.done) && |h.t| == |g.t| - B(y.tx.done) + B(y.m.wrEn)
    requires B(r.m.wrEn) + B(r.m.k.ctl.QueryErr?) <= B(y.m.k.ctl.QueryErr?) + |g.s|
    requires match g.down
      case Between => !r.tx.done && (h.down.Within? ==> h.down.pos == 0 && !y.tx.done)
      case Within(pos, _, _, _) =>
        g.t != [] && !y.tx.done &&
        if pos + B(tick) == 176 then h.down.Between? && r.tx.done else h.down.Within? && h.down.pos == pos + B(tick)
    ensures Load(r, h) <= Allowance(h.up)
  {
    hide Delay, Counting, Allowance;
  }

  lemma LoadStays(y: System, g: Trail, all: seq<Byte>, k0: Engine, n: nat, i: Input)
    requires y.Valid() && Inv(y, g, all, k0) && Brisk(k0) && Beating(y, g, n) && OnBeat(i, n)
    ensures Load(Step(y, i), NextTrail(y, g, i)) <= Allowance(NextTrail(y, g, i).up)
  {
    hide UpInv, RxInv, UnitInv, DownInv, FastN, Fits, Fifo.Step, Fifo.Holds, Delay, Counting, NextTrail, NextMachine, StepRx, StepTx,
      Moves, Brisk, Allowance, Step, Load, UnitOnTime, SentOnTime, WaitsForByte, RxInput;
    var h, r := NextTrail(y, g, i), Step(y, i);
    BeatFits(y, g, all, k0, n, i);
    assert Counting(y.m.k) by { Counts(y, g, n); }
    UnitBeats(y, g, all, k0, i);
    RxOnTime(y, g, all, k0, n, i);
    TxOnTime(y, g, all, k0, i);
    Arrives(y, g, all, i);
    Holding(y, g, all, k0);
    PhaseMoves(y, g, i);
    StepKeeps(y, g, all, k0, i);
    StillTx(r, h);
    LoadTimes(y, g, n, r, h, i.upTick);
  }

  lemma BeatStep(y: System, g: Trail, all: seq<Byte>, k0: Engine, n: nat, i: Input)
    requires y.Valid() && Inv(y, g, all, k0) && Brisk(k0) && Beating(y, g, n) && OnBeat(i, n)
    ensures Fits(y) && Visible(y, g) && Inv(Step(y, i), NextTrail(y, g, i), all, k0)
    ensures Beating(Step(y, i), NextTrail(y, g, i), (n + 1) % PERIOD)
  {
    hide UpInv, RxInv, UnitInv, DownInv, NextTrail, Step, Load, Delay, Counting, Allowance, Brisk, OnBeat;
    BeatFits(y, g, all, k0, n, i);
    StepKeeps(y, g, all, k0, i);
    UnitStaysOnTime(y, g, all, k0, n, i);
    SentStaysOnTime(y, g, all, k0, n, i);
    LoadStays(y, g, all, k0, n, i);
  }

  // ---------------------------------------------------------------------------------------------
  // Main result
  // ---------------------------------------------------------------------------------------------

  lemma {:induction false} RunBeats(y: System, g: Trail, all: seq<Byte>, k0: Engine, n: nat, ins: seq<Input>)
    requires y.Valid() && Inv(y, g, all, k0) && Brisk(k0) && Beating(y, g, n) && Beat(ins, n)
    ensures AllFits(y, ins) && AllVisible(y, g, ins)
    decreases |ins|
  {
    hide Inv, Brisk, Step, NextTrail, Fits, Visible, OnBeat, UnitOnTime, SentOnTime, Load, Allowance;
    if ins == [] {
      assert Visible(y, g) by { BeatVisible(y, g, n); }
    } else {
      BeatStep(y, g, all, k0, n, ins[0]);
      RunBeats(Step(y, ins[0]), NextTrail(y, g, ins[0]), all, k0, (n + 1) % PERIOD, ins[1..]);
    }
  }

  lemma BeatVisible(y: System, g: Trail, n: nat)
    requires Beating(y, g, n)
    ensures Visible(y, g)
  {
  }

  lemma RestBeats(y: System, n: nat)
    requires AtRest(y) && n < PERIOD
    ensures Beating(y, START, n)
  {
  }

  /** On the beat of the generator a session in which no memory is read has all it needs for its replies to arrive:
      any echoes, queries and register reads among any other packets. */
  lemma BaudVisible(y: System, n: nat, ins: seq<Input>)
    requires AtRest(y) && Brisk(Whole(y, y.unsent).k) && n < PERIOD && Beat(ins, n)
    ensures AllFits(y, ins) && AllVisible(y, START, ins)
  {
    hide Inv, Brisk, Beating, Beat, AllFits, AllVisible, Whole, AtRest;
    assert y.Valid() by { RestValid(y); }
    RestInv(y);
    RestBeats(y, n);
    RunBeats(y, START, y.unsent, Whole(y, y.unsent).k, n, ins);
  }
}
