/** The whole debug link, clock by clock: the host's serial port, the wire, the receive buffer, the debug unit,
    the transmit buffer, the wire back and the host again. */
module DebugLink {
  import opened Bytes
  import opened RegisterFile
  import opened Uart
  import opened Packets
  import DebugPort
  import opened Hci
  import opened HciFraming
  import HciBuffer
  import UartLink
  import Fifo

  // ---------------------------------------------------------------------------------------------
  // Bytes on the wire
  // ---------------------------------------------------------------------------------------------

  lemma {:induction false} NumberRange(b: seq<bool>)
    ensures Number(b) < Pow2(|b|)
    decreases |b|
  {
    if b == [] {
    } else {
      NumberRange(b[1..]);
    }
  }

  /** The byte with these bits. */
  function ByteOf(b: Bits): Byte {
    NumberRange(b);
    Pow2Of8();
    Number(b)
  }

  function LowBits(b: nat, n: nat): seq<bool> { seq(n, k requires 0 <= k < n => Bit(b, k)) }

  lemma {:induction false} NumberOfBits(b: nat, n: nat)
    requires b < Pow2(n)
    ensures Number(LowBits(b, n)) == b
    decreases n
  {
    if n == 0 {
      assert LowBits(b, 0) == [];
    } else {
      NumberOfBits(b / 2, n - 1);
      assert LowBits(b, n)[1..] == LowBits(b / 2, n - 1);
    }
  }

  lemma ByteOfBits(b: Byte)
    ensures ByteOf(BitsOf(b)) == b
  {
    hide Number, Bit;
    Pow2Of8();
    NumberOfBits(b, 8);
    assert BitsOf(b) == LowBits(b, 8);
  }

  function Wired(s: seq<Byte>): (t: seq<Bits>)
    ensures |t| == |s|
  {
    seq(|s|, i requires 0 <= i < |s| => BitsOf(s[i]))
  }

  // ---------------------------------------------------------------------------------------------
  // One clock
  // ---------------------------------------------------------------------------------------------

  /** unsent is what the host still has to send, the byte on the wire included; got is what it has received.
      The debug unit takes its bytes from the receive buffer rxq. */
  datatype System = System(
    hostTx: Tx, unsent: seq<Byte>, rx: Rx, parityErr: bool, rxq: Fifo.State<Byte>, m: Machine, txq: Fifo.State<Byte>,
    tx: Tx, hostRx: Rx, got: seq<Byte>)
  {
    predicate Valid() { rxq.Valid() && m.Valid() && txq.Valid() }
  }

  /** The ticks of the two directions, and whether the host is willing to send. */
  datatype Input = Input(upTick: bool, downTick: bool, ready: bool)

  function Heads(q: Fifo.State<Byte>): seq<Byte>
    requires q.Valid()
  {
    if q.empty then [] else [Fifo.Front(q)]
  }

  /** The unit with the byte the receive buffer shows. */
  function Shown(y: System): Machine
    requires y.Valid()
  {
    y.m.(k := y.m.k.(rx := Heads(y.rxq)))
  }

  function Flags(y: System): Clk { Clk(!y.rxq.empty, !y.txq.full) }

  predicate Consumes(y: System)
    requires y.Valid()
  {
    WaitsForByte(y.m.k) && Moves(Shown(y).k, Flags(y))
  }

  /** A parity error seen so far becomes part of the error code. */
  function NextMachine(y: System): (m: Machine)
    requires y.Valid()
    ensures m.Valid()
  {
    var m := Clock(Shown(y), Flags(y));
    m.(k := m.k.(rx := [], parity := m.k.parity || y.parityErr))
  }

  function Step(y: System, i: Input): (r: System)
    requires y.Valid()
    ensures r.Valid()
  {
    System(
      StepTx(y.hostTx, i.upTick, if i.ready && y.unsent != [] then Some(BitsOf(y.unsent[0])) else None),
      if y.hostTx.done && y.unsent != [] then y.unsent[1..] else y.unsent,
      StepRx(y.rx, i.upTick, y.hostTx.line), y.parityErr || y.rx.parityErr,
      Fifo.Step(y.rxq, Fifo.Input(Consumes(y), y.rx.done, ByteOf(y.rx.data))),
      NextMachine(y),
      Fifo.Step(y.txq, Fifo.Input(y.tx.done, y.m.wrEn, y.m.txData)),
      StepTx(y.tx, i.downTick, if y.txq.empty then None else Some(BitsOf(Fifo.Front(y.txq)))),
      StepRx(y.hostRx, i.downTick, y.tx.line),
      if y.hostRx.done then y.got + [ByteOf(y.hostRx.data)] else y.got)
  }

  function Run(y: System, ins: seq<Input>): (r: System)
    requires y.Valid()
    ensures r.Valid()
    decreases |ins|
  {
    if ins == [] then y else Run(Step(y, ins[0]), ins[1..])
  }

  /** Neither buffer has to refuse a byte: the receive buffer has room when a byte arrives, and a reply that does
      not look at the transmit buffer's flag finds room too. */
  predicate Fits(y: System)
    requires y.Valid()
  {
    (y.rx.done ==> !y.rxq.full) &&
    (HciBuffer.RepliesBlindly(Shown(y).k) ==>
       !Fifo.Step(y.txq, Fifo.Input(y.tx.done, y.m.wrEn, y.m.txData)).full)
  }

  predicate AllFits(y: System, ins: seq<Input>)
    requires y.Valid()
    decreases |ins|
  {
    ins == [] || (Fits(y) && AllFits(Step(y, ins[0]), ins[1..]))
  }

  // ---------------------------------------------------------------------------------------------
  // The invariant
  // ---------------------------------------------------------------------------------------------

  /** Where everything is: what has come off the wire, how much of it the unit has taken, what the buffers hold,
      how many steps the unit has made, what has left the transmit buffer and what the host has received. */
  datatype Trail = Trail(
    recv: seq<Bits>, up: UartLink.Phase, taken: nat, s: seq<Byte>, steps: nat, drained: seq<Byte>, t: seq<Byte>,
    gotBits: seq<Bits>, down: UartLink.Phase)

  function Up(y: System, g: Trail): UartLink.Link { UartLink.Link(y.hostTx, y.rx, Wired(y.unsent), g.recv, false) }

  function Down(y: System, g: Trail): UartLink.Link { UartLink.Link(y.tx, y.hostRx, Wired(g.t), g.gotBits, false) }

  /** The unit with everything still to come in place of the receive buffer. */
  function Whole(y: System, rest: seq<Byte>): Machine { y.m.(k := y.m.k.(rx := rest)) }

  function Unwired(b: seq<Bits>): seq<Byte> { seq(|b|, i requires 0 <= i < |b| => ByteOf(b[i])) }

  ghost predicate UpInv(y: System, g: Trail, all: seq<Byte>) {
    UartLink.Inv(Up(y, g), g.up, Wired(all)) && !y.parityErr
  }

  ghost predicate RxInv(y: System, g: Trail, all: seq<Byte>) {
    Fifo.Holds(y.rxq, g.s) && g.taken + |g.s| == |g.recv| <= |all| && g.s == all[g.taken..|g.recv|]
  }

  ghost predicate UnitInv(y: System, g: Trail, all: seq<Byte>, k0: Engine) {
    y.m.Valid() && y.m.k.rx == [] && g.taken <= |all| &&
    var m := Whole(y, all[g.taken..]);
    LatchReady(m) && m.k == FastN(k0, g.steps) && HciBuffer.Inv(HciBuffer.Port(m, y.txq, g.drained), g.t)
  }

  /** A frame is only sent while the transmit buffer shows its byte. */
  ghost predicate DownInv(y: System, g: Trail) {
    UartLink.Inv(Down(y, g), g.down, Wired(g.drained + g.t)) && Unwired(g.gotBits) == y.got &&
    (!y.tx.state.Idle? || y.tx.done ==> !y.txq.empty)
  }

  ghost predicate Inv(y: System, g: Trail, all: seq<Byte>, k0: Engine) {
    UpInv(y, g, all) && RxInv(y, g, all) && UnitInv(y, g, all, k0) && DownInv(y, g)
  }

  // ---------------------------------------------------------------------------------------------
  // Host to receive buffer
  // ---------------------------------------------------------------------------------------------

  lemma LinkStep(k: UartLink.Link, ph: UartLink.Phase, c: UartLink.Clock, total: seq<Bits>)
    requires UartLink.Inv(k, ph, total)
    ensures UartLink.Inv(UartLink.Step(k, c), UartLink.NextPhase(k, ph, c), total + c.pushed)
  {
    hide UartLink.Inv, UartLink.Step, UartLink.NextPhase;
    if ph.Within? {
      UartLink.WithinStep(k, ph, c, total);
    } else {
      UartLink.BetweenStep(k, c, total);
    }
  }

  /** What has been received is a prefix of what was queued. */
  lemma ReceivedPrefix(k: UartLink.Link, ph: UartLink.Phase, total: seq<Bits>)
    requires UartLink.Inv(k, ph, total)
    ensures k.received <= total && !k.rx.parityErr && (k.tx.done ==> k.queue != [])
  {
    hide UartLink.ViewAt, UartLink.LevelAt;
  }

  function NextUp(y: System, g: Trail, i: Input): Trail {
    var c := UartLink.Clock(i.upTick, i.ready, []);
    g.(recv := UartLink.Step(Up(y, g), c).received, up := UartLink.NextPhase(Up(y, g), g.up, c))
  }

  lemma UpStep(y: System, g: Trail, all: seq<Byte>, i: Input)
    requires y.Valid() && UpInv(y, g, all)
    ensures var h := NextUp(y, g, i);
      UpInv(Step(y, i), h, all) && h.recv <= Wired(all) &&
      h.recv == if y.rx.done then g.recv + [y.rx.data] else g.recv
  {
    hide UartLink.Inv, UartLink.NextPhase, StepTx, StepRx, Fifo.Step, NextMachine, BitsOf, Consumes, ByteOf;
    var c := UartLink.Clock(i.upTick, i.ready, []);
    var k, h, r := Up(y, g), NextUp(y, g, i), Step(y, i);
    ReceivedPrefix(k, g.up, Wired(all));
    LinkStep(k, g.up, c, Wired(all));
    assert Wired(all) + c.pushed == Wired(all);
    assert Up(r, h) == UartLink.Step(k, c);
    ReceivedPrefix(Up(r, h), h.up, Wired(all));
  }

  /** Nothing the unit does depends on the bytes behind the next one. */
  lemma AdvanceRx(k: Engine, rx: seq<Byte>, b: Byte, cpuData: Byte, ppuData: Byte)
    ensures Advance(k.(rx := rx), b, cpuData, ppuData) == Advance(k, b, cpuData, ppuData).(rx := rx)
  {
    hide DebugPort.DebugRead, DebugPort.DebugWrite, CpuCell, PpuCell, ToWord, Lo, Add16, Bit, Decoded, Header, PpuOffStep;
    match k.ctl {
      case Decode => DecodedRx(k, rx, b);
      case CpuRdHeader => HeaderRx(k, rx, b, CpuRd, 2);
      case PpuRdHeader => HeaderRx(k, rx, b, PpuRd, 2);
      case CpuWrHeader => HeaderRx(k, rx, b, CpuWr, 1);
      case PpuWrHeader => HeaderRx(k, rx, b, PpuWr, 1);
      case PpuOff => OffRx(k, rx);
      case _ =>
    }
  }

  lemma OffRx(k: Engine, rx: seq<Byte>)
    ensures PpuOffStep(k.(rx := rx)) == PpuOffStep(k).(rx := rx)
  {
    hide CpuCell;
  }

  lemma DecodedRx(k: Engine, rx: seq<Byte>, b: Byte)
    ensures Decoded(k.(decodeCnt := 0, rx := rx), b) == Decoded(k.(decodeCnt := 0), b).(rx := rx)
  {
  }

  lemma HeaderRx(k: Engine, rx: seq<Byte>, b: Byte, next: Ctl, perByte: nat)
    ensures Header(k.(rx := rx), b, next, perByte) == Header(k, b, next, perByte).(rx := rx)
  {
    hide ToWord, Lo;
  }

  /** Two streams with the same byte at the front. */
  lemma ClockRx(m: Machine, rx: seq<Byte>, c: Clk)
    requires m.Valid() && (c.available ==> m.k.rx != [] && rx != [] && m.k.rx[0] == rx[0])
    ensures var a, b := Clock(m, c), Clock(m.(k := m.k.(rx := rx)), c);
      Moves(m.k.(rx := rx), c) == Moves(m.k, c) &&
      b == a.(k := a.k.(rx := if WaitsForByte(m.k) && Moves(m.k, c) then rx[1..] else rx))
  {
    hide Advance, CpuCell, PpuCell;
    var k, w := m.k, m.k.w;
    SameWaits(k, rx);
    if Moves(k, c) {
      var x, z := CpuShown(w, m.cpuLatch, m.k.addr), w.ppu[m.ppuLatch];
      if WaitsForByte(k) {
        AdvanceRx(k.(rx := k.rx[1..]), rx[1..], k.rx[0], x, z);
      } else {
        AdvanceRx(k, rx, 0, x, z);
      }
    }
  }

  lemma SameWaits(k: Engine, rx: seq<Byte>)
    ensures WaitsForByte(k.(rx := rx)) == WaitsForByte(k) && WaitsForRoom(k.(rx := rx)) == WaitsForRoom(k)
  {
  }

  // ---------------------------------------------------------------------------------------------
  // The unit between its buffers
  // ---------------------------------------------------------------------------------------------

  function RxInput(y: System): Fifo.Input<Byte>
    requires y.Valid()
  {
    Fifo.Input(Consumes(y), y.rx.done, ByteOf(y.rx.data))
  }

  function TxInput(y: System): Fifo.Input<Byte> { Fifo.Input(y.tx.done, y.m.wrEn, y.m.txData) }

  lemma FrontOf(q: Fifo.State<Byte>, s: seq<Byte>)
    requires Fifo.Holds(q, s)
    ensures q.Valid() && (!q.empty ==> s != [] && s[0] == Fifo.Front(q) && s == [s[0]] + s[1..])
  {
    Fifo.FrontIs(q, s);
  }

  function NextUnit(y: System, g: Trail): Trail
    requires y.Valid()
  {
    var i, o := RxInput(y), TxInput(y);
    var popped, drained := |Fifo.Popped(y.rxq, i)|, Fifo.Popped(y.txq, o);
    g.(taken := g.taken + popped,
       s := (if popped <= |g.s| then g.s[popped..] else []) + Fifo.Pushed(y.rxq, i),
       steps := g.steps + B(Moves(Shown(y).k, Flags(y))),
       drained := g.drained + drained,
       t := (if |drained| <= |g.t| then g.t[|drained|..] else []) + Fifo.Pushed(y.txq, o))
  }

  /** The receive buffer takes what comes off the wire and gives it to the unit. */
  lemma RxStep(y: System, g: Trail, all: seq<Byte>, i: Input)
    requires y.Valid() && RxInv(y, g, all) && (y.rx.done ==> !y.rxq.full)
    requires var recv := NextUp(y, g, i).recv;
      recv <= Wired(all) && recv == if y.rx.done then g.recv + [y.rx.data] else g.recv
    ensures var h := NextUnit(y, g).(recv := NextUp(y, g, i).recv); RxInv(Step(y, i), h, all)
  {
    hide Fifo.Holds, Fifo.Step, NextUp, NextMachine, Consumes, StepTx, StepRx, ByteOf, BitsOf, Moves, Shown;
    var j, recv := RxInput(y), NextUp(y, g, i).recv;
    FrontOf(y.rxq, g.s);
    Fifo.StepHolds(y.rxq, g.s, j);
    if y.rx.done {
      assert recv[|g.recv|] == Wired(all)[|g.recv|];
      ByteOfBits(all[|g.recv|]);
    }
    Slices(all, g.taken, |g.recv|, |Fifo.Popped(y.rxq, j)|);
  }

  lemma Slices(all: seq<Byte>, lo: nat, hi: nat, n: nat)
    requires lo <= hi <= |all| && n <= hi - lo
    ensures all[lo..hi][n..] == all[lo + n..hi]
    ensures hi < |all| ==> all[lo..hi][n..] + [all[hi]] == all[lo + n..hi + 1]
  {
  }

  /** The unit with all its bytes at hand does the same. */
  lemma WholeSteps(y: System, g: Trail, all: seq<Byte>)
    requires y.Valid() && RxInv(y, g, all) && !y.parityErr && y.m.k.rx == [] && g.taken <= |all|
    ensures var rest := all[g.taken..]; var popped := |Fifo.Popped(y.rxq, RxInput(y))|;
      popped <= |rest| && Whole(y.(m := NextMachine(y)), rest[popped..]) == Clock(Whole(y, rest), Flags(y)) &&
      Moves(Whole(y, rest).k, Flags(y)) == Moves(Shown(y).k, Flags(y)) &&
      (popped == 1 <==> Consumes(y))
  {
    hide Clock, Moves, WaitsForByte, RxInv;
    var rest := all[g.taken..];
    FrontOfRest(y, g, all);
    ClockRx(Shown(y), rest, Flags(y));
    SameWaits(y.m.k, Heads(y.rxq));
    assert Shown(y).(k := Shown(y).k.(rx := rest)) == Whole(y, rest) && rest[0..] == rest;
    if Consumes(y) {
      ConsumesShown(y);
    }
  }

  lemma FrontOfRest(y: System, g: Trail, all: seq<Byte>)
    requires y.Valid() && RxInv(y, g, all)
    ensures g.taken <= |all| && (!y.rxq.empty ==> all[g.taken..] != [] && all[g.taken..][0] == Fifo.Front(y.rxq))
  {
    hide Fifo.Holds;
    FrontOf(y.rxq, g.s);
    if !y.rxq.empty {
      assert all[g.taken..][0] == all[g.taken] == g.s[0];
    }
  }

  lemma ConsumesShown(y: System)
    requires y.Valid() && Consumes(y)
    ensures !y.rxq.empty
  {
  }

  lemma UnitStep(y: System, g: Trail, all: seq<Byte>, k0: Engine, i: Input)
    requires y.Valid() && !y.parityErr && RxInv(y, g, all) && UnitInv(y, g, all, k0) && Fits(y)
    ensures UnitInv(Step(y, i), NextUnit(y, g), all, k0)
  {
    hide Clock, RxInv, HciBuffer.Inv, LatchReady, FastN, NextUnit, NextMachine, Fits, Fifo.Step;
    var m, h := Clock(Whole(y, all[g.taken..]), Flags(y)), NextUnit(y, g);
    EngineSteps(y, g, all, k0);
    BufferSteps(y, g, all);
    assert Whole(Step(y, i), all[h.taken..]) == Whole(y.(m := NextMachine(y)), all[h.taken..]);
    assert NextMachine(y).k.rx == [] by { NothingKept(y); }
  }

  lemma NothingKept(y: System)
    requires y.Valid()
    ensures NextMachine(y).k.rx == []
  {
    hide Clock;
  }

  /** The unit with all its bytes at hand takes one more step, or none. */
  lemma EngineSteps(y: System, g: Trail, all: seq<Byte>, k0: Engine)
    requires y.Valid() && !y.parityErr && RxInv(y, g, all) && g.taken <= |all| && y.m.k.rx == []
    requires var m := Whole(y, all[g.taken..]); LatchReady(m) && m.k == FastN(k0, g.steps)
    ensures var m, h := Clock(Whole(y, all[g.taken..]), Flags(y)), NextUnit(y, g);
      h.taken <= |all| && Whole(y.(m := NextMachine(y)), all[h.taken..]) == m && LatchReady(m) && m.k == FastN(k0, h.steps)
  {
    hide Clock, Moves, RxInv, LatchReady, Fast, FastN, NextMachine, Consumes, Shown;
    var rest := all[g.taken..];
    var popped := |Fifo.Popped(y.rxq, RxInput(y))|;
    WholeSteps(y, g, all);
    ClockIsFast(Whole(y, rest), Flags(y));
    OneMore(k0, g.steps);
    assert rest[popped..] == all[g.taken + popped..];
  }

  /** Its replies get into the transmit buffer. */
  lemma BufferSteps(y: System, g: Trail, all: seq<Byte>)
    requires y.Valid() && RxInv(y, g, all) && g.taken <= |all| && Fits(y)
    requires HciBuffer.Inv(HciBuffer.Port(Whole(y, all[g.taken..]), y.txq, g.drained), g.t)
    ensures var m, h := Clock(Whole(y, all[g.taken..]), Flags(y)), NextUnit(y, g);
      HciBuffer.Inv(HciBuffer.Port(m, Fifo.Step(y.txq, TxInput(y)), h.drained), h.t)
  {
    hide Clock, RxInv, HciBuffer.Inv, Fifo.Step, HciBuffer.Heard, Consumes, Moves, Shown;
    var p, tick := HciBuffer.Port(Whole(y, all[g.taken..]), y.txq, g.drained), HciBuffer.Tick(!y.rxq.empty, y.tx.done);
    HeardIfFits(y, g, all, p);
    HciBuffer.PoppedFits(p, g.t, tick);
    HciBuffer.StepKeeps(p, g.t, tick);
  }

  lemma OneMore(k: Engine, n: nat)
    ensures FastN(k, n + 1) == Fast(FastN(k, n))
  {
    hide Fast;
    FastAdds(k, n, 1);
    OneStep(FastN(k, n));
  }

  lemma HeardIfFits(y: System, g: Trail, all: seq<Byte>, p: HciBuffer.Port)
    requires y.Valid() && RxInv(y, g, all) && g.taken <= |all| && Fits(y)
    requires p.m == Whole(y, all[g.taken..]) && p.q == y.txq
    ensures HciBuffer.Heard(p, HciBuffer.Tick(!y.rxq.empty, y.tx.done))
  {
    hide RxInv, Fifo.Step, HciBuffer.Blind;
    FrontOfRest(y, g, all);
  }

  // ---------------------------------------------------------------------------------------------
  // Transmit buffer to host
  // ---------------------------------------------------------------------------------------------

  function DownClock(y: System, i: Input): UartLink.Clock
    requires y.Valid()
  {
    UartLink.Clock(i.downTick, !y.txq.empty, Wired(Fifo.Pushed(y.txq, TxInput(y))))
  }

  function NextTrail(y: System, g: Trail, i: Input): Trail
    requires y.Valid()
  {
    var u, d, c := NextUp(y, g, i), Down(y, g), DownClock(y, i);
    NextUnit(y, g).(recv := u.recv, up := u.up, gotBits := UartLink.Step(d, c).received,
                    down := UartLink.NextPhase(d, g.down, c))
  }

  lemma DoneIsIdle(k: UartLink.Link, ph: UartLink.Phase, total: seq<Bits>)
    requires UartLink.Inv(k, ph, total)
    ensures k.tx.done ==> k.tx.state.Idle?
  {
    hide UartLink.ViewAt, UartLink.LevelAt;
  }

  /** The buffer goes on showing the byte that is being sent. */
  lemma StillShown(y: System, i: Input)
    requires y.Valid() && (y.tx.done ==> y.tx.state.Idle?) && (!y.tx.state.Idle? || y.tx.done ==> !y.txq.empty)
    ensures var r := Step(y, i); !r.tx.state.Idle? || r.tx.done ==> !r.txq.empty
  {
    hide NextMachine, StepRx, Reduce, OddParity, Shifted, BitsOf, Consumes, ByteOf, Fifo.Ahead, Fifo.Behind;
  }

  /** The transmit buffer is the queue of the wire back. */
  lemma QueueMoves(y: System, g: Trail)
    requires y.Valid() && Fifo.Holds(y.txq, g.t) && (y.tx.done ==> !y.txq.empty)
    ensures var o := TxInput(y); var q, h := Wired(g.t), NextUnit(y, g);
      (y.txq.empty || (g.t != [] && q[0] == BitsOf(Fifo.Front(y.txq)))) &&
      Wired(h.t) == (if y.tx.done && q != [] then q[1..] else q) + Wired(Fifo.Pushed(y.txq, o)) &&
      Wired(h.drained + h.t) == Wired(g.drained + g.t) + Wired(Fifo.Pushed(y.txq, o))
  {
    hide Fifo.Holds, BitsOf, Wired, NextUnit, Fifo.Pushed;
    FrontOf(y.txq, g.t);
    if g.t != [] {
      WiredFirst(g.t);
    }
    TrailMoves(y, g);
    QueueSplits(g.drained, g.t, y.tx.done, Fifo.Pushed(y.txq, TxInput(y)));
  }

  lemma TrailMoves(y: System, g: Trail)
    requires y.Valid() && (y.tx.done ==> !y.txq.empty && g.t != [] && g.t[0] == Fifo.Front(y.txq))
    ensures var popped, h := if y.tx.done then [g.t[0]] else [], NextUnit(y, g);
      h.t == (if y.tx.done then g.t[1..] else g.t) + Fifo.Pushed(y.txq, TxInput(y)) && h.drained == g.drained + popped
  {
    hide Consumes, Moves, Fifo.Pushed, Fifo.Front;
    var popped := Fifo.Popped(y.txq, TxInput(y));
    assert popped == if y.tx.done then [Fifo.Front(y.txq)] else [];
    assert g.t[0..] == g.t;
  }

  /** The front byte goes out and another may come in behind. */
  lemma QueueSplits(drained: seq<Byte>, t: seq<Byte>, pops: bool, pushed: seq<Byte>)
    requires pops ==> t != []
    ensures var popped, rest := if pops then [t[0]] else [], if pops then t[1..] else t;
      Wired(rest + pushed) == (if pops then Wired(t)[1..] else Wired(t)) + Wired(pushed) &&
      Wired(drained + popped + (rest + pushed)) == Wired(drained + t) + Wired(pushed)
  {
    hide Wired, BitsOf;
    var popped, rest := if pops then [t[0]] else [], if pops then t[1..] else t;
    assert popped + rest == t;
    assert drained + popped + (rest + pushed) == drained + t + pushed;
    WiredAdds(rest, pushed);
    WiredAdds(drained + t, pushed);
    if pops {
      WiredFirst(t);
    }
  }

  lemma WiredAdds(a: seq<Byte>, b: seq<Byte>)
    ensures Wired(a + b) == Wired(a) + Wired(b)
  {
    hide BitsOf;
  }

  lemma WiredFirst(a: seq<Byte>)
    requires a != []
    ensures Wired(a)[0] == BitsOf(a[0]) && Wired(a)[1..] == Wired(a[1..])
  {
    hide BitsOf;
  }

  lemma DownStep(y: System, g: Trail, i: Input)
    requires y.Valid() && Fifo.Holds(y.txq, g.t) && DownInv(y, g)
    ensures DownInv(Step(y, i), NextTrail(y, g, i))
  {
    hide UartLink.Inv, UartLink.NextPhase, StepTx, StepRx, Fifo.Step, Fifo.Holds, NextMachine, NextUnit, NextUp, BitsOf, Consumes,
      ByteOf;
    var k, c, h, r := Down(y, g), DownClock(y, i), NextTrail(y, g, i), Step(y, i);
    ReceivedPrefix(k, g.down, Wired(g.drained + g.t));
    DoneIsIdle(k, g.down, Wired(g.drained + g.t));
    LinkStep(k, g.down, c, Wired(g.drained + g.t));
    QueueMoves(y, g);
    StillShown(y, i);
    assert Down(r, h) == UartLink.Step(k, c);
    assert Unwired(h.gotBits) == r.got;
  }

  // ---------------------------------------------------------------------------------------------
  // The link
  // ---------------------------------------------------------------------------------------------

  lemma StepKeeps(y: System, g: Trail, all: seq<Byte>, k0: Engine, i: Input)
    requires y.Valid() && Inv(y, g, all, k0) && Fits(y)
    ensures Inv(Step(y, i), NextTrail(y, g, i), all, k0)
  {
    hide UpInv, RxInv, UnitInv, DownInv, Step, NextUnit, NextUp, UartLink.Step, UartLink.NextPhase;
    assert !y.parityErr by { NoParityError(y, g, all); }
    assert Fifo.Holds(y.txq, g.t) by { TxHolds(y, g, all, k0); }
    UpStep(y, g, all, i);
    RxStep(y, g, all, i);
    UnitStep(y, g, all, k0, i);
    DownStep(y, g, i);
    Frames(Step(y, i), NextUp(y, g, i), NextUnit(y, g), NextTrail(y, g, i), all, k0);
  }

  /** Each part of the invariant looks at its own part of the trail. */
  lemma Frames(r: System, u: Trail, n: Trail, h: Trail, all: seq<Byte>, k0: Engine)
    requires UpInv(r, u, all) && h.recv == u.recv && h.up == u.up
    requires RxInv(r, n.(recv := u.recv), all) && UnitInv(r, n, all, k0)
    requires h.taken == n.taken && h.s == n.s && h.steps == n.steps && h.drained == n.drained && h.t == n.t
    ensures UpInv(r, h, all) && RxInv(r, h, all) && UnitInv(r, h, all, k0)
  {
    hide UartLink.Inv, Fifo.Holds, LatchReady, HciBuffer.Inv, FastN;
    assert Up(r, h) == Up(r, u);
  }

  lemma NoParityError(y: System, g: Trail, all: seq<Byte>)
    requires UpInv(y, g, all)
    ensures !y.parityErr
  {
    hide UartLink.Inv;
  }

  lemma TxHolds(y: System, g: Trail, all: seq<Byte>, k0: Engine)
    requires UnitInv(y, g, all, k0)
    ensures Fifo.Holds(y.txq, g.t) && y.m.Valid()
  {
    hide Fifo.Holds, FastN, LatchReady;
  }

  lemma {:induction false} RunKeeps(y: System, g: Trail, all: seq<Byte>, k0: Engine, ins: seq<Input>) returns (h: Trail)
    requires y.Valid() && Inv(y, g, all, k0) && AllFits(y, ins)
    ensures Inv(Run(y, ins), h, all, k0)
    decreases |ins|
  {
    hide Inv, Step, Fits, NextTrail;
    if ins == [] {
      h := g;
    } else {
      StepKeeps(y, g, all, k0, ins[0]);
      h := RunKeeps(Step(y, ins[0]), NextTrail(y, g, ins[0]), all, k0, ins[1..]);
    }
  }

  lemma TakenWithin(y: System, g: Trail, all: seq<Byte>, k0: Engine)
    requires UnitInv(y, g, all, k0)
    ensures g.taken <= |all| && FastN(k0, g.steps).rx == all[g.taken..]
    ensures FastN(k0, g.steps) == y.m.k.(rx := all[g.taken..])
  {
    hide FastN, LatchReady;
  }

  lemma TrailCounts(y: System, g: Trail, i: Input)
    requires y.Valid() && Fifo.Holds(y.rxq, g.s)
    ensures var h, j := NextTrail(y, g, i), RxInput(y); var popped := |Fifo.Popped(y.rxq, j)|;
      h.taken == g.taken + popped && |h.s| == |g.s| - popped + |Fifo.Pushed(y.rxq, j)| &&
      h.steps == g.steps + B(Moves(Shown(y).k, Flags(y)))
  {
    hide Fifo.Holds, Fifo.Step, NextUp, UartLink.Step, UartLink.NextPhase, Moves, Consumes, ByteOf, DownClock;
    FrontOf(y.rxq, g.s);
  }

  lemma RxHolds(y: System, g: Trail, all: seq<Byte>)
    requires RxInv(y, g, all)
    ensures Fifo.Holds(y.rxq, g.s)
  {
    hide Fifo.Holds;
  }

  lemma MovesOn(y: System, g: Trail, all: seq<Byte>, k0: Engine)
    requires y.Valid() && UpInv(y, g, all) && RxInv(y, g, all) && UnitInv(y, g, all, k0) && Moves(Shown(y).k, Flags(y))
    ensures !Stuck(FastN(k0, g.steps))
  {
    hide UpInv, RxInv, FastN, LatchReady, HciBuffer.Inv;
    assert !y.parityErr by { NoParityError(y, g, all); }
    WholeSteps(y, g, all);
  }

  lemma EmptyShows(q: Fifo.State<Byte>, s: seq<Byte>)
    requires Fifo.Holds(q, s)
    ensures (s == [] ==> q.empty && !q.full)
  {
  }

  // ---------------------------------------------------------------------------------------------
  // Main result
  // ---------------------------------------------------------------------------------------------

  /** Idle ports and wires, empty buffers, and the unit between packets: so it is after reset, and so it is again
      whenever all bytes have reached their ends. */
  ghost predicate Settled(y: System) {
    y.Valid() && TxRests(y.hostTx) && RxRests(y.rx) && TxRests(y.tx) && RxRests(y.hostRx) && !y.parityErr &&
    Fifo.Holds(y.rxq, []) && Fifo.Holds(y.txq, []) && Between(y.m.k) && y.m.k.rx == [] && !y.m.wrEn
  }

  /** The same before anything has been received; the record of what the unit has replied starts anew too. */
  ghost predicate AtRest(y: System) { Settled(y) && y.got == [] && y.m.k.out == [] }

  /** The state after reset, with any memories and anything in the buffers' arrays. */
  predicate Reset(y: System) {
    y.Valid() && y.hostTx == TX_RESET && y.rx == RX_RESET && y.tx == TX_RESET && y.hostRx == RX_RESET && y.got == [] &&
    Fifo.Reset(y.rxq) && Fifo.Reset(y.txq) && !y.parityErr &&
    y.m.k.ctl.Decode? && y.m.k.rx == [] && y.m.k.out == [] && !y.m.wrEn
  }

  lemma ResetRests(y: System)
    requires Reset(y)
    ensures AtRest(y)
  {
  }

  const START: Trail := Trail([], UartLink.Between, 0, [], 0, [], [], [], UartLink.Between)

  lemma RestInv(y: System)
    requires AtRest(y)
    ensures Inv(y, START, y.unsent, Whole(y, y.unsent).k)
  {
    hide UartLink.ViewAt, UartLink.LevelAt, UartLink.TxAt, UartLink.RxAt;
    assert y.unsent[0..] == y.unsent;
    assert [] + Wired(y.unsent) == Wired(y.unsent);
  }

  lemma UnwiredPrefix(b: seq<Bits>, s: seq<Byte>)
    requires b <= Wired(s)
    ensures Unwired(b) <= s
  {
    hide ByteOf, BitsOf;
    forall i | 0 <= i < |b|
      ensures Unwired(b)[i] == s[i]
    {
      assert b[i] == Wired(s)[i];
      ByteOfBits(s[i]);
    }
  }

  /** From rest, for every tick stream of either direction and however the host spaces its bytes, as long as
      neither buffer has to refuse a byte: the unit is somewhere on the run it would make with all the host's
      bytes at hand, what the host has received is a prefix of what the unit has replied, and no parity error
      is seen. */
  lemma LinkFollows(y: System, ins: seq<Input>) returns (n: nat)
    requires AtRest(y) && AllFits(y, ins)
    ensures var r, e := Run(y, ins), FastN(Whole(y, y.unsent).k, n);
      r.m.k == e.(rx := []) && r.got <= e.out && !r.parityErr
  {
    hide Inv, Run, FastN, AllFits, AtRest, Whole;
    assert y.Valid() by { RestValid(y); }
    RestInv(y);
    var g := RunKeeps(y, START, y.unsent, Whole(y, y.unsent).k, ins);
    n := g.steps;
    TrailSays(Run(y, ins), g, y.unsent, Whole(y, y.unsent).k);
  }

  lemma RestValid(y: System)
    requires AtRest(y)
    ensures y.Valid()
  {
  }

  lemma TrailSays(y: System, g: Trail, all: seq<Byte>, k0: Engine)
    requires Inv(y, g, all, k0)
    ensures y.m.k == FastN(k0, g.steps).(rx := []) && y.got <= FastN(k0, g.steps).out && !y.parityErr
  {
    hide UartLink.Inv, FastN, Fifo.Holds, LatchReady, Unwired, Wired, HciBuffer.Inv;
    HciBuffer.OfInv(HciBuffer.Port(Whole(y, all[g.taken..]), y.txq, g.drained), g.t);
    ReceivedPrefix(Down(y, g), g.down, Wired(g.drained + g.t));
    UnwiredPrefix(g.gotBits, g.drained + g.t);
  }
}
