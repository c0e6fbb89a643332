/** When the buffers of the link have room for everything: if the unit says nothing before it has taken the last
    byte of the host, neither buffer ever has to refuse a byte. */
module LinkRoom {
  import opened Bytes
  import opened Uart
  import opened Packets
  import opened Hci
  import opened HciFraming
  import opened DebugLink
  import DebugPort
  import HciBuffer
  import UartLink
  import Fifo

  /** The unit does not reply while there is still something to come. */
  ghost predicate Late(k: Engine) { forall n: nat :: FastN(k, n).rx != [] ==> FastN(k, n).out == [] }

  /** Clocks the unit still spends without looking for a byte. */
  function Busy(k: Engine): nat {
    if k.ctl.CfgBegin? then 1 else if k.ctl.PpuOff? then (13 - k.decodeCnt) % 8 + 1 else 0
  }

  /** Clocks until the next byte from the wire, at least. */
  function Away(q: Rx): int { if q.done then 0 else if q.state.Stop? then 16 - q.cnt else 16 }

  predicate Steady(q: Rx) { q.done ==> q.state.Idle? }

  predicate Counting(k: Engine) { k.ctl.PpuOff? ==> k.decodeCnt < 8 }

  /** The unit is through with what is in the receive buffer before the next byte arrives. */
  predicate Roomy(y: System, g: Trail, all: seq<Byte>) {
    Steady(y.rx) && Counting(y.m.k) &&
    (g.taken < |all| ==> 9 * |g.s| + Busy(y.m.k) <= Away(y.rx) && (g.s != [] ==> !y.rxq.empty))
  }

  lemma WireComes(q: Rx, tick: bool, wire: bool)
    requires Steady(q)
    ensures var r := StepRx(q, tick, wire); Steady(r) && Away(r) >= Away(q) - 1 && (q.done ==> Away(r) == 16)
  {
    hide Reduce;
  }

  lemma BusyStep(k: Engine)
    requires Counting(k) && !Stuck(k)
    ensures var f := Fast(k);
      Counting(f) && Busy(f) <= 8 && (Busy(k) > 0 ==> Busy(f) == Busy(k) - 1)
  {
    hide Advance, Busy, Counting, CpuShown, CpuCell, PpuCell;
    var e, b := if WaitsForByte(k) then k.(rx := k.rx[1..]) else k, if WaitsForByte(k) then k.rx[0] else 0;
    SameBusy(k, e.rx);
    AdvanceBusy(e, b, CpuRead(k.w, k.addr), PpuRead(k.w, k.addr));
  }

  lemma SameBusy(k: Engine, rx: seq<Byte>)
    ensures Busy(k.(rx := rx)) == Busy(k) && Counting(k.(rx := rx)) == Counting(k)
  {
  }

  lemma AdvanceBusy(k: Engine, b: Byte, cpuData: Byte, ppuData: Byte)
    requires Counting(k)
    ensures var f := Advance(k, b, cpuData, ppuData);
      Counting(f) && Busy(f) <= 8 && (Busy(k) > 0 ==> Busy(f) == Busy(k) - 1)
  {
    hide CpuCell, PpuCell, DebugPort.DebugRead, DebugPort.DebugWrite, Add16, ToWord, Decoded, Header, PpuOffStep;
    match k.ctl {
      case Decode => DecodedBusy(k.(decodeCnt := 0), b);
      case CpuRdHeader => HeaderBusy(k, b, CpuRd, 2);
      case PpuRdHeader => HeaderBusy(k, b, PpuRd, 2);
      case CpuWrHeader => HeaderBusy(k, b, CpuWr, 1);
      case PpuWrHeader => HeaderBusy(k, b, PpuWr, 1);
      case PpuOff => OffBusy(k);
      case _ =>
    }
  }

  lemma DecodedBusy(k: Engine, op: Byte)
    requires k.ctl.Decode? && k.decodeCnt == 0
    ensures var f := Decoded(k, op); Counting(f) && Busy(f) <= 8
  {
  }

  lemma HeaderBusy(k: Engine, b: Byte, next: Ctl, perByte: nat)
    requires MemoryHeader(k.ctl) && (next.CpuRd? || next.PpuRd? || next.CpuWr? || next.PpuWr?)
    ensures var f := Header(k, b, next, perByte); Counting(f) && Busy(f) == 0
  {
    hide ToWord;
  }

  lemma OffBusy(k: Engine)
    requires k.ctl.PpuOff? && k.decodeCnt < 8
    ensures var f := PpuOffStep(k); Counting(f) && Busy(f) == Busy(k) - 1
  {
    hide CpuCell;
  }

  /** States that reply without taking a byte. */
  lemma SpeaksSoon(k: Engine)
    requires !WaitsForByte(k) && Busy(k) == 0
    ensures var f := Fast(k);
      f.rx == k.rx && if Reading(k) && k.executeCnt % 2 == 0 then Reading(f) && f.executeCnt % 2 == 1 else f.out != []
  {
    hide CpuCell, PpuCell, Add16, CpuShown, Decoded, Header, PpuOffStep, DebugPort.DebugRead, DebugPort.DebugWrite;
  }

  /** So as long as there is something to come, the unit takes bytes or is busy. */
  lemma LateListens(k: Engine, n: nat)
    requires Late(k) && FastN(k, n).rx != []
    ensures var e := FastN(k, n); e.out == [] && (WaitsForByte(e) || Busy(e) > 0)
  {
    hide Fast, FastN, WaitsForByte, Busy;
    var e := FastN(k, n);
    if !WaitsForByte(e) && Busy(e) == 0 {
      OneMore(k, n);
      OneMore(k, n + 1);
      SpeaksSoon(e);
      if Reading(e) && e.executeCnt % 2 == 0 {
        ReadingSpeaks(Fast(e));
      }
      assert false;
    }
  }

  lemma ReadingSpeaks(k: Engine)
    requires Reading(k) && k.executeCnt % 2 == 1
    ensures Fast(k).out != [] && Fast(k).rx == k.rx
  {
    SpeaksSoon(k);
  }

  // ---------------------------------------------------------------------------------------------
  // One clock
  // ---------------------------------------------------------------------------------------------

  /** With nothing replied the transmit buffer is empty, and everything fits. */
  lemma NothingInside(y: System, g: Trail, all: seq<Byte>, k0: Engine)
    requires UnitInv(y, g, all, k0) && FastN(k0, g.steps).out == []
    ensures g.t == [] && !y.m.wrEn && !y.txq.full && Fifo.Holds(y.txq, [])
  {
    hide FastN, LatchReady;
    HciBuffer.OfInv(HciBuffer.Port(Whole(y, all[g.taken..]), y.txq, g.drained), g.t);
  }

  lemma NeverFull(q: Fifo.State<Byte>, i: Fifo.Input<Byte>)
    requires Fifo.Holds(q, [])
    ensures !Fifo.Step(q, i).full
  {
    Fifo.PointersCount(q, []);
  }

  /** After the last byte nothing comes any more. */
  lemma NothingComes(y: System, g: Trail, all: seq<Byte>, i: Input)
    requires y.Valid() && UpInv(y, g, all) && RxInv(y, g, all) && g.taken == |all|
    ensures g.s == [] && !y.rx.done && y.rxq.empty && |g.recv| == |all|
  {
    hide Fifo.Holds, UartLink.Inv, UartLink.Step, NextUp;
    UpStep(y, g, all, i);
    EmptyShows(y.rxq, g.s);
  }

  lemma LateFitsNow(y: System, g: Trail, all: seq<Byte>, k0: Engine, i: Input)
    requires y.Valid() && Inv(y, g, all, k0) && Late(k0) && Roomy(y, g, all)
    ensures Fits(y)
  {
    hide UpInv, RxInv, UnitInv, DownInv, FastN, Late, Fifo.Step, HciBuffer.RepliesBlindly, Busy;
    TakenWithin(y, g, all, k0);
    if g.taken == |all| {
      NothingComes(y, g, all, i);
      NotBlind(y);
    } else {
      LateListens(k0, g.steps);
      NothingInside(y, g, all, k0);
      NeverFull(y.txq, TxInput(y));
      if y.rx.done {
        ReceiveRoom(y, g, all);
      }
    }
  }

  lemma NotBlind(y: System)
    requires y.Valid() && y.rxq.empty
    ensures !HciBuffer.RepliesBlindly(Shown(y).k)
  {
    hide HciBuffer.Blind;
  }

  lemma ReceiveRoom(y: System, g: Trail, all: seq<Byte>)
    requires RxInv(y, g, all) && g.s == []
    ensures !y.rxq.full
  {
    EmptyShows(y.rxq, g.s);
  }

  /** With room to reply the unit moves unless it looks for a byte that is not there. */
  lemma UnitMoves(y: System)
    requires y.Valid() && !y.txq.full
    ensures var moves := Moves(Shown(y).k, Flags(y)); var looks := WaitsForByte(y.m.k);
      moves == (looks ==> !y.rxq.empty) && (Consumes(y) <==> looks && !y.rxq.empty) &&
      |Fifo.Popped(y.rxq, RxInput(y))| == B(looks && !y.rxq.empty)
  {
    SameWaits(y.m.k, Heads(y.rxq));
  }

  /** The receive buffer over a clock in which a byte arrives only if it holds none. */
  lemma BufferCounts(q: Fifo.State<Byte>, s: seq<Byte>, i: Fifo.Input<Byte>)
    requires Fifo.Holds(q, s) && (s != [] ==> !q.empty && !i.write)
    ensures var n := |s| - |Fifo.Popped(q, i)| + |Fifo.Pushed(q, i)|;
      n == |s| - B(i.read && s != []) + B(i.write) && (n > 0 ==> !Fifo.Step(q, i).empty)
  {
    Fifo.PointersCount(q, s);
  }

  lemma RoomyStep(y: System, g: Trail, all: seq<Byte>, k0: Engine, i: Input)
    requires y.Valid() && Inv(y, g, all, k0) && Late(k0) && Roomy(y, g, all)
    ensures Inv(Step(y, i), NextTrail(y, g, i), all, k0) && Roomy(Step(y, i), NextTrail(y, g, i), all)
  {
    hide UpInv, RxInv, UnitInv, DownInv, FastN, Fast, Late, Fifo.Step, Fifo.Holds, Busy, Counting, Away, Steady, NextTrail, NextMachine,
      StepRx, StepTx, Moves, Stuck;
    var h, r := NextTrail(y, g, i), Step(y, i);
    LateFitsNow(y, g, all, k0, i);
    StepKeeps(y, g, all, k0, i);
    TakenWithin(y, g, all, k0);
    TakenWithin(r, h, all, k0);
    WireComes(y.rx, i.upTick, y.hostTx.line);
    assert Fifo.Holds(y.rxq, g.s) by { RxHolds(y, g, all); }
    TrailCounts(y, g, i);
    var e := FastN(k0, g.steps);
    SameBusy(y.m.k, e.rx);
    SameBusy(r.m.k, FastN(k0, h.steps).rx);
    if Moves(Shown(y).k, Flags(y)) {
      MovesOn(y, g, all, k0);
      OneMore(k0, g.steps);
      BusyStep(e);
    }
    if h.taken < |all| {
      LateListens(k0, g.steps);
      NothingInside(y, g, all, k0);
      UnitMoves(y);
      NotAway(y.rx);
      EmptyShows(y.rxq, g.s);
      BufferCounts(y.rxq, g.s, RxInput(y));
      IdleIsNotBusy(y.m.k);
      assert WaitsForByte(e) == WaitsForByte(y.m.k) by { SameWaits(y.m.k, e.rx); }
    }
  }

  lemma NotAway(q: Rx)
    requires Steady(q)
    ensures if q.done then Away(q) == 0 else Away(q) >= 1
  {
  }

  lemma IdleIsNotBusy(k: Engine)
    ensures WaitsForByte(k) ==> Busy(k) == 0
  {
  }

  /** So everything fits over any run. */
  lemma {:induction false} RunFits(y: System, g: Trail, all: seq<Byte>, k0: Engine, ins: seq<Input>)
    requires y.Valid() && Inv(y, g, all, k0) && Late(k0) && Roomy(y, g, all)
    ensures AllFits(y, ins)
    decreases |ins|
  {
    hide Inv, Late, Roomy, Step, NextTrail, Fits;
    if ins == [] {
    } else {
      LateFitsNow(y, g, all, k0, ins[0]);
      RoomyStep(y, g, all, k0, ins[0]);
      RunFits(Step(y, ins[0]), NextTrail(y, g, ins[0]), all, k0, ins[1..]);
    }
  }

  lemma RestRoomy(y: System)
    requires AtRest(y)
    ensures Roomy(y, START, y.unsent)
  {
  }

  /** A unit that does not reply before the host's last byte never makes a buffer refuse one. */
  lemma LateFits(y: System, ins: seq<Input>)
    requires AtRest(y) && Late(Whole(y, y.unsent).k)
    ensures AllFits(y, ins)
  {
    hide Inv, Late, Roomy, AllFits, Whole, AtRest;
    assert y.Valid() by { RestValid(y); }
    RestInv(y);
    RestRoomy(y);
    RunFits(y, START, y.unsent, Whole(y, y.unsent).k, ins);
  }
}
