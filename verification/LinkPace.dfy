/** A memory read at the end of a session fills the transmit buffer faster than it drains, so that the buffer
    always shows what it holds. */
module LinkPace {
  import opened Bytes
  import opened Uart
  import opened Packets
  import opened Hci
  import opened HciFraming
  import opened DebugLink
  import opened LinkRoom
  import opened LinkProgress
  import DebugPort
  import UartLink
  import Fifo

  /** The unit replies only while it reads memory. */
  ghost predicate ReadsOnly(k: Engine) {
    forall n: nat :: FastN(k, n + 1).out != FastN(k, n).out ==> Reading(FastN(k, n))
  }

  predicate Odd(k: Engine) { Reading(k) && k.executeCnt % 2 == 1 }

  /** Early in a frame few bytes may be in the buffer, but one more comes in every second tick. */
  predicate Pace(y: System, g: Trail) {
    (g.t != [] ==> !y.txq.empty) &&
    ((Reading(y.m.k) || y.m.wrEn) && |g.t| <= 2 ==>
       match g.down
       case Between => !y.tx.done
       case Within(pos, _, _, _) => pos <= 2 * (|g.t| + B(y.m.wrEn) - 1) + B(Odd(y.m.k)))
  }

  lemma ReadingStep(k: Engine)
    requires Reading(k)
    ensures var f := Fast(k);
      if Odd(k) then !Odd(f) && |f.out| == |k.out| + 1 else Odd(f) && f.out == k.out
  {
    hide CpuCell, PpuCell, Add16, CpuShown, Decoded, Header, PpuOffStep, DebugPort.DebugRead, DebugPort.DebugWrite;
  }

  /** A read begins with the last byte of its header. */
  lemma ReadingBegins(k: Engine)
    requires !Reading(k) && Reading(Fast(k))
    ensures k.rx != []
  {
    hide CpuCell, PpuCell, Add16, CpuShown, Decoded, Header, DebugPort.DebugRead, DebugPort.DebugWrite;
  }

  /** The way back over one clock. */
  lemma PhaseMoves(y: System, g: Trail, i: Input)
    requires y.Valid() && DownInv(y, g) && Fifo.Holds(y.txq, g.t)
    ensures var h, r := NextTrail(y, g, i), Step(y, i);
      match g.down
      case Between => (h.down.Between? && !r.tx.done) || (h.down.Within? && h.down.pos == 0 && !y.tx.done && g.t != [])
      case Within(pos, _, _, _) =>
        g.t != [] && !y.tx.done && pos < 176 &&
        if pos + B(i.downTick) == 176 then h.down.Between? && r.tx.done else h.down.Within? && h.down.pos == pos + B(i.downTick)
  {
    hide StepRx, Fifo.Step, Fifo.Holds, NextMachine, NextUnit, NextUp, BitsOf, Consumes, ByteOf, UartLink.ViewAt, UartLink.LevelAt,
      Wired, Reduce, OddParity, Shifted;
    if g.down.Within? {
      var b := Wired(g.t)[0];
      UartLink.InFrame(y.tx, b, g.down.pos);
      UartLink.TxMoves(y.tx, i.downTick, if y.txq.empty then None else Some(BitsOf(Fifo.Front(y.txq))), b, g.down.pos);
    }
  }

  /** In a frame the sender is not done. */
  lemma StillTx(y: System, g: Trail)
    requires DownInv(y, g)
    ensures g.down.Within? ==> !y.tx.done
  {
    hide UartLink.ViewAt, UartLink.LevelAt, Wired, Unwired;
    if g.down.Within? {
      UartLink.InFrame(y.tx, Wired(g.t)[0], g.down.pos);
    }
  }

  lemma SentShows(y: System, g: Trail)
    requires DownInv(y, g)
    ensures y.tx.done ==> !y.txq.empty
  {
    hide UartLink.Inv;
  }

  /** The unit over one clock. */
  lemma UnitPaces(y: System, g: Trail, all: seq<Byte>, k0: Engine, i: Input)
    requires y.Valid() && Inv(y, g, all, k0) && Fits(y) && Late(k0) && ReadsOnly(k0)
    ensures var k, r := y.m.k, Step(y, i);
      (r.m.wrEn ==> Odd(k)) &&
      (Reading(k) && !y.txq.full ==> Odd(r.m.k) == !Odd(k) && r.m.wrEn == Odd(k)) &&
      (Reading(r.m.k) && !Reading(k) ==> g.t == [] && !y.m.wrEn)
  {
    hide UpInv, RxInv, UnitInv, DownInv, FastN, Fast, Late, NextTrail, NextMachine, Fits, Stuck, Step, Reading, Odd, Moves;
    var h, r := NextTrail(y, g, i), Step(y, i);
    var e, f := FastN(k0, g.steps), FastN(k0, h.steps);
    StepKeeps(y, g, all, k0, i);
    TakenWithin(y, g, all, k0);
    TakenWithin(r, h, all, k0);
    SameReading(y.m.k, e.rx);
    SameReading(r.m.k, f.rx);
    Accounted(y, g, all, k0);
    Accounted(r, h, all, k0);
    Holding(y, g, all, k0);
    QueueLength(y, g, i);
    TrailCounts(y, g, i);
    OneMore(k0, g.steps);
    if Reading(e) {
      ReadingStep(e);
      ReadingMoves(y);
    }
    if Moves(Shown(y).k, Flags(y)) && Reading(Fast(e)) && !Reading(e) {
      ReadingBegins(e);
      LateListens(k0, g.steps);
      NothingInside(y, g, all, k0);
    }
  }

  lemma SameReading(k: Engine, rx: seq<Byte>)
    ensures Reading(k.(rx := rx)) == Reading(k) && Odd(k.(rx := rx)) == Odd(k)
  {
  }

  lemma ReadingMoves(y: System)
    requires y.Valid() && Reading(y.m.k)
    ensures Moves(Shown(y).k, Flags(y)) <==> !Odd(y.m.k) || !y.txq.full
  {
  }

  lemma PaceStep(y: System, g: Trail, all: seq<Byte>, k0: Engine, i: Input)
    requires y.Valid() && Inv(y, g, all, k0) && Fits(y) && Late(k0) && ReadsOnly(k0) && Pace(y, g)
    ensures Pace(Step(y, i), NextTrail(y, g, i))
  {
    hide UpInv, RxInv, UnitInv, DownInv, FastN, Late, NextTrail, NextMachine, Fits, Step, Reading, Fifo.Holds, Fifo.Step, ReadsOnly,
      Fifo.Ahead;
    var h, r := NextTrail(y, g, i), Step(y, i);
    Holding(y, g, all, k0);
    UnitPaces(y, g, all, k0, i);
    PhaseMoves(y, g, i);
    TrailLengths(y, g, i);
    Accounted(y, g, all, k0);
    QueueLength(y, g, i);
    StepBuffers(y, i);
    FewIsNotFull(y.txq, g.t);
    OddReads(y.m.k);
    OddReads(r.m.k);
    StaysVisible(y.txq, g.t, TxInput(y));
  }

  lemma OddReads(k: Engine)
    ensures Odd(k) ==> Reading(k)
  {
  }

  lemma FewIsNotFull(q: Fifo.State<Byte>, s: seq<Byte>)
    requires Fifo.Holds(q, s)
    ensures (|s| <= 2 ==> !q.full) && (Fifo.Ahead(q) == 1 <==> |s| == 1)
  {
    Fifo.PointersCount(q, s);
  }

  lemma OneIsNotFull(q: Fifo.State<Byte>, s: seq<Byte>, i: Fifo.Input<Byte>)
    requires Fifo.Holds(q, s) && |s| <= 1
    ensures !Fifo.Step(q, i).full
  {
    Fifo.PointersCount(q, s);
  }

  /** One reply at most. */
  ghost predicate Single(k: Engine) { forall n: nat :: |FastN(k, n).out| <= 1 }

  /** A single reply has the buffer to itself. */
  lemma SingleStep(y: System, g: Trail, all: seq<Byte>, k0: Engine, i: Input)
    requires y.Valid() && Inv(y, g, all, k0) && Single(k0) && (g.t != [] ==> !y.txq.empty)
    ensures NextTrail(y, g, i).t != [] ==> !Step(y, i).txq.empty
  {
    hide UpInv, RxInv, UnitInv, DownInv, FastN, NextTrail, NextMachine, Step, Fifo.Holds, Fifo.Step, Fifo.Ahead;
    Holding(y, g, all, k0);
    Accounted(y, g, all, k0);
    TrailLengths(y, g, i);
    QueueLength(y, g, i);
    StepBuffers(y, i);
    FewIsNotFull(y.txq, g.t);
    EmptyShows(y.txq, g.t);
    StaysVisible(y.txq, g.t, TxInput(y));
  }

  /** How the transmit buffer comes to show what it holds. */
  ghost predicate Gentle(k: Engine) { ReadsOnly(k) || Single(k) }

  predicate Showing(y: System, g: Trail, paced: bool) { if paced then Pace(y, g) else g.t != [] ==> !y.txq.empty }

  lemma VisibleNow(y: System, g: Trail, all: seq<Byte>, k0: Engine, paced: bool)
    requires y.Valid() && Inv(y, g, all, k0) && Roomy(y, g, all) && Showing(y, g, paced)
    ensures Visible(y, g)
  {
    hide UpInv, RxInv, UnitInv, DownInv, Busy, Away, Steady;
    TakenWithin(y, g, all, k0);
    if g.taken == |all| {
      NothingComes(y, g, all, Input(false, false, false));
    }
  }

  lemma {:induction false} RunVisible(y: System, g: Trail, all: seq<Byte>, k0: Engine, ins: seq<Input>, paced: bool)
    requires y.Valid() && Inv(y, g, all, k0) && Late(k0) && Roomy(y, g, all) && Showing(y, g, paced)
    requires if paced then ReadsOnly(k0) else Single(k0)
    ensures AllVisible(y, g, ins)
    decreases |ins|
  {
    hide Inv, Late, ReadsOnly, Single, Roomy, Pace, Step, NextTrail, Fits, Visible;
    VisibleNow(y, g, all, k0, paced);
    if ins == [] {
    } else {
      LateFitsNow(y, g, all, k0, ins[0]);
      RoomyStep(y, g, all, k0, ins[0]);
      if paced {
        PaceStep(y, g, all, k0, ins[0]);
      } else {
        SingleStep(y, g, all, k0, ins[0]);
      }
      RunVisible(Step(y, ins[0]), NextTrail(y, g, ins[0]), all, k0, ins[1..], paced);
    }
  }

  lemma RestPaces(y: System)
    requires AtRest(y)
    ensures Pace(y, START)
  {
  }

  /** A session whose replies come after its last byte, and are at most one or all from a memory read, has all it
      needs for its replies to arrive. */
  lemma LateVisible(y: System, ins: seq<Input>)
    requires AtRest(y) && Late(Whole(y, y.unsent).k) && Gentle(Whole(y, y.unsent).k)
    ensures AllFits(y, ins) && AllVisible(y, START, ins)
  {
    hide Inv, Late, ReadsOnly, Single, Roomy, AllFits, AllVisible, Whole, Pace, AtRest;
    var k0 := Whole(y, y.unsent).k;
    assert y.Valid() by { RestValid(y); }
    LateFits(y, ins);
    RestInv(y);
    RestRoomy(y);
    RestPaces(y);
    if ReadsOnly(k0) {
      RunVisible(y, START, y.unsent, k0, ins, true);
    } else {
      RunVisible(y, START, y.unsent, k0, ins, false);
    }
  }
}
