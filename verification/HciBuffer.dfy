/** The debug unit with its transmit buffer: replies reach the buffer one clock late and the buffer's flag is
    a clock old, yet no byte of a memory or register read is offered while the buffer is full. */
module HciBuffer {
  import opened Bytes
  import opened CpuCore
  import opened DebugPort
  import opened Hci
  import opened HciFraming
  import opened Packets
  import Fifo

  datatype Port = Port(m: Machine, q: Fifo.State<Byte>, drained: seq<Byte>)
  {
    predicate Valid() { m.Valid() && q.Valid() }
  }

  /** drain is the serial transmitter taking the front byte. */
  datatype Tick = Tick(available: bool, drain: bool)

  function BufferInput(p: Port, t: Tick): Fifo.Input<Byte> { Fifo.Input(t.drain, p.m.wrEn, p.m.txData) }

  function Step(p: Port, t: Tick): (r: Port)
    requires p.Valid()
    ensures r.Valid()
  {
    Port(Clock(p.m, Clk(t.available, !p.q.full)), Fifo.Step(p.q, BufferInput(p, t)),
         p.drained + Fifo.Popped(p.q, BufferInput(p, t)))
  }

  /** The replies that do not look at the flag: echo, and the answer to a halt query. */
  predicate Blind(c: Ctl, b: Byte) { c.EchoData? || ((c.Decode? || c.Disabled?) && b == 0x07) }

  predicate RepliesBlindly(k: Engine) { k.rx != [] && Blind(k.ctl, k.rx[0]) }

  function InFlight(m: Machine): seq<Byte> { if m.wrEn then [m.txData] else [] }

  /** Every byte handed over has been drained, is in the buffer, or is on its way into it and will be
      accepted. */
  ghost predicate Inv(p: Port, s: seq<Byte>) {
    p.Valid() && Fifo.Holds(p.q, s) && (p.m.wrEn ==> !p.q.full && !WaitsForRoom(p.m.k)) &&
    p.drained + s + InFlight(p.m) == p.m.k.out
  }

  /** What one step adds to the replies. */
  predicate Adds(k: Engine, b: Byte, a: Engine) {
    a.out == k.out ||
    (|a.out| == |k.out| + 1 && a.out == k.out + [a.out[|k.out|]] && !WaitsForRoom(a) && (WaitsForRoom(k) || Blind(k.ctl, b)))
  }

  /** A step hands over at most one byte, and right after it does not wait for room. */
  lemma AdvanceReplies(k: Engine, b: Byte, cpuData: Byte, ppuData: Byte)
    ensures Adds(k, b, Advance(k, b, cpuData, ppuData))
  {
    hide DebugRead, DebugWrite, CpuCell, PpuCell, ToWord, PpuOffStep, Add16, Header, Decoded;
    match k.ctl {
      case Decode => DecodedReplies(k.(decodeCnt := 0), b);
      case CpuRdHeader => HeaderReplies(k, b, CpuRd, 2);
      case PpuRdHeader => HeaderReplies(k, b, PpuRd, 2);
      case CpuWrHeader => HeaderReplies(k, b, CpuWr, 1);
      case PpuWrHeader => HeaderReplies(k, b, PpuWr, 1);
      case PpuOff => OffReplies(k);
      case _ =>
    }
  }

  lemma DecodedReplies(k: Engine, op: Byte)
    requires k.ctl.Decode?
    ensures Adds(k, op, Decoded(k, op))
  {
  }

  lemma HeaderReplies(k: Engine, b: Byte, next: Ctl, perByte: nat)
    ensures Header(k, b, next, perByte).out == k.out
  {
    hide ToWord;
  }

  lemma OffReplies(k: Engine)
    ensures PpuOffStep(k).out == k.out
  {
    hide CpuCell;
  }

  lemma ClockReplies(m: Machine, c: Clk)
    requires m.Valid()
    ensures var r := Clock(m, c);
      r.k.out == m.k.out + InFlight(r) &&
      (r.wrEn ==> Moves(m.k, c) && !WaitsForRoom(r.k) && (WaitsForRoom(m.k) || RepliesBlindly(m.k)))
  {
    hide Advance, CpuCell, PpuCell, WaitsForRoom, WaitsForByte, Blind;
    var w := m.k.w;
    var k, b := if WaitsForByte(m.k) && m.k.rx != [] then m.k.(rx := m.k.rx[1..]) else m.k,
      if WaitsForByte(m.k) && m.k.rx != [] then m.k.rx[0] else 0;
    AdvanceReplies(k, b, CpuShown(w, m.cpuLatch, m.k.addr), w.ppu[m.ppuLatch]);
    SameRoom(m.k, k);
    if !WaitsForByte(m.k) {
      NotBlind(m.k, b);
    }
  }

  lemma SameRoom(k: Engine, e: Engine)
    requires e == k.(rx := e.rx)
    ensures WaitsForRoom(e) == WaitsForRoom(k)
  {
  }

  lemma NotBlind(k: Engine, b: Byte)
    requires !WaitsForByte(k)
    ensures !Blind(k.ctl, b)
  {
  }

  /** A reply that does not look at the flag is handed over in this clock only if the buffer will not claim to
      be full in the next. */
  predicate Heard(p: Port, t: Tick)
    requires p.Valid()
  {
    RepliesBlindly(p.m.k) && t.available ==> !Fifo.Step(p.q, BufferInput(p, t)).full
  }

  /** One clock.  All bytes stay accounted for if and only if a blind reply finds room. */
  lemma StepKeeps(p: Port, s: seq<Byte>, t: Tick)
    requires Inv(p, s)
    ensures var i := BufferInput(p, t);
      Inv(Step(p, t), s[|Fifo.Popped(p.q, i)|..] + Fifo.Pushed(p.q, i)) <==> Heard(p, t)
  {
    hide Fifo.Holds, Fifo.Step, Clock, Fifo.Cautious, WaitsForRoom, RepliesBlindly, Moves;
    var i := BufferInput(p, t);
    var c := Clk(t.available, !p.q.full);
    Fifo.StepHolds(p.q, s, i);
    ClockReplies(p.m, c);
    var d := Fifo.Popped(p.q, i);
    assert s == d + s[|d|..];
    assert Fifo.Pushed(p.q, i) == InFlight(p.m);
    assert p.drained + d + (s[|d|..] + Fifo.Pushed(p.q, i)) == p.drained + s + InFlight(p.m);
    if Step(p, t).m.wrEn {
      RoomNext(p, s, t);
    }
    if RepliesBlindly(p.m.k) && t.available {
      BlindReplies(p.m, c);
    }
  }

  lemma RoomNext(p: Port, s: seq<Byte>, t: Tick)
    requires Inv(p, s) && Moves(p.m.k, Clk(t.available, !p.q.full)) && (WaitsForRoom(p.m.k) || RepliesBlindly(p.m.k))
    ensures RepliesBlindly(p.m.k) ==> t.available
    ensures !RepliesBlindly(p.m.k) ==> !Fifo.Step(p.q, BufferInput(p, t)).full
  {
    hide Clock;
    Fifo.PointersCount(p.q, s);
  }

  /** A blind reply is handed over as soon as its byte is there. */
  lemma BlindReplies(m: Machine, c: Clk)
    requires m.Valid() && RepliesBlindly(m.k) && c.available
    ensures Clock(m, c).wrEn
  {
    hide CpuCell, PpuCell, DebugRead, DebugWrite, Header, PpuOffStep, CountDown;
    assert CountDown(m.k.(rx := m.k.rx[1..])).out == m.k.out by { CountDownReplies(m.k.(rx := m.k.rx[1..])); }
  }

  lemma CountDownReplies(k: Engine)
    ensures CountDown(k).out == k.out
  {
  }

  /** What happens otherwise: the reply is offered to a buffer that does not take it. */
  lemma UnheardIsLost(p: Port, s: seq<Byte>, t: Tick, u: Tick)
    requires Inv(p, s) && !Heard(p, t)
    ensures var r := Step(p, t); InFlight(r.m) != [] && Fifo.Pushed(r.q, BufferInput(r, u)) == []
  {
    hide Clock, RepliesBlindly, Fifo.Step;
    BlindReplies(p.m, Clk(t.available, !p.q.full));
  }

  /** Three free places are enough for a blind reply. */
  lemma ThreePlacesAreEnough(p: Port, s: seq<Byte>, t: Tick)
    requires Inv(p, s) && |s| + 3 <= |p.q.data|
    ensures Heard(p, t)
  {
    hide RepliesBlindly;
    Fifo.PointersCount(p.q, s);
  }

  // ---------------------------------------------------------------------------------------------
  // Whole runs
  // ---------------------------------------------------------------------------------------------

  function Run(p: Port, ts: seq<Tick>): (r: Port)
    requires p.Valid()
    ensures r.Valid()
    decreases |ts|
  {
    if ts == [] then p else Run(Step(p, ts[0]), ts[1..])
  }

  /** Every blind reply of the run finds room. */
  predicate Roomy(p: Port, ts: seq<Tick>)
    requires p.Valid()
    decreases |ts|
  {
    ts == [] || (Heard(p, ts[0]) && Roomy(Step(p, ts[0]), ts[1..]))
  }

  /** Whatever the drain does, at every moment the bytes handed over are those drained, those in the buffer and
      the one on its way, in order: none was offered to a full buffer. */
  lemma {:induction false} NoReplyLost(p: Port, s: seq<Byte>, ts: seq<Tick>) returns (s': seq<Byte>)
    requires Inv(p, s) && Roomy(p, ts)
    ensures Inv(Run(p, ts), s')
    decreases |ts|
  {
    hide Inv, Step, Heard;
    assert p.Valid() by { OfInv(p, s); }
    if ts == [] {
      s' := s;
    } else {
      var i := BufferInput(p, ts[0]);
      PoppedFits(p, s, ts[0]);
      StepKeeps(p, s, ts[0]);
      s' := NoReplyLost(Step(p, ts[0]), s[|Fifo.Popped(p.q, i)|..] + Fifo.Pushed(p.q, i), ts[1..]);
    }
  }

  lemma PoppedFits(p: Port, s: seq<Byte>, t: Tick)
    requires Inv(p, s)
    ensures |Fifo.Popped(p.q, BufferInput(p, t))| <= |s|
  {
    Fifo.StepHolds(p.q, s, BufferInput(p, t));
  }

  lemma OfInv(p: Port, s: seq<Byte>)
    requires Inv(p, s)
    ensures p.Valid() && p.drained + s + InFlight(p.m) == p.m.k.out
  {
  }

  /** The clocks the unit sees. */
  function Flags(p: Port, ts: seq<Tick>): seq<Clk>
    requires p.Valid()
    decreases |ts|
  {
    if ts == [] then [] else [Clk(ts[0].available, !p.q.full)] + Flags(Step(p, ts[0]), ts[1..])
  }

  lemma {:induction false} EngineRuns(p: Port, ts: seq<Tick>)
    requires p.Valid()
    ensures Run(p, ts).m == HciFraming.Run(p.m, Flags(p, ts))
    decreases |ts|
  {
    hide Clock, Fifo.Step;
    if ts == [] {
    } else {
      EngineRuns(Step(p, ts[0]), ts[1..]);
      assert Flags(p, ts)[1..] == Flags(Step(p, ts[0]), ts[1..]);
    }
  }

  lemma FastReplies(k: Engine)
    ensures k.out <= Fast(k).out
  {
    hide Advance;
    if !Stuck(k) {
      var e, b := if WaitsForByte(k) then k.(rx := k.rx[1..]) else k, if WaitsForByte(k) then k.rx[0] else 0;
      AdvanceReplies(e, b, CpuRead(k.w, k.addr), PpuRead(k.w, k.addr));
    }
  }

  /** Replies are only ever added. */
  lemma {:induction false} RepliesGrow(k: Engine, n: nat)
    ensures k.out <= FastN(k, n).out
    decreases n
  {
    hide Fast;
    if n == 0 {
    } else {
      FastReplies(k);
      RepliesGrow(Fast(k), n - 1);
    }
  }

  lemma RepliesSoFar(k: Engine, j: nat, n: nat)
    requires j <= n
    ensures FastN(k, j).out <= FastN(k, n).out
  {
    hide FastN;
    FastAdds(k, j, n - j);
    RepliesGrow(FastN(k, j), n - j);
  }

  // ---------------------------------------------------------------------------------------------
  // Memory reads
  // ---------------------------------------------------------------------------------------------

  /** The whole run lies inside one read. */
  predicate WithinRead(m: Machine, cs: seq<Clk>)
    requires m.Valid()
    decreases |cs|
  {
    cs == [] || (Reading(m.k) && WithinRead(Clock(m, cs[0]), cs[1..]))
  }

  /** What a read of n bytes from the current address gives. */
  function ReadOf(k: Engine, n: nat): seq<Byte> {
    if k.ctl.CpuRd? then ReadCpu(k.w, k.addr, n) else ReadPpu(k.w, k.addr, n)
  }

  /** Inside a read no more steps are taken than it has left. */
  lemma {:induction false} StepsLeft(m: Machine, cs: seq<Clk>) returns (j: nat)
    requires m.Valid() && LatchReady(m) && Reading(m.k) && 0 < m.k.executeCnt < 0x2_0000 && WithinRead(m, cs)
    ensures j <= m.k.executeCnt && HciFraming.Run(m, cs).k == FastN(m.k, j)
    decreases |cs|
  {
    hide Clock, LatchReady, Moves, Fast;
    if cs == [] {
      j := 0;
    } else {
      ClockIsFast(m, cs[0]);
      var m' := Clock(m, cs[0]);
      if !Moves(m.k, cs[0]) {
        j := StepsLeft(m', cs[1..]);
      } else {
        ReadStep(m.k);
        if m.k.executeCnt > 1 {
          j := StepsLeft(m', cs[1..]);
        } else {
          assert cs[1..] == [];
          j := 0;
        }
        j := j + 1;
      }
    }
  }

  /** Until the last step the unit is not between packets. */
  lemma {:induction false} NotBefore(k: Engine, n: nat, j: nat)
    requires Unbroken(k, n) && !Between(k) && j <= n && Between(FastN(k, j))
    ensures j == n
    decreases j
  {
    hide Fast, Between;
    if j > 0 && n > 1 {
      NotBefore(Fast(k), n - 1, j - 1);
    }
  }

  /** A read of n bytes of CPU or PPU memory hands over exactly the n bytes from consecutive addresses, and
      however slowly the buffer drains each of them gets into it in order; whatever else the host has sent. */
  lemma ReadsDeliver(p: Port, s: seq<Byte>, n: nat, ts: seq<Tick>) returns (s': seq<Byte>)
    requires Inv(p, s) && Reading(p.m.k) && 0 < n < 0x1_0000 && p.m.k.executeCnt == 2 * n
    requires LatchReady(p.m) && WithinRead(p.m, Flags(p, ts))
    ensures var r := Run(p, ts); var handed, reply := r.drained + s' + InFlight(r.m), p.m.k.out + ReadOf(p.m.k, n);
      Inv(r, s') && handed <= reply && (r.m.k.ctl.Decode? ==> handed == reply)
  {
    hide Inv, Run, Step, HciFraming.Run, ReadCpu, ReadPpu, Fast, FastN, Unbroken, Roomy, Flags, LatchReady;
    assert p.Valid() by { OfInv(p, s); }
    ReadsAreRoomy(p, ts);
    s' := NoReplyLost(p, s, ts);
    OfInv(Run(p, ts), s');
    EngineRuns(p, ts);
    var j := StepsLeft(p.m, Flags(p, ts));
    if p.m.k.ctl.CpuRd? {
      CpuReads(p.m.k, n);
    } else {
      PpuReads(p.m.k, n);
    }
    RepliesSoFar(p.m.k, j, 2 * n);
    if Run(p, ts).m.k.ctl.Decode? {
      NotBefore(p.m.k, 2 * n, j);
    }
  }

  /** A read does not reply blindly. */
  lemma {:induction false} ReadsAreRoomy(p: Port, ts: seq<Tick>)
    requires p.Valid() && WithinRead(p.m, Flags(p, ts))
    ensures Roomy(p, ts)
    decreases |ts|
  {
    hide Clock, Fifo.Step;
    if ts == [] {
    } else {
      assert Flags(p, ts)[1..] == Flags(Step(p, ts[0]), ts[1..]);
      ReadsAreRoomy(Step(p, ts[0]), ts[1..]);
    }
  }

  // ---------------------------------------------------------------------------------------------
  // Whole sessions
  // ---------------------------------------------------------------------------------------------

  /** Over any session with any gaps and any drain, as long as blind replies find room: what has been drained,
      is in the buffer and is on its way is a prefix of the replies of the packets, and all of it once the unit
      waits for a byte with nothing more to come. */
  lemma SessionDelivers(p: Port, s: seq<Byte>, ps: seq<Packet>, ts: seq<Tick>) returns (s': seq<Byte>)
    requires Inv(p, s) && Roomy(p, ts) && Session(ps) && p.m.k.ctl.Decode? && p.m.k.rx == EncodeAll(ps)
    ensures var r := Run(p, ts);
      var handed, replies := r.drained + s' + InFlight(r.m), p.m.k.out + ResponseAll(p.m.k.w, ps);
      Inv(r, s') && handed <= replies && (Stuck(r.m.k) ==> handed == replies)
  {
    hide Inv, Run, Step, HciFraming.Run, ResponseAll, EncodeAll, EffectAll, Fast, FastN, Flags, Roomy, Session;
    assert p.Valid() by { OfInv(p, s); }
    s' := NoReplyLost(p, s, ts);
    OfInv(Run(p, ts), s');
    EngineRuns(p, ts);
    var j := GapsDoNotMatter(p.m, Flags(p, ts));
    RepliesOfSession(p.m.k, ps, j);
  }

  /** After any number of steps into a session. */
  lemma RepliesOfSession(k: Engine, ps: seq<Packet>, j: nat)
    requires Session(ps) && k.ctl.Decode? && k.rx == EncodeAll(ps)
    ensures var e, replies := FastN(k, j), k.out + ResponseAll(k.w, ps);
      e.out <= replies && (Stuck(e) ==> e.out == replies)
    ensures j >= WorkAll(ps) ==> FastN(k, j) == FastN(k, WorkAll(ps))
  {
    hide ResponseAll, EncodeAll, EffectAll, Fast, FastN, Session;
    var n := WorkAll(ps);
    assert EncodeAll(ps) + [] == EncodeAll(ps);
    SessionServed(k, ps, []);
    if j <= n {
      RepliesSoFar(k, j, n);
      if Stuck(FastN(k, j)) {
        FastAdds(k, j, n - j);
        StaysStuck(FastN(k, j), n - j);
      }
    } else {
      FastAdds(k, n, j - n);
      StaysStuck(FastN(k, n), j - n);
    }
  }
}
