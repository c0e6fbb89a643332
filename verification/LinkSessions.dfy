/** Sessions over the whole link: what the host may conclude from the bytes it has received, and a ROM loaded
    over the wire. */
module LinkSessions {
  import opened Bytes
  import opened BlockMemory
  import opened Packets
  import opened Hci
  import opened HciFraming
  import opened DebugLink
  import opened LateSessions
  import opened LinkRoom
  import opened LinkPace
  import opened LinkProgress
  import opened Requests
  import opened Conversation
  import DebugPort
  import HciBuffer
  import RomLoad

  /** What has arrived at the host is, at any time, a prefix of the replies of its packets. */
  lemma AnswersInOrder(y: System, ps: seq<Packet>, ins: seq<Input>)
    requires AtRest(y) && y.m.k.ctl.Decode? && Session(ps) && y.unsent == EncodeAll(ps) && AllFits(y, ins)
    ensures DebugLink.Run(y, ins).got <= ResponseAll(WorldOf(y), ps)
  {
    hide DebugLink.Run, FastN, AllFits, EncodeAll, ResponseAll, Session;
    var n := LinkFollows(y, ins);
    HciBuffer.RepliesOfSession(Whole(y, y.unsent).k, ps, n);
    assert [] + ResponseAll(WorldOf(y), ps) == ResponseAll(WorldOf(y), ps);
  }

  /** All replies arrive: the host sends with 178 ticks for each byte, then there are 178 ticks for each reply
      byte and the time of the unit's work; no buffer refuses a byte, and no byte enters a buffer in the clock in
      which its only one leaves. */
  lemma AnswersArrive(y: System, ps: seq<Packet>, a: seq<Input>, b: seq<Input>)
    requires AtRest(y) && y.m.k.ctl.Decode? && Session(ps) && y.unsent == EncodeAll(ps)
    requires AllFits(y, a + b) && AllSmooth(y, a + b) && UpTicks(a) >= 178 * |y.unsent|
    requires DownTicks(b) >= 178 * |ResponseAll(WorldOf(y), ps)| + 2 * WorkAll(ps) + 1
    ensures var r := DebugLink.Run(y, a + b);
      r.got == ResponseAll(WorldOf(y), ps) && r.m.k.w == EffectAll(WorldOf(y), ps) && Settled(r)
  {
    hide DebugLink.Run, FastN, AllFits, AllSmooth, AllVisible, EncodeAll, ResponseAll, EffectAll, Session, WorkAll, Settled;
    var k := Whole(y, y.unsent).k;
    assert EncodeAll(ps) + [] == EncodeAll(ps) && [] + ResponseAll(WorldOf(y), ps) == ResponseAll(WorldOf(y), ps);
    SessionServed(k, ps, []);
    RestVisible(y, a + b);
    LinkDelivers(y, a, b, WorkAll(ps), false);
  }

  /** On the beat of the baud generator, which both directions share, all replies arrive without any condition on the
      signals as long as no memory is read: any echoes, queries and register reads among any other packets. */
  lemma AnswersOnTheBeat(y: System, ps: seq<Packet>, a: seq<Input>, b: seq<Input>)
    requires AtRest(y) && y.m.k.ctl.Decode? && Session(ps) && ReadFree(ps) && y.unsent == EncodeAll(ps)
    requires OnBaud(a + b) && Enough(ps, ResponseAll(WorldOf(y), ps), a, b)
    ensures var r := DebugLink.Run(y, a + b);
      r.got == ResponseAll(WorldOf(y), ps) && r.m.k.w == EffectAll(WorldOf(y), ps) && Settled(r)
  {
    hide DebugLink.Run, EncodeAll, EffectAll, ResponseAll, Session, WorkAll, ReadFree, OnBaud, AtRest, Settled, Enough;
    RequestServed(y, ps, a, b);
  }

  /** One answer arrives whatever the ticks and however the host spaces its bytes: after packets without one, that of
      a memory read, a register read or a halt query. */
  lemma AnswerArrives(y: System, ps: seq<Packet>, p: Packet, a: seq<Input>, b: seq<Input>)
    requires AtRest(y) && LateSession(Whole(y, y.unsent).k, ps, p) && UpTicks(a) >= 178 * |y.unsent|
    requires DownTicks(b) >= 178 * |Response(EffectAll(WorldOf(y), ps), p)| + 2 * (WorkAll(ps) + Work(p)) + 1
    ensures var r := DebugLink.Run(y, a + b);
      r.got == Response(EffectAll(WorldOf(y), ps), p) && r.m.k.w == EffectAll(WorldOf(y), ps)
  {
    hide DebugLink.Run, FastN, AllFits, AllVisible, Late, Gentle, LateSession, Response, EffectAll, WorkAll, Work;
    var k := Whole(y, y.unsent).k;
    assert p.Valid() && Session(ps) by { LateParts(k, ps, p); }
    SessionIsLate(k, ps, p);
    SessionIsGentle(k, ps, p);
    LateVisible(y, a + b);
    SessionEnds(k, ps, p);
    LinkDelivers(y, a, b, WorkAll(ps) + Work(p), false);
  }

  lemma LateParts(k: Engine, ps: seq<Packet>, p: Packet)
    requires LateSession(k, ps, p)
    ensures p.Valid() && Session(ps)
  {
  }

  // ---------------------------------------------------------------------------------------------
  // An answer means that everything before it is done
  // ---------------------------------------------------------------------------------------------

  predicate Asking(c: Ctl) {
    c.EchoHeader? || c.EchoData? || c.CpuRdHeader? || c.CpuRd? || c.PpuRdHeader? || c.PpuRd? || c.RegRd?
  }

  lemma AskingStep(k: Engine)
    requires Asking(k.ctl)
    ensures var f := Fast(k); f.w == k.w && (Asking(f.ctl) || f.ctl.Decode?)
  {
    hide CpuCell, PpuCell, DebugPort.DebugRead, DebugPort.DebugWrite, Add16, ToWord, PpuOffStep, Decoded;
  }

  lemma AskingOpens(k: Engine, p: Packet, rest: seq<Byte>)
    requires k.ctl.Decode? && p.Valid() && Asks(p) && k.rx == Encode(p) + rest
    ensures var f := Fast(k); f.w == k.w && (Asking(f.ctl) || f.ctl.Decode?)
  {
    hide CpuCell, PpuCell, DebugPort.DebugRead, DebugPort.DebugWrite, Add16, ToWord, PpuOffStep, Header;
    assert k.rx[0] == Encode(p)[0];
  }

  lemma {:induction false} AskingRun(k: Engine, n: nat, j: nat)
    requires Asking(k.ctl) && Unbroken(k, n) && j <= n
    ensures FastN(k, j).w == k.w
    decreases j
  {
    hide Fast, Asking;
    if j == 0 {
    } else {
      AskingStep(k);
      if n == 1 {
        OneStep(k);
      } else {
        AskingRun(Fast(k), n - 1, j - 1);
      }
    }
  }

  /** A packet that only asks leaves the world alone at every step, and the end of the session too. */
  lemma AskKeepsWorld(k: Engine, p: Packet, j: nat)
    requires k.ctl.Decode? && p.Valid() && Asks(p) && k.rx == Encode(p)
    ensures FastN(k, j).w == k.w
  {
    hide Fast, FastN, Unbroken, Encode, Work, Asking, Asks, Response;
    var n := Work(p);
    assert k.rx == Encode(p) + [];
    PacketServed(k, p, []);
    AskingOpens(k, p, []);
    assert FastN(k, n).w == k.w && Stuck(FastN(k, n)) by { AskServed(k, FastN(k, n), p); }
    if j >= n {
      FastAdds(k, n, j - n);
      StaysStuck(FastN(k, n), j - n);
    } else if j == 0 {
      NoStep(k);
    } else {
      FirstOf(k, n);
      FastAdds(k, 1, j - 1);
      OneStep(k);
      assert Asking(Fast(k).ctl);
      AskingRun(Fast(k), n - 1, j - 1);
    }
  }

  lemma AskServed(k: Engine, e: Engine, p: Packet)
    requires p.Valid() && Asks(p) && Served(k, e, p, [])
    ensures e.w == k.w && Stuck(e)
  {
    hide Response;
  }

  /** As soon as the host has a byte of the answer to the last packet, all packets before it have had their
      effect on memory, registers and configuration, and nothing else has. */
  lemma AnswerMeansDone(y: System, ps: seq<Packet>, p: Packet, ins: seq<Input>)
    requires AtRest(y) && y.m.k.ctl.Decode? && Session(ps) && Session(ps + [p]) && !EndsRunning(ps) && p.Valid() && Asks(p)
    requires y.unsent == EncodeAll(ps + [p]) && AllFits(y, ins)
    requires |DebugLink.Run(y, ins).got| > |ResponseAll(WorldOf(y), ps)|
    ensures DebugLink.Run(y, ins).m.k.w == EffectAll(WorldOf(y), ps)
  {
    hide DebugLink.Run, FastN, AllFits, EncodeAll, ResponseAll, EffectAll, Session, WorkAll, EndsRunning, Encode, Asks;
    var w, k := WorkAll(ps), Whole(y, y.unsent).k;
    var n := LinkFollows(y, ins);
    EncodeLast(ps, p);
    SessionServed(k, ps, Encode(p));
    assert [] + ResponseAll(WorldOf(y), ps) == ResponseAll(WorldOf(y), ps);
    if n <= w {
      HciBuffer.RepliesSoFar(k, n, w);
      assert false;
    } else {
      FastAdds(k, w, n - w);
      AskKeepsWorld(FastN(k, w), p, n - w);
    }
  }

  // ---------------------------------------------------------------------------------------------
  // Memory written and read back over the wire
  // ---------------------------------------------------------------------------------------------

  predicate Rewrite(y: System, addr: Word, data: seq<Byte>)
    requires |data| < 0x1_0000
  {
    y.m.k.ctl.Decode? &&
    y.unsent == Encode(CpuMemWr(addr, data)) + Encode(CpuMemRd(addr, |data|))
  }

  lemma RewriteIsLate(y: System, addr: Word, data: seq<Byte>)
    requires AtRest(y) && |data| < 0x1_0000 && Rewrite(y, addr, data)
    ensures LateSession(Whole(y, y.unsent).k, [CpuMemWr(addr, data)], CpuMemRd(addr, |data|))
    ensures EffectAll(WorldOf(y), [CpuMemWr(addr, data)]) == WriteCpu(WorldOf(y), addr, data)
    ensures WorkAll([CpuMemWr(addr, data)]) == 5 + |data| && Work(CpuMemRd(addr, |data|)) == 5 + 2 * |data|
  {
    hide Encode, WriteCpu;
    var write, read := CpuMemWr(addr, data), CpuMemRd(addr, |data|);
    var ps := [write];
    assert ps + [read] == [write, read] && [write, read][1..] == [read] && [read][1..] == [] && ps[1..] == [];
    assert Encode(write) + (Encode(read) + []) == Encode(write) + Encode(read);
    assert EncodeAll([read]) == Encode(read) + [];
  }

  /** A block written and read back over the wire, for every tick stream of either direction: given ticks enough
      for the bytes and the unit's work, what the host receives is what it wrote if and only if bytes for
      addresses where nothing is mapped are zero and bytes for addresses of one cell agree. */
  lemma WrittenComesBack(y: System, addr: Word, data: seq<Byte>, a: seq<Input>, b: seq<Input>)
    requires AtRest(y) && |data| < 0x1_0000 && Rewrite(y, addr, data) && Plain(addr, |data|)
    requires UpTicks(a) >= 178 * |y.unsent| && DownTicks(b) >= 178 * |data| + 2 * (10 + 3 * |data|) + 1
    ensures var r := DebugLink.Run(y, a + b);
      |r.got| == |data| && (r.got == data <==> Consistent(WorldOf(y).cfg, addr, data)) &&
      r.m.k.w == WriteCpu(WorldOf(y), addr, data)
  {
    hide DebugLink.Run, LateSession, EncodeAll, EffectAll, WriteCpu, ReadCpu, Consistent, AtRest, WorkAll, Work, Plain, Rewrite;
    RewriteIsLate(y, addr, data);
    var p := CpuMemRd(addr, |data|);
    AnswerArrives(y, [CpuMemWr(addr, data)], p, a, b);
    ReadsBackIf(WorldOf(y), addr, data);
  }

  /** A byte written at 0x5000 comes back as zero. */
  lemma UnmappedComesBackZero(y: System, a: seq<Input>, b: seq<Input>)
    requires AtRest(y) && Rewrite(y, 0x5000, [0xFF])
    requires UpTicks(a) >= 178 * |y.unsent| && DownTicks(b) >= 205
    ensures DebugLink.Run(y, a + b).got == [0]
  {
    hide DebugLink.Run, LateSession, EncodeAll, EffectAll, WriteCpu, ReadCpu, AtRest, WorkAll, Work, Rewrite;
    RewriteIsLate(y, 0x5000, [0xFF]);
    AnswerArrives(y, [CpuMemWr(0x5000, [0xFF])], CpuMemRd(0x5000, 1), a, b);
    UnmappedIsLost(WorldOf(y));
  }

  // ---------------------------------------------------------------------------------------------
  // A ROM loaded over the wire
  // ---------------------------------------------------------------------------------------------

  lemma LoadIsSilent(f: RomLoad.File)
    requires f[4] <= 2 && f[5] <= 1
    ensures Silent(RomLoad.LoadPackets(f)) && EndsRunning(RomLoad.LoadPackets(f)) && Session(RomLoad.LoadPackets(f))
    ensures RomLoad.LoadPackets(f)[0] == DbgHlt
  {
    hide RomLoad.PrgPackets, RomLoad.ChrPackets;
  }

  /** The loader's packets over the wire, to the running or the stopped CPU and after any other traffic, for every
      tick stream: 178 ticks for each byte and then the clocks of the unit's work bring the CPU to run with program
      and character bytes where CPU and PPU read them and PC at the reset vector. */
  lemma {:induction false} RomOverTheWire(y: System, f: RomLoad.File, a: seq<Input>, b: seq<Input>)
    requires AtRest(y) && RomLoad.Accepted(f) && f[4] >= 1 && y.unsent == EncodeAll(RomLoad.LoadPackets(f))
    requires UpTicks(a) >= 178 * |y.unsent| && |b| >= 2 * WorkAll(RomLoad.LoadPackets(f)) + 1
    ensures var r := DebugLink.Run(y, a + b);
      Running(r) && RomLoad.InPlace(WorldOf(r), f) && r.got == [] && Settled(r)
  {
    hide DebugLink.Run, EncodeAll, EffectAll, ResponseAll, WorkAll, RomLoad.LoadPackets, RomLoad.InPlace, Bit, Silent, Session,
      AtRest, Settled;
    var ps := RomLoad.LoadPackets(f);
    LoadIsSilent(f);
    SilentReplies(WorldOf(y), ps);
    RequestServed(y, ps, a, b);
    RomLoad.PacketsLoad(WorldOf(y), f);
  }

  /** The first traffic of the host: an echo that verifies the connection, and then a ROM.  On the beat of
      the baud generator the echo comes back whole, and afterwards the ROM runs. */
  lemma ConnectsAndLoads(y: System, name: seq<Byte>, f: RomLoad.File, x: Exchange, z: Exchange)
    requires Settled(y) && !Running(y) && y.unsent == [] && |name| < 0x1_0000 && RomLoad.Accepted(f) && f[4] >= 1
    requires x.ps == [Echo(name)] && OnBaud(x.a + x.b) && Enough(x.ps, name, x.a, x.b)
    requires z.ps == RomLoad.LoadPackets(f) && Enough(z.ps, [], z.a, z.b)
    ensures Received(y, [x, z]) == [name, []]
    ensures var r := After(y, [x, z]); Running(r) && RomLoad.InPlace(WorldOf(r), f) && Settled(r)
  {
    hide DebugLink.Run, EncodeAll, EffectAll, ResponseAll, WorkAll, RomLoad.LoadPackets, RomLoad.InPlace, Bit, Silent, Exchanged,
      Settled, Enough, OnBaud;
    var w := WorldOf(y);
    SettledValid(y);
    assert ResponseAll(w, [Echo(name)]) == name && EffectAll(w, [Echo(name)]) == w by { EchoMeans(w, name); }
    OneExchange(y, x);
    LoadIsSilent(f);
    SilentReplies(w, z.ps);
    OneExchange(Exchanged(y, x), z);
    RomLoad.PacketsLoad(w, f);
    TwoExchanges(y, x, z);
  }

  lemma OnlyExchange(y: System, x: Exchange)
    requires y.Valid() && Session(x.ps)
    ensures Packed([x]) && Received(y, [x]) == [Exchanged(y, x).got] && After(y, [x]) == Exchanged(y, x)
  {
    hide Exchanged, Session;
    assert [x][1..] == [];
  }

  lemma {:induction false} TwoExchanges(y: System, x: Exchange, z: Exchange)
    requires y.Valid() && Session(x.ps) && Session(z.ps)
    ensures var u := Exchanged(y, x); var r := Exchanged(u, z);
      Packed([x, z]) && Received(y, [x, z]) == [u.got, r.got] && After(y, [x, z]) == r
  {
    hide Exchanged, Session;
    assert [x, z][1..] == [z];
    OnlyExchange(Exchanged(y, x), z);
  }

  lemma EchoMeans(w: World, name: seq<Byte>)
    requires |name| < 0x1_0000
    ensures var ps := [Echo(name)]; Session(ps) && ResponseAll(w, ps) == name && EffectAll(w, ps) == w
  {
    assert [Echo(name)][1..] == [] && name + [] == name;
  }
}
