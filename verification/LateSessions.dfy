/** Sessions that are answered at the end only: packets without an answer, and then perhaps one that asks. */
module LateSessions {
  import opened Bytes
  import opened Packets
  import opened Hci
  import opened HciFraming
  import opened DebugLink
  import opened LinkRoom
  import opened LinkPace
  import DebugPort
  import HciBuffer

  predicate Silent(ps: seq<Packet>) { forall i :: 0 <= i < |ps| ==> !Asks(ps[i]) }

  lemma {:induction false} SilentReplies(w: World, ps: seq<Packet>)
    requires Session(ps) && Silent(ps)
    ensures ResponseAll(w, ps) == []
    decreases |ps|
  {
    hide Effect;
    if ps == [] {
    } else {
      forall i | 0 <= i < |ps[1..]|
        ensures !Asks(ps[1..][i])
      {
        assert ps[1..][i] == ps[i + 1];
      }
      assert !Asks(ps[0]);
      SilentReplies(Effect(w, ps[0]), ps[1..]);
    }
  }

  lemma SilentLate(k: Engine, ps: seq<Packet>)
    requires Session(ps) && Silent(ps) && k.ctl.Decode? && k.rx == EncodeAll(ps) && k.out == []
    ensures Late(k) && Single(k)
  {
    hide FastN, EncodeAll, ResponseAll, Session, Silent;
    SilentReplies(k.w, ps);
    forall n: nat
      ensures FastN(k, n).out == []
    {
      HciBuffer.RepliesOfSession(k, ps, n);
    }
  }

  // ---------------------------------------------------------------------------------------------
  // Inside the packet that asks
  // ---------------------------------------------------------------------------------------------

  predicate Reads(p: Packet) { p.CpuMemRd? || p.PpuMemRd? }

  predicate InRead(c: Ctl) { c.CpuRdHeader? || c.PpuRdHeader? || c.CpuRd? || c.PpuRd? }

  lemma InReadStep(k: Engine)
    requires InRead(k.ctl) && !Stuck(k)
    ensures var f := Fast(k); (InRead(f.ctl) || f.ctl.Decode?) && (f.out != k.out ==> Reading(k))
    ensures Reading(k) ==> Fast(k).rx == k.rx && (Reading(Fast(k)) || Fast(k).ctl.Decode?)
  {
    hide CpuCell, PpuCell, DebugPort.DebugRead, DebugPort.DebugWrite, Add16, ToWord, PpuOffStep, Decoded, CpuShown;
  }

  lemma InReadOpens(k: Engine, p: Packet)
    requires k.ctl.Decode? && Reads(p) && p.Valid() && k.rx == Encode(p)
    ensures var f := Fast(k); InRead(f.ctl) && !Reading(f) && f.out == k.out
  {
    hide Pair;
    OpcodeStep(k);
  }

  /** Inside the packet the unit is in its header or in the read. */
  lemma {:induction false} StaysInRead(k: Engine, n: nat, j: nat)
    requires InRead(k.ctl) && Unbroken(k, n) && j < n
    ensures InRead(FastN(k, j).ctl) && Unbroken(FastN(k, j), n - j)
    decreases j
  {
    hide Fast, InRead;
    if j == 0 {
    } else {
      InReadStep(k);
      StaysInRead(Fast(k), n - 1, j - 1);
    }
  }

  /** From inside the read no more bytes are taken. */
  lemma {:induction false} ReadsToEnd(k: Engine, n: nat)
    requires Reading(k) && Unbroken(k, n)
    ensures FastN(k, n).rx == k.rx
    decreases n
  {
    hide Fast, Reading;
    InReadStep(k) by { ReadingIsInRead(k); }
    if n == 1 {
      OneStep(k);
    } else {
      ReadsToEnd(Fast(k), n - 1);
    }
  }

  lemma ReadingIsInRead(k: Engine)
    ensures Reading(k) ==> InRead(k.ctl)
  {
  }

  lemma FirstOf(k: Engine, n: nat)
    requires Unbroken(k, n) && n > 1
    ensures Unbroken(Fast(k), n - 1) && !Between(Fast(k))
  {
    hide Fast;
  }

  lemma ReadServed(k: Engine, e: Engine, p: Packet)
    requires p.Valid() && Reads(p) && Served(k, e, p, [])
    ensures e.rx == [] && Stuck(e)
  {
    hide Response;
  }

  lemma ReadWork(p: Packet)
    requires Reads(p)
    ensures Work(p) > 1
  {
  }

  /** The unit replies to a memory read only while it reads, and then it has taken the whole packet. */
  lemma ReadSpeaks(k: Engine, p: Packet, j: nat)
    requires k.ctl.Decode? && p.Valid() && Reads(p) && k.rx == Encode(p)
    ensures var e := FastN(k, j); FastN(k, j + 1).out != e.out ==> Reading(e) && e.rx == []
  {
    hide Fast, FastN, Unbroken, Encode, Work, Reads, Response, InRead, Reading, Stuck, Served;
    var n, e := Work(p), FastN(k, j);
    assert k.rx == Encode(p) + [];
    PacketServed(k, p, []);
    ReadServed(k, FastN(k, n), p);
    ReadWork(p);
    OneMore(k, j);
    if j == 0 {
      assert e == k by { NoStep(k); }
      InReadOpens(k, p);
    } else if j < n {
      FirstOf(k, n);
      InReadOpens(k, p);
      FastAdds(k, 1, j - 1);
      OneStep(k);
      StaysInRead(Fast(k), n - 1, j - 1);
      InReadStep(e) by { NotStuck(e, n - j); }
      if Reading(e) {
        ReadsToEnd(e, n - j);
        FastAdds(k, j, n - j);
      }
    } else {
      FastAdds(k, n, j - n);
      StaysStuck(FastN(k, n), j - n);
      StuckStays(e);
    }
  }

  lemma NoStep(k: Engine)
    ensures FastN(k, 0) == k
  {
  }

  lemma NotStuck(k: Engine, n: nat)
    requires Unbroken(k, n)
    ensures !Stuck(k)
  {
  }

  lemma StuckStays(k: Engine)
    requires Stuck(k)
    ensures Fast(k) == k
  {
  }

  /** Bytes taken do not come back. */
  lemma FastRx(k: Engine)
    ensures k.rx == [] ==> Fast(k).rx == []
  {
    hide Advance, CpuRead, PpuRead;
    if k.rx == [] && !WaitsForByte(k) {
      AdvanceRx(k, k.rx, 0, CpuRead(k.w, k.addr), PpuRead(k.w, k.addr));
    }
  }

  /** So there is no reply before the packet's last byte. */
  lemma {:induction false} ReadLate(k: Engine, p: Packet, j: nat)
    requires k.ctl.Decode? && p.Valid() && Reads(p) && k.rx == Encode(p)
    ensures FastN(k, j).rx != [] ==> FastN(k, j).out == k.out
    decreases j
  {
    hide Fast, FastN, Encode, Reads, Reading;
    if j == 0 {
      NoStep(k);
    } else {
      ReadLate(k, p, j - 1);
      OneMore(k, j - 1);
      FastRx(FastN(k, j - 1));
      ReadSpeaks(k, p, j - 1);
    }
  }

  /** Register reads and halt queries have one reply, with their last byte. */
  lemma ShortLate(k: Engine, p: Packet, j: nat)
    requires k.ctl.Decode? && p.Valid() && (p.CpuRegRd? || p.QueryHlt?) && k.rx == Encode(p)
    ensures FastN(k, j).rx != [] ==> FastN(k, j).out == k.out
    ensures |FastN(k, j).out| <= |k.out| + 1
  {
    hide Fast, FastN, Unbroken, Encode, DebugPort.DebugRead;
    var n := Work(p);
    assert k.rx == Encode(p) + [];
    PacketServed(k, p, []);
    assert Stuck(FastN(k, n)) && |FastN(k, n).out| == |k.out| + 1 && FastN(k, n).rx == [];
    if j >= n {
      FastAdds(k, n, j - n);
      StaysStuck(FastN(k, n), j - n);
    } else if j == 0 {
      NoStep(k);
    } else {
      OneStep(k);
      RegisterOpens(k, p);
    }
  }

  lemma RegisterOpens(k: Engine, p: Packet)
    requires k.ctl.Decode? && p.CpuRegRd? && p.Valid() && k.rx == Encode(p)
    ensures Fast(k).out == k.out
  {
    OpcodeStep(k);
  }

  // ---------------------------------------------------------------------------------------------
  // The whole session
  // ---------------------------------------------------------------------------------------------

  lemma EncodeLast(ps: seq<Packet>, p: Packet)
    requires Session(ps + [p]) && Session(ps) && p.Valid()
    ensures Session([p]) && EncodeAll(ps + [p]) == EncodeAll(ps) + Encode(p)
  {
    hide Encode;
    EncodeAdds(ps, [p]);
    assert [p][1..] == [];
  }

  /** Packets with an answer that comes with or after their last byte. */
  predicate AnswersLast(p: Packet) { Reads(p) || p.CpuRegRd? || p.QueryHlt? }

  /** Packets without an answer and then one that asks. */
  predicate LateSession(k: Engine, ps: seq<Packet>, p: Packet) {
    Session(ps) && Session(ps + [p]) && Silent(ps) && !EndsRunning(ps) && p.Valid() && AnswersLast(p) &&
    k.ctl.Decode? && k.rx == EncodeAll(ps + [p]) && k.out == []
  }

  /** The point where the last packet begins. */
  lemma LastBegins(k: Engine, ps: seq<Packet>, p: Packet)
    requires LateSession(k, ps, p)
    ensures var e := FastN(k, WorkAll(ps));
      e.ctl.Decode? && e.rx == Encode(p) && e.out == [] && e.w == EffectAll(k.w, ps)
  {
    hide FastN, EncodeAll, ResponseAll, EffectAll, WorkAll, Session, Silent, Encode, EndsRunning, AnswersLast;
    EncodeLast(ps, p);
    SessionServed(k, ps, Encode(p));
    SilentReplies(k.w, ps);
    assert [] + ResponseAll(k.w, ps) == [];
  }

  lemma BeforeLast(k: Engine, ps: seq<Packet>, p: Packet, n: nat)
    requires LateSession(k, ps, p)
    ensures n <= WorkAll(ps) ==> FastN(k, n).out == []
    ensures n >= WorkAll(ps) ==> FastN(k, n) == FastN(FastN(k, WorkAll(ps)), n - WorkAll(ps))
  {
    hide FastN, LateSession, WorkAll;
    LastBegins(k, ps, p);
    if n <= WorkAll(ps) {
      HciBuffer.RepliesSoFar(k, n, WorkAll(ps));
    } else {
      FastAdds(k, WorkAll(ps), n - WorkAll(ps));
    }
    if n == WorkAll(ps) {
      NoStep(FastN(k, n));
    }
  }

  lemma SessionIsLate(k: Engine, ps: seq<Packet>, p: Packet)
    requires LateSession(k, ps, p)
    ensures Late(k)
  {
    hide FastN, WorkAll, EffectAll, Encode, EncodeAll, Silent, Session;
    var w := WorkAll(ps);
    LastBegins(k, ps, p);
    forall n: nat | FastN(k, n).rx != []
      ensures FastN(k, n).out == []
    {
      BeforeLast(k, ps, p, n);
      if n > w {
        if Reads(p) {
          ReadLate(FastN(k, w), p, n - w);
        } else {
          ShortLate(FastN(k, w), p, n - w);
        }
      }
    }
  }

  lemma SessionIsGentle(k: Engine, ps: seq<Packet>, p: Packet)
    requires LateSession(k, ps, p)
    ensures Gentle(k)
  {
    hide FastN, WorkAll, EffectAll, Encode, EncodeAll, Silent, Session, Reading;
    var w := WorkAll(ps);
    LastBegins(k, ps, p);
    forall n: nat
      ensures Reads(p) && FastN(k, n + 1).out != FastN(k, n).out ==> Reading(FastN(k, n))
      ensures !Reads(p) ==> |FastN(k, n).out| <= 1
    {
      BeforeLast(k, ps, p, n);
      BeforeLast(k, ps, p, n + 1);
      if n >= w {
        if Reads(p) {
          ReadSpeaks(FastN(k, w), p, n - w);
        } else {
          ShortLate(FastN(k, w), p, n - w);
        }
      }
    }
    assert Reads(p) ==> ReadsOnly(k);
    assert !Reads(p) ==> Single(k);
  }

  /** Where the session ends. */
  lemma SessionEnds(k: Engine, ps: seq<Packet>, p: Packet)
    requires LateSession(k, ps, p)
    ensures var e := FastN(k, WorkAll(ps) + Work(p));
      Stuck(e) && e.w == EffectAll(k.w, ps) && e.out == Response(EffectAll(k.w, ps), p)
  {
    hide FastN, Unbroken, WorkAll, EffectAll, Encode, EncodeAll, Work, Silent, Session, Response;
    var w := WorkAll(ps);
    LastBegins(k, ps, p);
    var e := FastN(k, w);
    assert e.rx == Encode(p) + [];
    PacketServed(e, p, []);
    FastAdds(k, w, Work(p));
    assert [] + Response(e.w, p) == Response(e.w, p);
  }
}
