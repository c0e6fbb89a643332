/** What the debug unit makes of the packets of one request, with the CPU running or stopped, and which requests
    are answered without straining the buffers. */
module Requests {
  import opened Bytes
  import opened Packets
  import opened Hci
  import opened HciFraming
  import opened DebugLink
  import opened LinkRoom
  import opened LinkPace
  import opened LateSessions
  import opened BaudLink
  import DebugPort

  /** While the CPU runs the unit listens for a halt packet and for halt queries only. */
  predicate Heard(running: bool, ps: seq<Packet>) {
    Session(ps) && (running ==> ps == [] || ps == [QueryHlt] || ps[0].DbgHlt?)
  }

  function Answer(running: bool, w: World, ps: seq<Packet>): seq<Byte>
    requires Heard(running, ps)
  {
    if running && ps == [QueryHlt] then [0] else ResponseAll(w, ps)
  }

  /** Whether the CPU runs afterwards. */
  predicate Runs(running: bool, ps: seq<Packet>) { if running && (ps == [] || ps == [QueryHlt]) then true else EndsRunning(ps) }

  /** All packets but the last are without an answer. */
  predicate AnsweredLast(ps: seq<Packet>) {
    Silent(ps) || (ps != [] && Silent(ps[..|ps| - 1]) && AnswersLast(ps[|ps| - 1]))
  }

  /** No memory is read. */
  predicate ReadFree(ps: seq<Packet>) { forall i :: 0 <= i < |ps| ==> !Reads(ps[i]) }

  /** The unit at the beginning of a request. */
  predicate Asked(running: bool, k: Engine, ps: seq<Packet>) {
    Heard(running, ps) && k.rx == EncodeAll(ps) && k.out == [] && k.ctl == if running then Disabled else Decode
  }

  // ---------------------------------------------------------------------------------------------
  // Where a request ends
  // ---------------------------------------------------------------------------------------------

  /** n more steps behind the first one. */
  lemma Behind(k: Engine, n: nat)
    ensures FastN(k, 0) == k && FastN(k, n + 1) == FastN(Fast(k), n)
  {
    hide Fast;
  }

  lemma RequestEnds(running: bool, k: Engine, ps: seq<Packet>)
    requires Asked(running, k, ps)
    ensures var end := FastN(k, WorkAll(ps));
      Stuck(end) && end.ctl == (if Runs(running, ps) then Disabled else Decode) && end.out == Answer(running, k.w, ps) &&
      end.w == EffectAll(k.w, ps)
  {
    hide FastN, Fast, EncodeAll, EffectAll, ResponseAll, WorkAll, Session;
    assert EncodeAll(ps) + [] == EncodeAll(ps);
    if !running {
      SessionServed(k, ps, []);
      assert [] + ResponseAll(k.w, ps) == ResponseAll(k.w, ps);
    } else if ps == [] {
      NothingAsked(k);
    } else if ps == [QueryHlt] {
      QueryRunning(k);
    } else {
      HaltStep(k, ps);
      var qs := ps[1..];
      assert EncodeAll(qs) + [] == EncodeAll(qs) && [] + ResponseAll(k.w, qs) == ResponseAll(k.w, qs);
      SessionServed(Fast(k), qs, []);
      Behind(k, WorkAll(qs));
    }
  }

  lemma NothingAsked(k: Engine)
    requires k.rx == EncodeAll([]) && k.ctl.Disabled?
    ensures FastN(k, WorkAll([])) == k && Stuck(k) && EffectAll(k.w, []) == k.w && ResponseAll(k.w, []) == []
  {
  }

  /** A halt query to the unit of a running CPU. */
  lemma QueryRunning(k: Engine)
    requires k.ctl.Disabled? && k.rx == EncodeAll([QueryHlt])
    ensures var e := Fast(k); e == k.(rx := [], out := k.out + [0]) && Stuck(e) && FastN(k, WorkAll([QueryHlt])) == e
    ensures EffectAll(k.w, [QueryHlt]) == k.w && WorkAll([QueryHlt]) == 1
  {
    assert [QueryHlt][1..] == [];
    assert k.rx == [0x07];
    assert WorkAll([QueryHlt]) == 1;
    OneStep(k);
  }

  // ---------------------------------------------------------------------------------------------
  // Requests that are answered at the end only
  // ---------------------------------------------------------------------------------------------

  /** What holds from the first step on, if that step is silent. */
  lemma FromFirst(k: Engine)
    requires k.out == [] && Fast(k).out == [] && !Reading(k)
    ensures (Late(Fast(k)) ==> Late(k)) && (Gentle(Fast(k)) ==> Gentle(k)) && (Brisk(Fast(k)) ==> Brisk(k))
  {
    hide Fast, FastN, Reading;
    forall n: nat
      ensures FastN(k, n) == if n == 0 then k else FastN(Fast(k), n - 1)
    {
      Behind(k, if n == 0 then 0 else n - 1);
    }
    NoStep(Fast(k));
    assert ReadsOnly(Fast(k)) ==> ReadsOnly(k);
    assert Single(Fast(k)) ==> Single(k);
  }

  lemma LastOf(ps: seq<Packet>)
    requires AnsweredLast(ps) && !Silent(ps) && Session(ps)
    ensures var n := |ps| - 1;
      n >= 0 && ps[..n] + [ps[n]] == ps && Session(ps[..n]) && Silent(ps[..n]) && !EndsRunning(ps[..n]) && ps[n].Valid() &&
      AnswersLast(ps[n])
  {
    hide AnswersLast;
  }

  lemma LastShows(k: Engine, ps: seq<Packet>)
    requires Asked(false, k, ps) && AnsweredLast(ps)
    ensures Late(k) && Gentle(k)
  {
    hide EncodeAll, Late, Single, ReadsOnly, Silent, Session, AnsweredLast, EndsRunning, AnswersLast;
    if Silent(ps) {
      SilentLate(k, ps);
    } else {
      LastOf(ps);
      var n := |ps| - 1;
      SessionIsLate(k, ps[..n], ps[n]);
      SessionIsGentle(k, ps[..n], ps[n]);
    }
  }

  lemma LastRest(ps: seq<Packet>)
    requires ps != [] && ps[0].DbgHlt? && AnsweredLast(ps)
    ensures AnsweredLast(ps[1..])
  {
    var qs := ps[1..];
    if Silent(ps) {
      assert Silent(qs) by { SilentRest(ps, |ps|); }
    } else {
      assert |ps| > 1 && qs[|qs| - 1] == ps[|ps| - 1];
      assert qs[..|qs| - 1] == ps[..|ps| - 1][1..];
      assert Silent(qs[..|qs| - 1]) by { SilentRest(ps, |ps| - 1); }
    }
  }

  lemma SilentRest(ps: seq<Packet>, n: nat)
    requires 0 < n <= |ps| && Silent(ps[..n])
    ensures Silent(ps[..n][1..]) && (n == |ps| ==> Silent(ps[1..]))
  {
    forall i | 0 <= i < |ps[..n][1..]|
      ensures !Asks(ps[..n][1..][i])
    {
      assert ps[..n][1..][i] == ps[..n][i + 1];
    }
    assert n == |ps| ==> ps[..n] == ps;
  }

  lemma RequestIsLate(running: bool, k: Engine, ps: seq<Packet>)
    requires Asked(running, k, ps) && AnsweredLast(ps)
    ensures Late(k) && Gentle(k)
  {
    hide EncodeAll, Late, Gentle, Brisk, Session, AnsweredLast;
    if !running {
      LastShows(k, ps);
    } else if ps == [] {
      OneStepAtMost(k) by { NothingAsked(k); }
    } else if ps == [QueryHlt] {
      OneStepAtMost(k) by { QueryRunning(k); }
    } else {
      HaltStep(k, ps);
      LastRest(ps);
      LastShows(Fast(k), ps[1..]);
      FromFirst(k);
    }
  }

  /** A unit that is at its end after a step or none. */
  lemma OneStepAtMost(k: Engine)
    requires k.out == [] && (Stuck(k) || (Stuck(Fast(k)) && Fast(k).rx == [] && |Fast(k).out| <= 1))
    ensures Late(k) && Gentle(k)
  {
    hide Fast, FastN, Stuck;
    forall n: nat
      ensures FastN(k, n) == k || FastN(k, n) == Fast(k)
      ensures Stuck(k) ==> FastN(k, n) == k
    {
      if Stuck(k) {
        StaysStuck(k, n);
      } else if n == 0 {
        NoStep(k);
      } else {
        Behind(k, n - 1);
        StaysStuck(Fast(k), n - 1);
      }
    }
    assert Single(k);
  }

  // ---------------------------------------------------------------------------------------------
  // Requests that do not read memory
  // ---------------------------------------------------------------------------------------------

  predicate Unread(c: Ctl) { !(c.CpuRdHeader? || c.PpuRdHeader? || c.CpuRd? || c.PpuRd?) }

  lemma UnreadStep(k: Engine)
    requires Unread(k.ctl) && !k.ctl.Decode?
    ensures Unread(Fast(k).ctl)
  {
    hide Advance, CpuRead, PpuRead, Unread;
    if !Stuck(k) {
      var e, b := if WaitsForByte(k) then k.(rx := k.rx[1..]) else k, if WaitsForByte(k) then k.rx[0] else 0;
      UnreadAdvances(e, b, CpuRead(k.w, k.addr), PpuRead(k.w, k.addr));
    }
  }

  lemma UnreadAdvances(k: Engine, b: Byte, cpuData: Byte, ppuData: Byte)
    requires Unread(k.ctl) && !k.ctl.Decode?
    ensures Unread(Advance(k, b, cpuData, ppuData).ctl)
  {
    hide CpuCell, PpuCell, DebugPort.DebugRead, DebugPort.DebugWrite, Add16, ToWord, Header, PpuOffStep;
    match k.ctl {
      case CpuWrHeader => UnreadHeader(k, b, CpuWr);
      case PpuWrHeader => UnreadHeader(k, b, PpuWr);
      case PpuOff => UnreadOff(k);
      case _ =>
    }
  }

  lemma UnreadHeader(k: Engine, b: Byte, next: Ctl)
    requires Unread(k.ctl) && Unread(next)
    ensures Unread(Header(k, b, next, 1).ctl)
  {
    hide ToWord;
  }

  lemma UnreadOff(k: Engine)
    requires k.ctl.PpuOff?
    ensures Unread(PpuOffStep(k).ctl)
  {
    hide CpuCell;
  }

  lemma UnreadOpens(k: Engine, p: Packet, rest: seq<Byte>)
    requires k.ctl.Decode? && p.Valid() && !Reads(p) && k.rx == Encode(p) + rest
    ensures Unread(Fast(k).ctl)
  {
    hide Pair;
    OpcodeStep(k);
    assert k.rx[0] == Encode(p)[0];
  }

  lemma {:induction false} StaysUnread(k: Engine, n: nat, j: nat)
    requires Unread(k.ctl) && !Between(k) && Unbroken(k, n) && j <= n
    ensures Unread(FastN(k, j).ctl)
    decreases j
  {
    hide Fast, Unread;
    if j > 0 {
      UnreadStep(k);
      if n == 1 {
        OneStep(k);
      } else {
        StaysUnread(Fast(k), n - 1, j - 1);
      }
    }
  }

  lemma PacketUnread(k: Engine, p: Packet, rest: seq<Byte>, j: nat)
    requires k.ctl.Decode? && p.Valid() && !Reads(p) && k.rx == Encode(p) + rest && j <= Work(p)
    ensures Unread(FastN(k, j).ctl)
  {
    hide Fast, FastN, Unbroken, Encode, Work, Served, Reads;
    PacketServed(k, p, rest);
    UnreadOpens(k, p, rest);
    if j == 0 {
      NoStep(k);
    } else if j == 1 {
      OneStep(k);
    } else {
      FirstOf(k, Work(p));
      FastAdds(k, 1, j - 1);
      OneStep(k);
      StaysUnread(Fast(k), Work(p) - 1, j - 1);
    }
  }

  lemma {:induction false} SessionUnread(k: Engine, ps: seq<Packet>, n: nat)
    requires Session(ps) && ReadFree(ps) && k.ctl.Decode? && k.rx == EncodeAll(ps)
    ensures Unread(FastN(k, n).ctl)
    decreases |ps|
  {
    hide Fast, FastN, Encode, Work, Effect, Response, Reads, Unread;
    if ps == [] {
      StaysStuck(k, n);
      assert Unread(k.ctl) by { DecodeUnread(k); }
    } else {
      var p, more := ps[0], EncodeAll(ps[1..]);
      if n <= Work(p) {
        PacketUnread(k, p, more, n);
      } else {
        PacketServed(k, p, more);
        FastAdds(k, Work(p), n - Work(p));
        var e := FastN(k, Work(p));
        if |ps| > 1 {
          SessionUnread(e, ps[1..], n - Work(p));
        } else {
          StaysStuck(e, n - Work(p));
          assert Unread(e.ctl) by { DecodeUnread(e); }
        }
      }
    }
  }

  lemma DecodeUnread(k: Engine)
    requires Between(k)
    ensures Unread(k.ctl)
  {
  }

  lemma SessionIsBrisk(k: Engine, ps: seq<Packet>)
    requires Session(ps) && ReadFree(ps) && k.ctl.Decode? && k.rx == EncodeAll(ps)
    ensures Brisk(k)
  {
    hide FastN, EncodeAll, Session, ReadFree;
    forall n: nat
      ensures !Reading(FastN(k, n))
    {
      SessionUnread(k, ps, n);
    }
  }

  lemma RequestIsBrisk(running: bool, k: Engine, ps: seq<Packet>)
    requires Asked(running, k, ps) && ReadFree(ps)
    ensures Brisk(k)
  {
    hide EncodeAll, Late, Gentle, Brisk, Session, ReadFree;
    if !running {
      SessionIsBrisk(k, ps);
    } else if ps == [] {
      QuietIsBrisk(k) by { NothingAsked(k); }
    } else if ps == [QueryHlt] {
      QuietIsBrisk(k) by { QueryRunning(k); }
    } else {
      HaltStep(k, ps);
      assert ReadFree(ps[1..]) by { FreeRest(ps); }
      SessionIsBrisk(Fast(k), ps[1..]);
      FromFirst(k);
    }
  }

  lemma FreeRest(ps: seq<Packet>)
    requires ps != [] && ReadFree(ps)
    ensures ReadFree(ps[1..])
  {
    forall i | 0 <= i < |ps[1..]|
      ensures !Reads(ps[1..][i])
    {
      assert ps[1..][i] == ps[i + 1];
    }
  }

  lemma QuietIsBrisk(k: Engine)
    requires !Reading(k) && !Reading(Fast(k)) && (Stuck(k) || Stuck(Fast(k)))
    ensures Brisk(k)
  {
    hide Fast, FastN, Stuck, Reading;
    forall n: nat
      ensures !Reading(FastN(k, n))
    {
      if n == 0 {
        NoStep(k);
      } else {
        Behind(k, n - 1);
        if Stuck(k) {
          StaysStuck(k, n);
        } else {
          StaysStuck(Fast(k), n - 1);
        }
      }
    }
  }
}
