/** How the host uses the link: it sends the packets of a request, waits for the answer, and goes on with the next
    request.  Every request then has its effect and its whole answer, however often this is done. */
module Conversation {
  import opened Bytes
  import opened Packets
  import opened Hci
  import opened HciFraming
  import opened DebugLink
  import opened LinkRoom
  import opened LinkPace
  import opened LinkProgress
  import opened BaudLink
  import opened Requests
  import Fifo
  import Uart

  // ---------------------------------------------------------------------------------------------
  // One request
  // ---------------------------------------------------------------------------------------------

  predicate Running(y: System) { y.m.k.ctl.Disabled? }

  function WorldOf(y: System): World { y.m.k.w }

  /** The clocks are on the beat of the baud generator, at whatever count it starts. */
  ghost predicate OnBaud(ins: seq<Input>) { exists n :: 0 <= n < PERIOD && Beat(ins, n) }

  /** The answer comes at the end only, or no memory is read and the ticks are those of the generator. */
  ghost predicate Kind(ps: seq<Packet>, ins: seq<Input>) { AnsweredLast(ps) || (ReadFree(ps) && OnBaud(ins)) }

  /** 178 ticks for each byte while the host is willing to send, and then time for the unit's work and 178 ticks for
      each byte of the answer. */
  predicate Enough(ps: seq<Packet>, answer: seq<Byte>, a: seq<Input>, b: seq<Input>)
    requires Session(ps)
  {
    UpTicks(a) >= 178 * |EncodeAll(ps)| &&
    if answer == [] then |b| >= 2 * WorkAll(ps) + 1 else DownTicks(b) >= 178 * |answer| + 2 * WorkAll(ps) + 1
  }

  /** A request to a link at rest. */
  lemma RequestServed(y: System, ps: seq<Packet>, a: seq<Input>, b: seq<Input>)
    requires AtRest(y) && Heard(Running(y), ps) && y.unsent == EncodeAll(ps) && Kind(ps, a + b)
    requires Enough(ps, Answer(Running(y), WorldOf(y), ps), a, b)
    ensures var r := DebugLink.Run(y, a + b);
      r.got == Answer(Running(y), WorldOf(y), ps) && WorldOf(r) == EffectAll(WorldOf(y), ps) &&
      Settled(r) && r.unsent == [] && Running(r) == Runs(Running(y), ps)
  {
    hide DebugLink.Run, FastN, AllFits, AllVisible, EncodeAll, EffectAll, WorkAll, Answer, Late, Gentle, Brisk, Heard, Runs, Kind,
      Settled, Beat, Session, ReadFree, AnsweredLast;
    var k, running, w := Whole(y, y.unsent).k, Running(y), WorkAll(ps);
    assert Asked(running, k, ps) by { RestAsks(y, ps); }
    RequestEnds(running, k, ps);
    RequestShows(y, ps, a + b);
    LinkDelivers(y, a, b, w, Answer(running, WorldOf(y), ps) == []);
  }

  lemma RestAsks(y: System, ps: seq<Packet>)
    requires AtRest(y) && Heard(Running(y), ps) && y.unsent == EncodeAll(ps)
    ensures Asked(Running(y), Whole(y, y.unsent).k, ps)
  {
    hide EncodeAll, Heard;
  }

  lemma RequestShows(y: System, ps: seq<Packet>, ins: seq<Input>)
    requires AtRest(y) && Asked(Running(y), Whole(y, y.unsent).k, ps) && Kind(ps, ins)
    ensures AllFits(y, ins) && AllVisible(y, START, ins)
  {
    hide AllFits, AllVisible, Late, Gentle, Brisk, Asked, Beat, ReadFree, AnsweredLast, AtRest;
    var k := Whole(y, y.unsent).k;
    if AnsweredLast(ps) {
      RequestIsLate(Running(y), k, ps);
      LateVisible(y, ins);
    } else {
      RequestIsBrisk(Running(y), k, ps);
      var n :| 0 <= n < PERIOD && Beat(ins, n);
      BaudVisible(y, n, ins);
    }
  }

  // ---------------------------------------------------------------------------------------------
  // Request after request
  // ---------------------------------------------------------------------------------------------

  /** The packets of a request, the clocks while it is sent and while it is answered, and what the CPU has made of
      memory and registers by the time the unit stops it, if it runs. */
  datatype Exchange = Exchange(ps: seq<Packet>, a: seq<Input>, b: seq<Input>, found: World)

  function Found(running: bool, w: World, x: Exchange): World { if running then x.found else w }

  /** The host takes what it has received and hands over the bytes of the next request; the record of the unit's
      replies starts anew. */
  function Ask(y: System, x: Exchange): System
    requires Session(x.ps)
  {
    y.(unsent := y.unsent + EncodeAll(x.ps), got := [],
       m := y.m.(k := y.m.k.(out := [], w := Found(Running(y), WorldOf(y), x))))
  }

  function Exchanged(y: System, x: Exchange): (r: System)
    requires y.Valid() && Session(x.ps)
    ensures r.Valid()
  {
    DebugLink.Run(Ask(y, x), x.a + x.b)
  }

  predicate Packed(xs: seq<Exchange>) { forall i :: 0 <= i < |xs| ==> Session(xs[i].ps) }

  /** What the host has received when it goes on, request by request. */
  function Received(y: System, xs: seq<Exchange>): seq<seq<Byte>>
    requires y.Valid() && Packed(xs)
    decreases |xs|
  {
    if xs == [] then [] else [Exchanged(y, xs[0]).got] + Received(Exchanged(y, xs[0]), xs[1..])
  }

  function After(y: System, xs: seq<Exchange>): (r: System)
    requires y.Valid() && Packed(xs)
    ensures r.Valid()
    decreases |xs|
  {
    if xs == [] then y else After(Exchanged(y, xs[0]), xs[1..])
  }

  /** A request that can be heard, is of one of the two kinds, and is given time. */
  ghost predicate Fair(running: bool, w: World, x: Exchange) {
    Heard(running, x.ps) && Kind(x.ps, x.a + x.b) && Enough(x.ps, Answer(running, Found(running, w, x), x.ps), x.a, x.b)
  }

  ghost predicate Polite(running: bool, w: World, xs: seq<Exchange>)
    decreases |xs|
  {
    xs == [] ||
    (Fair(running, w, xs[0]) && Polite(Runs(running, xs[0].ps), EffectAll(Found(running, w, xs[0]), xs[0].ps), xs[1..]))
  }

  /** What the requests mean, one after the other. */
  function Meant(running: bool, w: World, xs: seq<Exchange>): seq<seq<Byte>>
    requires Polite(running, w, xs)
    decreases |xs|
  {
    if xs == [] then []
    else
      var x, v := xs[0], Found(running, w, xs[0]);
      [Answer(running, v, x.ps)] + Meant(Runs(running, x.ps), EffectAll(v, x.ps), xs[1..])
  }

  function Effects(running: bool, w: World, xs: seq<Exchange>): World
    requires Packed(xs)
    decreases |xs|
  {
    if xs == [] then w
    else Effects(Runs(running, xs[0].ps), EffectAll(Found(running, w, xs[0]), xs[0].ps), xs[1..])
  }

  predicate RunsAfter(running: bool, xs: seq<Exchange>)
    decreases |xs|
  {
    if xs == [] then running else RunsAfter(Runs(running, xs[0].ps), xs[1..])
  }

  lemma AskRests(y: System, x: Exchange)
    requires Settled(y) && y.unsent == [] && Session(x.ps)
    ensures var z := Ask(y, x);
      AtRest(z) && z.unsent == EncodeAll(x.ps) && Running(z) == Running(y) &&
      WorldOf(z) == Found(Running(y), WorldOf(y), x)
  {
    hide EncodeAll, Session, Fifo.Holds, Uart.TxRests, Uart.RxRests;
  }

  lemma OneExchange(y: System, x: Exchange)
    requires Settled(y) && y.unsent == [] && Fair(Running(y), WorldOf(y), x)
    ensures var r, w := Exchanged(y, x), Found(Running(y), WorldOf(y), x);
      r.got == Answer(Running(y), w, x.ps) && WorldOf(r) == EffectAll(w, x.ps) &&
      Settled(r) && r.unsent == [] && Running(r) == Runs(Running(y), x.ps)
  {
    hide DebugLink.Run, Ask, EncodeAll, Answer, EffectAll, Runs, Settled, AtRest, Kind, Enough, Running, WorldOf, Found;
    AskRests(y, x);
    RequestServed(Ask(y, x), x.ps, x.a, x.b);
  }

  /** Over any number of requests, from any state of the link at rest, with the CPU running or stopped: the host
      receives every answer whole and nothing else, memory, registers and configuration are what all the packets
      mean one after the other, but for what a running CPU does in between, and the link is at rest again. */
  lemma {:induction false} Converses(y: System, xs: seq<Exchange>)
    requires Settled(y) && y.unsent == [] && Packed(xs) && Polite(Running(y), WorldOf(y), xs)
    ensures Received(y, xs) == Meant(Running(y), WorldOf(y), xs)
    ensures var r := After(y, xs);
      WorldOf(r) == Effects(Running(y), WorldOf(y), xs) && Running(r) == RunsAfter(Running(y), xs) && Settled(r) && r.unsent == []
    decreases |xs|
  {
    hide Exchanged, Answer, EffectAll, Runs, Settled, Kind, Enough, Running, WorldOf, Heard, Found;
    assert y.Valid() by { SettledValid(y); }
    if xs == [] {
    } else {
      OneExchange(y, xs[0]);
      Converses(Exchanged(y, xs[0]), xs[1..]);
    }
  }

  lemma SettledValid(y: System)
    requires Settled(y)
    ensures y.Valid()
  {
  }
}
