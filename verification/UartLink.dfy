/** The transmitter wired to the receiver: every byte that is queued arrives, once, in order and with good
    parity, whatever the tick stream. */
module UartLink {
  import opened Bytes
  import opened Uart

  /** queue is what the transmit buffer holds, its head included while that is being sent. */
  datatype Link = Link(tx: Tx, rx: Rx, queue: seq<Bits>, received: seq<Bits>, failed: bool)

  /** The inputs of one clock.  ready is clear while the buffer claims to be empty, which it may do with
      bytes in it. */
  datatype Clock = Clock(tick: bool, ready: bool, pushed: seq<Bits>)

  const RESET: Link := Link(TX_RESET, RX_RESET, [], [], false)

  function Offer(k: Link, c: Clock): Option<Bits> { if c.ready && k.queue != [] then Some(k.queue[0]) else None }

  function Step(k: Link, c: Clock): Link {
    Link(StepTx(k.tx, c.tick, Offer(k, c)), StepRx(k.rx, c.tick, k.tx.line),
         (if k.tx.done && k.queue != [] then k.queue[1..] else k.queue) + c.pushed,
         if k.rx.done then k.received + [k.rx.data] else k.received, k.failed || k.rx.parityErr)
  }

  function Run(k: Link, cs: seq<Clock>): Link
    decreases |cs|
  {
    if cs == [] then k else Run(Step(k, cs[0]), cs[1..])
  }

  /** All bytes queued during a run. */
  function Queued(cs: seq<Clock>): seq<Bits>
    decreases |cs|
  {
    if cs == [] then [] else cs[0].pushed + Queued(cs[1..])
  }

  // ---------------------------------------------------------------------------------------------
  // One frame: 176 ticks of the transmitter, 168 of the receiver
  // ---------------------------------------------------------------------------------------------

  /** The level p ticks into the frame of b; before it the line is high. */
  predicate LevelAt(b: Bits, p: int) {
    if p < 0 then true
    else if p < 16 then false
    else if p < 144 then b[(p - 16) / 16]
    else if p < 160 then OddParity(b)
    else true
  }

  /** The transmitter p ticks into the frame. */
  predicate TxAt(q: Tx, b: Bits, p: nat) {
    !q.done && p < 176 &&
    if p < 16 then q.state.Start? && q.cnt == p && q.data == b && q.parity == OddParity(b)
    else if p < 144 then
      q.state.Data? && q.idx == (p - 16) / 16 && q.cnt == (p - 16) % 16 && q.data == Shifted(b, q.idx) &&
      q.parity == OddParity(b)
    else if p < 160 then q.state.Parity? && q.cnt == p - 144 && q.parity == OddParity(b)
    else q.state.Stop? && q.cnt == p - 160
  }

  /** The receiver p ticks after it has seen the start bit; the bits so far are at the top of its data. */
  predicate RxAt(q: Rx, b: Bits, p: nat) {
    !q.done && p < 168 &&
    if p < 8 then q.state.Start? && q.cnt == p
    else if p < 136 then q.state.Data? && q.idx == (p - 8) / 16 && q.cnt == (p - 8) % 16 && Sampled(q.data, b, q.idx)
    else if p < 152 then q.state.Parity? && q.cnt == p - 136 && q.data == b
    else q.state.Stop? && q.cnt == p - 152 && q.data == b
  }

  predicate Sampled(data: Bits, b: Bits, n: nat)
    requires n <= 8
  {
    forall k :: 0 <= k < n ==> data[8 - n + k] == b[k]
  }

  lemma TxStarts(q: Tx, tick: bool, b: Bits)
    requires q.state.Idle? && !q.done
    ensures TxAt(StepTx(q, tick, Some(b)), b, 0) && StepTx(q, tick, Some(b)).line
  {
    hide Reduce;
  }

  lemma TxMoves(q: Tx, tick: bool, offer: Option<Bits>, b: Bits, p: nat)
    requires TxAt(q, b, p)
    ensures var q' := StepTx(q, tick, offer); var p' := p + B(tick);
      q'.line == LevelAt(b, p) && if p' < 176 then TxAt(q', b, p') else q'.state.Idle? && q'.done
  {
    hide Reduce, OddParity;
    if p < 16 || p >= 144 {
    } else {
      Divided(p - 16);
      ShiftedAgain(b, q.idx);
    }
  }

  lemma ShiftedAgain(b: Bits, n: nat)
    requires n < 8
    ensures Shifted(Shifted(b, n), 1) == Shifted(b, n + 1) && Shifted(b, n)[0] == b[n] && Shifted(b, 0) == b
  {
  }

  lemma Divided(p: nat)
    ensures if p % 16 == 15 then (p + 1) / 16 == p / 16 + 1 && (p + 1) % 16 == 0
            else (p + 1) / 16 == p / 16 && (p + 1) % 16 == p % 16 + 1
  {
  }

  /** The level the receiver samples is that of the bit it takes it for. */
  lemma RxMoves(q: Rx, tick: bool, wire: bool, b: Bits, p: nat, at: int)
    requires RxAt(q, b, p) && q.line == LevelAt(b, at) && p - 2 <= at <= p + 3
    ensures var q' := StepRx(q, tick, wire); var p' := p + B(tick);
      !q'.parityErr && q'.line == wire && if p' < 168 then RxAt(q', b, p') else q'.state.Idle? && q'.done && q'.data == b
  {
    hide Reduce, OddParity;
    if 8 <= p < 136 {
      Divided(p - 8);
      if tick && q.cnt == 15 {
        SampledBit(q, b, p, at);
      }
    }
  }

  lemma SampledBit(q: Rx, b: Bits, p: nat, at: int)
    requires 8 <= p < 136 && (p - 8) % 16 == 15 && p - 2 <= at <= p + 3
    requires q.idx == (p - 8) / 16 && Sampled(q.data, b, q.idx) && q.line == LevelAt(b, at)
    ensures q.line == b[q.idx] && Sampled(q.data[1..] + [q.line], b, q.idx + 1)
    ensures q.idx == 7 ==> q.data[1..] + [q.line] == b
  {
    var i := q.idx;
    assert p == 23 + 16 * i;
    assert (at - 16) / 16 == i;
    var d := q.data[1..] + [q.line];
    forall k | 0 <= k < i
      ensures d[8 - (i + 1) + k] == b[k]
    {
      assert q.data[8 - i + k] == b[k];
    }
  }

  // ---------------------------------------------------------------------------------------------
  // The invariant of the link
  // ---------------------------------------------------------------------------------------------

  /** Where the receiver is: it has not seen the start bit yet, it is some ticks behind, or it is through
      (now in the clock in which it says so). */
  datatype View = Waiting | Behind(lag: nat) | Through(now: bool)

  /** Between frames, or pos ticks into one; sent and seen are what the two line registers show, at most one
      tick older each. */
  datatype Phase = Between | Within(pos: nat, sent: int, seen: int, view: View)

  predicate ViewAt(k: Link, ph: Phase, b: Bits)
    requires ph.Within?
  {
    match ph.view
    case Waiting => k.rx.state.Idle? && !k.rx.done && ph.seen <= 0 && ph.pos <= ph.seen + 2
    case Behind(lag) => lag <= 3 && lag <= ph.pos && ph.seen >= 0 && RxAt(k.rx, b, ph.pos - lag)
    case Through(now) =>
      k.rx.state.Idle? && k.rx.done == now && ph.pos >= 168 && (now ==> k.rx.data == b && ph.pos <= 171)
  }

  /** total is everything queued so far. */
  predicate Inv(k: Link, ph: Phase, total: seq<Bits>) {
    !k.failed && !k.rx.parityErr &&
    match ph
    case Between =>
      k.tx.state.Idle? && k.rx.state.Idle? && k.tx.line && k.rx.line && !k.rx.done &&
      if k.tx.done then k.queue != [] && k.received + k.queue[1..] == total else k.received + k.queue == total
    case Within(pos, sent, seen, view) =>
      k.queue != [] && TxAt(k.tx, k.queue[0], pos) && pos - 1 <= sent <= pos && sent - 1 <= seen <= sent && -1 <= seen &&
      k.tx.line == LevelAt(k.queue[0], sent) && k.rx.line == LevelAt(k.queue[0], seen) && ViewAt(k, ph, k.queue[0]) &&
      if view == Through(false) then k.received + k.queue[1..] == total else k.received + k.queue == total
  }

  function NextView(ph: Phase, tick: bool): View
    requires ph.Within?
  {
    match ph.view
    case Waiting => if ph.seen == 0 then Behind(ph.pos + B(tick)) else Waiting
    case Behind(lag) => if tick && ph.pos - lag == 167 then Through(true) else Behind(lag)
    case Through(_) => Through(false)
  }

  function NextPhase(k: Link, ph: Phase, c: Clock): Phase {
    match ph
    case Between => if Offer(k, c).Some? && !k.tx.done then Within(0, -1, -1, Waiting) else Between
    case Within(pos, sent, seen, view) =>
      if pos + B(c.tick) == 176 then Between else Within(pos + B(c.tick), pos, sent, NextView(ph, c.tick))
  }

  lemma BetweenStep(k: Link, c: Clock, total: seq<Bits>)
    requires Inv(k, Between, total)
    ensures Inv(Step(k, c), NextPhase(k, Between, c), total + c.pushed)
  {
    hide Reduce, LevelAt, OddParity;
    var o := Offer(k, c);
    if o.Some? && !k.tx.done {
      TxStarts(k.tx, c.tick, o.value);
      BeforeFrame(o.value);
    }
  }

  lemma BeforeFrame(b: Bits)
    ensures LevelAt(b, -1)
  {
  }

  lemma EndOfFrame(b: Bits, p: int)
    requires 160 <= p
    ensures LevelAt(b, p)
  {
  }

  /** The receiver over one clock of a frame. */
  lemma ViewStep(k: Link, ph: Phase, c: Clock, b: Bits)
    requires ph.Within? && ViewAt(k, ph, b) && ph.pos < 176 && ph.pos - 1 <= ph.sent <= ph.pos
    requires ph.sent - 1 <= ph.seen <= ph.sent && -1 <= ph.seen && k.rx.line == LevelAt(b, ph.seen)
    ensures var k', pos' := Step(k, c), ph.pos + B(c.tick);
      !k'.rx.parityErr && ViewAt(k', Within(pos', ph.pos, ph.sent, NextView(ph, c.tick)), b)
  {
    hide Reduce, OddParity, StepTx;
    match ph.view {
      case Waiting =>
      case Behind(lag) =>
        hide LevelAt, StepRx;
        RxMoves(k.rx, c.tick, k.tx.line, b, ph.pos - lag, ph.seen);
      case Through(_) =>
        EndOfFrame(b, ph.seen);
    }
  }

  lemma WithinStep(k: Link, ph: Phase, c: Clock, total: seq<Bits>)
    requires ph.Within? && Inv(k, ph, total)
    ensures Inv(Step(k, c), NextPhase(k, ph, c), total + c.pushed)
  {
    hide Reduce, OddParity, StepTx, StepRx, LevelAt, TxAt, RxAt;
    var b := k.queue[0];
    if ph.view.Behind? {
      InReceipt(k.rx, b, ph.pos - ph.view.lag);
    }
    assert !k.tx.done && ph.pos < 176 by { InFrame(k.tx, b, ph.pos); }
    TxMoves(k.tx, c.tick, Offer(k, c), b, ph.pos);
    ViewStep(k, ph, c, b);
    assert StepRx(k.rx, c.tick, k.tx.line).line == k.tx.line by { Registers(k.rx, c.tick, k.tx.line); }
    if ph.pos + B(c.tick) == 176 {
      EndOfFrame(b, ph.pos);
      EndOfFrame(b, ph.sent);
    }
    Delivery(k, ph, c, total);
  }

  /** Nothing is lost and nothing is counted twice. */
  lemma Delivery(k: Link, ph: Phase, c: Clock, total: seq<Bits>)
    requires ph.Within? && k.queue != [] && !k.tx.done && (ph.view.Behind? ==> !k.rx.done) && ViewAt(k, ph, k.queue[0])
    requires if ph.view == Through(false) then k.received + k.queue[1..] == total else k.received + k.queue == total
    ensures var k' := Step(k, c);
      if NextView(ph, c.tick) == Through(false) then k'.received + k'.queue[1..] == total + c.pushed
      else k'.received + k'.queue == total + c.pushed
  {
    hide StepTx, StepRx, RxAt;
    assert k.queue == [k.queue[0]] + k.queue[1..];
    assert (k.queue + c.pushed)[1..] == k.queue[1..] + c.pushed;
    if ph.view == Through(true) {
      assert k.received + [k.queue[0]] + (k.queue[1..] + c.pushed) == k.received + k.queue + c.pushed;
    }
  }

  lemma InReceipt(q: Rx, b: Bits, p: nat)
    requires RxAt(q, b, p)
    ensures !q.done && p < 168
  {
  }

  lemma InFrame(q: Tx, b: Bits, p: nat)
    requires TxAt(q, b, p)
    ensures !q.done && p < 176
  {
  }

  lemma Registers(q: Rx, tick: bool, wire: bool)
    ensures StepRx(q, tick, wire).line == wire
  {
    hide Reduce;
  }

  /** The invariant over any run. */
  lemma {:induction false} Holds(k: Link, ph: Phase, total: seq<Bits>, cs: seq<Clock>) returns (ph': Phase)
    requires Inv(k, ph, total)
    ensures Inv(Run(k, cs), ph', total + Queued(cs))
    decreases |cs|
  {
    hide Step, Inv, NextPhase;
    if cs == [] {
      ph' := ph;
      assert total + Queued(cs) == total;
    } else {
      if ph.Within? {
        WithinStep(k, ph, cs[0], total);
      } else {
        BetweenStep(k, cs[0], total);
      }
      ph' := Holds(Step(k, cs[0]), NextPhase(k, ph, cs[0]), total + cs[0].pushed, cs[1..]);
      assert total + cs[0].pushed + Queued(cs[1..]) == total + Queued(cs);
    }
  }

  // ---------------------------------------------------------------------------------------------
  // Main results
  // ---------------------------------------------------------------------------------------------

  lemma Starts()
    ensures Inv(RESET, Between, [])
  {
  }

  /** At any time, for any tick stream and any queueing: what has arrived is a prefix of what was queued, no
      parity error has been seen, and once the buffer is empty everything has arrived. */
  lemma OnlyWhatWasSent(cs: seq<Clock>)
    ensures var k := Run(RESET, cs);
      k.received <= Queued(cs) && !k.failed && (k.queue == [] ==> k.received == Queued(cs))
  {
    hide Run, Queued, ViewAt, TxAt, LevelAt;
    Starts();
    var ph := Holds(RESET, Between, [], cs);
    var k := Run(RESET, cs);
    assert [] + Queued(cs) == Queued(cs);
    assert k.queue == [] ==> k.received + k.queue == k.received;
  }

  /** Ticks it takes at most until the buffer is empty. */
  function Remaining(k: Link, ph: Phase): int {
    match ph
    case Between => 178 * |k.queue| - 177 * B(k.tx.done)
    case Within(pos, _, _, _) => 178 * |k.queue| - 1 - pos
  }

  lemma Progress(k: Link, ph: Phase, c: Clock, total: seq<Bits>)
    requires Inv(k, ph, total) && c.pushed == []
    ensures var k', ph' := Step(k, c), NextPhase(k, ph, c);
      Inv(k', ph', total) && 0 <= Remaining(k, ph) <= 178 * |k.queue| && (Remaining(k, ph) == 0 ==> k.queue == []) &&
      0 <= Remaining(k', ph') && (Remaining(k, ph) > 0 ==> Remaining(k', ph') <= Remaining(k, ph) - B(c.tick && c.ready)) &&
      (Remaining(k, ph) == 0 ==> Remaining(k', ph') == 0)
  {
    hide StepRx, ViewAt, LevelAt, TxAt;
    assert total + [] == total;
    if ph.Within? {
      WithinStep(k, ph, c, total);
      InFrame(k.tx, k.queue[0], ph.pos);
      TxMoves(k.tx, c.tick, Offer(k, c), k.queue[0], ph.pos);
    } else {
      BetweenStep(k, c, total);
    }
  }

  function Ticks(cs: seq<Clock>): nat
    decreases |cs|
  {
    if cs == [] then 0 else B(cs[0].tick) + Ticks(cs[1..])
  }

  predicate Undisturbed(cs: seq<Clock>) { forall i :: 0 <= i < |cs| ==> cs[i].ready && cs[i].pushed == [] }

  lemma {:induction false} Drains(k: Link, ph: Phase, total: seq<Bits>, cs: seq<Clock>)
    requires Inv(k, ph, total) && Undisturbed(cs) && Remaining(k, ph) <= Ticks(cs)
    ensures var k' := Run(k, cs); k'.queue == [] && k'.received == total && !k'.failed
    decreases |cs|
  {
    hide Step, Inv, NextPhase, Remaining;
    var c := Clock(false, true, []);
    Progress(k, ph, if cs == [] then c else cs[0], total);
    if cs == [] {
      Emptied(k, ph, total);
    } else {
      Drains(Step(k, cs[0]), NextPhase(k, ph, cs[0]), total, cs[1..]);
    }
  }

  lemma Emptied(k: Link, ph: Phase, total: seq<Bits>)
    requires Inv(k, ph, total) && k.queue == []
    ensures k.received == total && !k.failed
  {
    assert k.received + k.queue == k.received;
  }

  /** Whatever has happened before, once the buffer shows its bytes 178 ticks for each byte left are enough for
      the received sequence to be the queued one. */
  lemma EverythingArrives(cs: seq<Clock>, ds: seq<Clock>)
    requires Undisturbed(ds) && Ticks(ds) >= 178 * |Run(RESET, cs).queue|
    ensures var k := Run(RESET, cs + ds); k.received == Queued(cs) && k.queue == [] && !k.failed
  {
    hide Run, Queued, Inv, Remaining, Step, Undisturbed;
    Starts();
    var k := Run(RESET, cs);
    var ph := Holds(RESET, Between, [], cs);
    assert [] + Queued(cs) == Queued(cs);
    Progress(k, ph, Clock(false, true, []), Queued(cs));
    Drains(k, ph, Queued(cs), ds);
    RunAdds(RESET, cs, ds);
  }

  lemma {:induction false} RunAdds(k: Link, cs: seq<Clock>, ds: seq<Clock>)
    ensures Run(k, cs + ds) == Run(Run(k, cs), ds)
    decreases |cs|
  {
    hide Step;
    if cs == [] {
      assert cs + ds == ds;
    } else {
      assert (cs + ds)[1..] == cs[1..] + ds;
      RunAdds(Step(k, cs[0]), cs[1..], ds);
    }
  }
}
