/** The serial transmitter and receiver, clock by clock, in the mode the debug link uses: eight data bits,
    odd parity, one stop bit, sixteen ticks to a bit. */
module Uart {
  import opened Bytes

  datatype State = Idle | Start | Data | Parity | Stop

  /** The tick counters have four bits. */
  type Count = n: nat | n < 16

  /** line is the registered serial output, done the one-clock end signal. */
  datatype Tx = Tx(state: State, cnt: Count, data: Bits, idx: nat, parity: bool, line: bool, done: bool)

  /** line is the registered serial input. */
  datatype Rx = Rx(state: State, cnt: Count, data: Bits, idx: nat, done: bool, parityErr: bool, line: bool)

  /** The exclusive or of all bits. */
  predicate Reduce(b: seq<bool>) { if b == [] then false else b[0] != Reduce(b[1..]) }

  /** The bit that makes the number of ones odd. */
  predicate OddParity(b: Bits) { !Reduce(b) }

  const TX_RESET: Tx := Tx(Idle, 0, BLANK, 0, false, true, false)

  const RX_RESET: Rx := Rx(Idle, 0, BLANK, 0, false, false, true)

  function Counted(cnt: Count, tick: bool): Count { if tick then (cnt + 1) % 16 else cnt }

  /** Between frames, with nothing left to say. */
  predicate TxRests(q: Tx) { q.state.Idle? && q.line && !q.done }

  predicate RxRests(q: Rx) { q.state.Idle? && q.line && !q.done && !q.parityErr }

  /** What the transmitter drives in a state. */
  predicate TxLevel(q: Tx) {
    match q.state
    case Idle | Stop => true
    case Start => false
    case Data => q.data[0]
    case Parity => q.parity
  }

  /** One clock of the transmitter.  start offers a byte; it is not looked at while done is up. */
  function StepTx(q: Tx, tick: bool, start: Option<Bits>): Tx {
    var d := q.(cnt := Counted(q.cnt, tick), line := TxLevel(q), done := false);
    var full := tick && q.cnt == 15;
    match q.state
    case Idle =>
      if start.Some? && !q.done then d.(state := Start, cnt := 0, data := start.value, parity := OddParity(start.value))
      else d
    case Start => if full then d.(state := Data, cnt := 0, idx := 0) else d
    case Data =>
      if full then
        d.(data := Shifted(q.data, 1), idx := (q.idx + 1) % 8, cnt := 0, state := if q.idx == 7 then Parity else Data)
      else d
    case Parity => if full then d.(state := Stop, cnt := 0) else d
    case Stop => if full then d.(state := Idle, done := true) else d
  }

  /** One clock of the receiver.  The start bit is waited half through, every other bit sampled a whole bit
      later. */
  function StepRx(q: Rx, tick: bool, wire: bool): Rx {
    var d := q.(cnt := Counted(q.cnt, tick), line := wire, done := false, parityErr := false);
    var full := tick && q.cnt == 15;
    match q.state
    case Idle => if !q.line then d.(state := Start, cnt := 0) else d
    case Start => if tick && q.cnt == 7 then d.(state := Data, cnt := 0, idx := 0) else d
    case Data =>
      if full then
        d.(data := q.data[1..] + [q.line], cnt := 0, idx := if q.idx == 7 then 7 else q.idx + 1,
           state := if q.idx == 7 then Parity else Data)
      else d
    case Parity => if full then d.(state := Stop, cnt := 0, parityErr := q.line != OddParity(q.data)) else d
    case Stop => if full then d.(state := Idle, done := true) else d
  }

  // ---------------------------------------------------------------------------------------------
  // The same, updated in place
  // ---------------------------------------------------------------------------------------------

  class Transmitter {
    var state: State
    var cnt: Count
    var data: Bits
    var idx: nat
    var parity: bool
    var line: bool
    var done: bool

    ghost function Value(): Tx
      reads this
    {
      Tx(state, cnt, data, idx, parity, line, done)
    }

    constructor ()
      ensures Value() == TX_RESET
    {
      state, cnt, data, idx, parity, line, done := Idle, 0, BLANK, 0, false, true, false;
    }

    method Step(tick: bool, start: Option<Bits>)
      modifies this
      ensures Value() == StepTx(old(Value()), tick, start)
    {
      hide Reduce, Shifted;
      var full := tick && cnt == 15;
      var ended := done;
      if tick {
        cnt := (cnt + 1) % 16;
      }
      line, done := true, false;
      match state {
        case Idle =>
          if start.Some? && !ended {
            state, cnt, data, parity := Start, 0, start.value, OddParity(start.value);
          }
        case Start =>
          line := false;
          if full {
            state, cnt, idx := Data, 0, 0;
          }
        case Data =>
          line := data[0];
          if full {
            if idx == 7 {
              state := Parity;
            }
            data, idx, cnt := Shifted(data, 1), (idx + 1) % 8, 0;
          }
        case Parity =>
          line := parity;
          if full {
            state, cnt := Stop, 0;
          }
        case Stop =>
          if full {
            state, done := Idle, true;
          }
      }
    }
  }

  class Receiver {
    var state: State
    var cnt: Count
    var data: Bits
    var idx: nat
    var done: bool
    var parityErr: bool
    var line: bool

    ghost function Value(): Rx
      reads this
    {
      Rx(state, cnt, data, idx, done, parityErr, line)
    }

    constructor ()
      ensures Value() == RX_RESET
    {
      state, cnt, data, idx, done, parityErr, line := Idle, 0, BLANK, 0, false, false, true;
    }

    method Step(tick: bool, wire: bool)
      modifies this
      ensures Value() == StepRx(old(Value()), tick, wire)
    {
      hide Reduce;
      var full, half := tick && cnt == 15, tick && cnt == 7;
      var level := line;
      if tick {
        cnt := (cnt + 1) % 16;
      }
      line, done, parityErr := wire, false, false;
      match state {
        case Idle =>
          if !level {
            state, cnt := Start, 0;
          }
        case Start =>
          if half {
            state, cnt, idx := Data, 0, 0;
          }
        case Data =>
          if full {
            data, cnt := data[1..] + [level], 0;
            if idx == 7 {
              state := Parity;
            } else {
              idx := idx + 1;
            }
          }
        case Parity =>
          if full {
            parityErr := level != OddParity(data);
            state, cnt := Stop, 0;
          }
        case Stop =>
          if full {
            state, done := Idle, true;
          }
      }
    }
  }
}
