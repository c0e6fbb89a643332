/** The circular buffer between the serial port and the debug unit: one read and one write a clock, with an
    empty and a full flag kept in registers of their own. */
module Fifo {

  /** data has one entry for each value of the pointers. */
  datatype State<T> = State(data: seq<T>, rd: nat, wr: nat, empty: bool, full: bool)
  {
    predicate Valid() { |data| >= 4 && rd < |data| && wr < |data| }
  }

  datatype Input<T> = Input(read: bool, write: bool, value: T)

  predicate Pops<T>(q: State<T>, i: Input<T>) { i.read && !q.empty }

  predicate Pushes<T>(q: State<T>, i: Input<T>) { i.write && !q.full }

  /** A pointer value reduced modulo the size n. */
  function Wrap(p: int, n: nat): (r: nat)
    requires 0 <= p + n < 3 * n
    ensures r < n && (r == p || r == p - n || r == p + n)
  {
    if p < 0 then p + n else if p >= n then p - n else p
  }

  /** How far the write pointer is ahead, modulo the size. */
  function Ahead<T>(q: State<T>): nat
    requires q.Valid()
  {
    Wrap(q.wr - q.rd, |q.data|)
  }

  function Behind<T>(q: State<T>): nat
    requires q.Valid()
  {
    Wrap(q.rd - q.wr, |q.data|)
  }

  /** One clock. */
  function Step<T>(q: State<T>, i: Input<T>): (r: State<T>)
    requires q.Valid()
    ensures r.Valid() && |r.data| == |q.data|
  {
    State(if Pushes(q, i) then q.data[q.wr := i.value] else q.data,
          if Pops(q, i) then Wrap(q.rd + 1, |q.data|) else q.rd,
          if Pushes(q, i) then Wrap(q.wr + 1, |q.data|) else q.wr,
          (q.empty && !Pushes(q, i)) || (Ahead(q) == 1 && Pops(q, i)),
          (q.full && !Pops(q, i)) || (Behind(q) == 1 && Pushes(q, i)))
  }

  /** The data output. */
  function Front<T>(q: State<T>): T
    requires q.Valid()
  {
    q.data[q.rd]
  }

  // ---------------------------------------------------------------------------------------------
  // What the buffer holds
  // ---------------------------------------------------------------------------------------------

  /** Place k after the read pointer. */
  function Place<T>(q: State<T>, k: nat): nat
    requires q.Valid() && k <= |q.data|
  {
    Wrap(q.rd + k, |q.data|)
  }

  /** The flags are right up to one entry: an empty buffer says so and a full one too, never both, but the
      empty flag may also be up with one entry and the full flag with one place left. */
  predicate Cautious<T>(q: State<T>, n: nat) {
    (n == 0 ==> q.empty) && (q.empty ==> n <= 1) && (n == |q.data| ==> q.full) && (q.full ==> n >= |q.data| - 1) &&
    !(q.empty && q.full)
  }

  /** s is what the buffer holds, oldest first. */
  ghost predicate Holds<T>(q: State<T>, s: seq<T>) {
    q.Valid() && |s| <= |q.data| && q.wr == Place(q, |s|) && Cautious(q, |s|) &&
    forall k :: 0 <= k < |s| ==> q.data[Place(q, k)] == s[k]
  }

  function Popped<T>(q: State<T>, i: Input<T>): seq<T>
    requires q.Valid()
  {
    if Pops(q, i) then [Front(q)] else []
  }

  function Pushed<T>(q: State<T>, i: Input<T>): seq<T> { if Pushes(q, i) then [i.value] else [] }

  lemma PointersCount<T>(q: State<T>, s: seq<T>)
    requires Holds(q, s)
    ensures (Ahead(q) == 1 <==> |s| == 1) && (Behind(q) == 1 <==> |s| == |q.data| - 1)
  {
  }

  lemma OfHolds<T>(q: State<T>, s: seq<T>)
    requires Holds(q, s)
    ensures Cautious(q, |s|) && (q.empty ==> |s| <= 1) && (|s| == 0 ==> q.empty) && (|s| == |q.data| ==> q.full)
  {
  }

  lemma FlagsCautious<T>(q: State<T>, s: seq<T>, i: Input<T>)
    requires Holds(q, s)
    ensures Cautious(Step(q, i), |s| - |Popped(q, i)| + |Pushed(q, i)|) && |Popped(q, i)| <= |s|
    ensures |s| - |Popped(q, i)| + |Pushed(q, i)| <= |q.data|
  {
    hide Ahead, Behind;
    PointersCount(q, s);
  }

  /** One clock: an accepted write goes to the end, an accepted read takes the front, and the flags stay
      cautious. */
  lemma StepHolds<T>(q: State<T>, s: seq<T>, i: Input<T>)
    requires Holds(q, s)
    ensures Popped(q, i) <= s && Holds(Step(q, i), s[|Popped(q, i)|..] + Pushed(q, i))
  {
    hide Ahead, Behind, Cautious;
    FlagsCautious(q, s, i);
    assert (q.empty ==> |s| <= 1) && (|s| == 0 ==> q.empty) && (|s| == |q.data| ==> q.full) by { OfHolds(q, s); }
    StepKeeps(q, s, i);
    assert Place(q, 0) == q.rd;
  }

  /** Each entry is still in its place after a clock, which moves the places along by one after a read. */
  lemma StepKeeps<T>(q: State<T>, s: seq<T>, i: Input<T>)
    requires Holds(q, s) && (Pops(q, i) ==> |s| > 0) && (Pushes(q, i) ==> |s| < |q.data|)
    ensures var d, r := |Popped(q, i)|, Step(q, i); var t := s[d..] + Pushed(q, i);
      |t| <= |q.data| && r.wr == Place(r, |t|) && forall k :: 0 <= k < |t| ==> r.data[Place(r, k)] == t[k]
  {
    hide Ahead, Behind, Cautious;
    var d, r := |Popped(q, i)|, Step(q, i);
    var t := s[d..] + Pushed(q, i);
    forall k | 0 <= k < |t|
      ensures r.data[Place(r, k)] == t[k]
    {
      if k + d < |s| {
        assert Place(r, k) == Place(q, k + d) && (Pushes(q, i) ==> Place(q, k + d) != q.wr);
      }
    }
  }

  // ---------------------------------------------------------------------------------------------
  // Whole runs
  // ---------------------------------------------------------------------------------------------

  /** After reset, with any contents in the array. */
  predicate Reset<T>(q: State<T>) { q.Valid() && q.rd == 0 && q.wr == 0 && q.empty && !q.full }

  function Run<T>(q: State<T>, ins: seq<Input<T>>): (r: State<T>)
    requires q.Valid()
    ensures r.Valid() && |r.data| == |q.data|
    decreases |ins|
  {
    if ins == [] then q else Run(Step(q, ins[0]), ins[1..])
  }

  /** Everything accepted from the writer, and everything handed to the reader. */
  function Accepted<T>(q: State<T>, ins: seq<Input<T>>): seq<T>
    requires q.Valid()
    decreases |ins|
  {
    if ins == [] then [] else Pushed(q, ins[0]) + Accepted(Step(q, ins[0]), ins[1..])
  }

  function Delivered<T>(q: State<T>, ins: seq<Input<T>>): seq<T>
    requires q.Valid()
    decreases |ins|
  {
    if ins == [] then [] else Popped(q, ins[0]) + Delivered(Step(q, ins[0]), ins[1..])
  }

  lemma {:induction false} RunHolds<T>(q: State<T>, s: seq<T>, ins: seq<Input<T>>) returns (t: seq<T>)
    requires q.Valid() && Holds(q, s)
    ensures Holds(Run(q, ins), t) && s + Accepted(q, ins) == Delivered(q, ins) + t
    decreases |ins|
  {
    hide Holds, Step;
    if ins == [] {
      t := s;
      assert s + [] == [] + s;
    } else {
      StepHolds(q, s, ins[0]);
      var p, s' := Popped(q, ins[0]), s[|Popped(q, ins[0])|..] + Pushed(q, ins[0]);
      t := RunHolds(Step(q, ins[0]), s', ins[1..]);
      assert s == p + s[|p|..];
      assert s + Accepted(q, ins) == p + (s' + Accepted(Step(q, ins[0]), ins[1..]));
      assert Delivered(q, ins) + t == p + (Delivered(Step(q, ins[0]), ins[1..]) + t);
    }
  }

  /** For every run from reset: what has been read is a prefix of what was accepted, what lies between is in
      the buffer in order, and the flags are right up to one entry. */
  lemma OrderKept<T>(q: State<T>, ins: seq<Input<T>>)
    requires Reset(q)
    ensures var d, a := Delivered(q, ins), Accepted(q, ins);
      d <= a && Holds(Run(q, ins), a[|d|..])
  {
    hide Run, Delivered, Accepted;
    var t := RunHolds(q, [], ins);
    assert [] + Accepted(q, ins) == Accepted(q, ins);
    assert t == Accepted(q, ins)[|Delivered(q, ins)|..];
  }

  /** The flags say exactly whether the buffer is empty and whether it is full. */
  predicate Exact<T>(q: State<T>, n: nat) { (q.empty <==> n == 0) && (q.full <==> n == |q.data|) }

  /** Exact flags stay exact unless a read and a write are accepted together with one entry in the buffer or one
      place left, and then they are wrong. */
  lemma StaysExact<T>(q: State<T>, s: seq<T>, i: Input<T>)
    requires Holds(q, s) && Exact(q, |s|)
    ensures var n := |s| - |Popped(q, i)| + |Pushed(q, i)|;
      0 <= n && (Exact(Step(q, i), n) <==> !(Pops(q, i) && Pushes(q, i) && (|s| == 1 || |s| == |q.data| - 1)))
  {
    hide Ahead, Behind;
    PointersCount(q, s);
  }

  function Fill<T>(v: T, n: nat): seq<Input<T>> { seq(n, _ => Input(false, true, v)) }

  /** Writes alone, with the read pointer at the start. */
  lemma {:induction false} Filling<T>(q: State<T>, v: T, n: nat)
    requires q.Valid() && q.rd == 0 && q.wr + n < |q.data| && q.empty == (q.wr == 0) && !q.full
    ensures var r := Run(q, Fill(v, n)); r.rd == 0 && r.wr == q.wr + n && r.empty == (r.wr == 0) && !r.full
    decreases n
  {
    if n == 0 {
    } else {
      assert Fill(v, n)[1..] == Fill(v, n - 1);
      Filling(Step(q, Fill(v, n)[0]), v, n - 1);
    }
  }

  lemma {:induction false} RunLast<T>(q: State<T>, ins: seq<Input<T>>, i: Input<T>)
    requires q.Valid()
    ensures Run(q, ins + [i]) == Step(Run(q, ins), i)
    decreases |ins|
  {
    hide Step;
    if ins == [] {
      assert [] + [i] == [i] && [i][1..] == [];
      assert Run(Step(q, i), [i][1..]) == Step(q, i);
    } else {
      assert (ins + [i])[1..] == ins[1..] + [i];
      RunLast(Step(q, ins[0]), ins[1..], i);
    }
  }

  /** The flags do go wrong: after one write, a read and a write together raise the empty flag with one byte in
      the buffer. */
  lemma EmptyTooEarly<T>(q: State<T>, v: T) returns (s: seq<T>)
    requires Reset(q)
    ensures var r := Run(q, Fill(v, 1) + [Input(true, true, v)]); Holds(r, s) && |s| == 1 && r.empty
  {
    s := Overlap(q, v, 1);
  }

  /** With one place left they raise the full flag, and one place stays free. */
  lemma FullTooEarly<T>(q: State<T>, v: T) returns (s: seq<T>)
    requires Reset(q)
    ensures var r := Run(q, Fill(v, |q.data| - 1) + [Input(true, true, v)]); Holds(r, s) && |s| == |q.data| - 1 && r.full
  {
    s := Overlap(q, v, |q.data| - 1);
  }

  /** A read and a write together after n writes. */
  lemma Overlap<T>(q: State<T>, v: T, n: nat) returns (s: seq<T>)
    requires Reset(q) && 0 < n < |q.data|
    ensures var r := Run(q, Fill(v, n) + [Input(true, true, v)]);
      Holds(r, s) && |s| == n && (r.empty <==> n == 1) && (r.full <==> n == |q.data| - 1)
  {
    hide Run;
    var ins, i := Fill(v, n), Input(true, true, v);
    Filling(q, v, n);
    RunLast(q, ins, i);
    s := RunHolds(q, [], ins + [i]);
    var r := Step(Run(q, ins), i);
    assert r.rd == 1 && r.wr == if n + 1 == |q.data| then 0 else n + 1;
  }

  /** A byte hidden by an early empty flag stays until the next accepted write, which makes the flag exact. */
  lemma EarlyEmptyEnds<T>(q: State<T>, s: seq<T>, i: Input<T>)
    requires Holds(q, s) && q.empty && |s| == 1
    ensures var n := |s| - |Popped(q, i)| + |Pushed(q, i)|;
      if i.write then n == 2 && !Step(q, i).empty else n == 1 && Step(q, i).empty
  {
    hide Ahead, Behind;
    PointersCount(q, s);
  }

  // ---------------------------------------------------------------------------------------------
  // The same, updated in place
  // ---------------------------------------------------------------------------------------------

  class Buffer<T> {
    const data: array<T>
    var rd: nat
    var wr: nat
    var empty: bool
    var full: bool
    ghost var contents: seq<T>

    ghost predicate Valid()
      reads this, data
    {
      Holds(Value(), contents)
    }

    ghost function Value(): State<T>
      reads this, data
    {
      State(data[..], rd, wr, empty, full)
    }

    constructor (storage: array<T>)
      requires storage.Length >= 4
      ensures data == storage && Valid() && contents == [] && Value() == State(storage[..], 0, 0, true, false)
    {
      data, rd, wr, empty, full, contents := storage, 0, 0, true, false, [];
    }

    /** One clock; front is the data output before it. */
    method Clock(i: Input<T>) returns (front: T)
      requires Valid()
      modifies this, data
      ensures Valid() && Value() == Step(old(Value()), i)
      ensures !old(empty) ==> old(contents) != [] && front == old(contents)[0]
      ensures contents == old(contents)[if i.read && !old(empty) then 1 else 0..] + if i.write && !old(full) then [i.value] else []
    {
      hide Holds, Step;
      ghost var q, s := Value(), contents;
      StepHolds(q, s, i);
      assert q.Valid() && data.Length >= 4 && (!empty ==> s != [] && s[0] == data[rd]) by { FrontIs(q, s); }
      front := data[rd];
      var pops, pushes := i.read && !empty, i.write && !full;
      var ahead, behind := Wrap(wr - rd, data.Length), Wrap(rd - wr, data.Length);
      if pushes {
        data[wr] := i.value;
        wr := Wrap(wr + 1, data.Length);
      }
      if pops {
        rd := Wrap(rd + 1, data.Length);
      }
      empty := (empty && !pushes) || (ahead == 1 && pops);
      full := (full && !pops) || (behind == 1 && pushes);
      contents := s[|Popped(q, i)|..] + Pushed(q, i);
      assert Value() == Step(q, i) by { StepIs(q, i); }
    }
  }

  lemma FrontIs<T>(q: State<T>, s: seq<T>)
    requires Holds(q, s)
    ensures q.Valid() && (!q.empty ==> s != [] && s[0] == Front(q))
  {
    if !q.empty {
      assert Place(q, 0) == q.rd;
    }
  }

  lemma StepIs<T>(q: State<T>, i: Input<T>)
    requires q.Valid()
    ensures Step(q, i) ==
      State(if Pushes(q, i) then q.data[q.wr := i.value] else q.data,
            if Pops(q, i) then Wrap(q.rd + 1, |q.data|) else q.rd,
            if Pushes(q, i) then Wrap(q.wr + 1, |q.data|) else q.wr,
            (q.empty && !Pushes(q, i)) || (Wrap(q.wr - q.rd, |q.data|) == 1 && Pops(q, i)),
            (q.full && !Pops(q, i)) || (Wrap(q.rd - q.wr, |q.data|) == 1 && Pushes(q, i)))
  {
  }
}
