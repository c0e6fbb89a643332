/** Programs: the core runs what the instruction-level machine runs, and nested calls come back. */
module Programs {
  import opened Bytes
  import opened Opcodes
  import opened RegisterFile
  import opened Isa
  import opened CpuCore
  import opened CpuSteps
  import opened CpuStack
  import opened CpuRefinement
  import opened Instructions

  // ---------------------------------------------------------------------------------------------
  // Without interrupts
  // ---------------------------------------------------------------------------------------------

  /** How long n instructions take. */
  function Clocks(a: Arch, n: nat): nat
    decreases n
  {
    if n == 0 then 0 else Latency(a, SOFT) + Clocks(Exec(a), n - 1)
  }

  function Idle(n: nat): seq<Service> { seq(n, _ => SOFT) }

  /** With no request pending the core runs n instructions in exactly Clocks(a, n) cycles. */
  lemma {:induction false} CoreRuns(q: Core, a: Arch, n: nat)
    requires Boundary(q, a, SOFT)
    ensures Boundary(Cycles(q, Idle(Clocks(a, n))), Run(a, n), SOFT)
    decreases n
  {
    hide Boundary, Cycle, Exec, Latency, Arrives;
    if n == 0 {
    } else {
      var l := Latency(a, SOFT);
      InstructionRefines(q, a, SOFT, Idle(l));
      ArrivesAt(q, Idle(l), Exec(a));
      CoreRuns(Cycles(q, Idle(l)), Exec(a), n - 1);
      CyclesAdd(q, Idle(l), Idle(Clocks(Exec(a), n - 1)));
      assert Idle(l) + Idle(Clocks(Exec(a), n - 1)) == Idle(Clocks(a, n));
    }
  }

  /** Some number of cycles without requests takes the core to the instruction at b. */
  ghost predicate CoreReaches(q: Core, b: Arch) {
    exists k: nat :: Boundary(Cycles(q, Idle(k)), b, SOFT)
  }

  lemma CoreReachesToo(q: Core, a: Arch, b: Arch)
    requires Boundary(q, a, SOFT) && Reaches(a, b)
    ensures CoreReaches(q, b)
  {
    hide Boundary, Cycles, Run, Clocks;
    var n: nat :| Run(a, n) == b;
    CoreRuns(q, a, n);
  }

  // ---------------------------------------------------------------------------------------------
  // Nested calls
  // ---------------------------------------------------------------------------------------------

  /** A stretch of execution that leaves the stack as it found it.  A call is JSR, its body, RTS; a
      save is PHA or PHP, its body, PLA or PLP. */
  datatype Flow = Done | Plain(rest: Flow) | Call(body: Flow, rest: Flow) | Save(body: Flow, rest: Flow)

  function Steps(f: Flow): nat {
    match f
    case Done => 0
    case Plain(rest) => 1 + Steps(rest)
    case Call(body, rest) => 2 + Steps(body) + Steps(rest)
    case Save(body, rest) => 2 + Steps(body) + Steps(rest)
  }

  function Current(a: Arch): Op { var o := OpcodeOf(a.mem[a.pc]); if o.mode.IMP? then o.op else ILLEGAL }

  /** The bytes pushed and not yet pulled, live of them, are the same in both machines. */
  predicate Kept(a: Arch, b: Arch, live: nat) {
    forall k :: 1 <= k <= live ==> Stacked(b, k) == Stacked(a, k)
  }

  /** The run from a follows f.  Instructions between calls and saves may do anything that neither
      moves the stack pointer nor overwrites a byte that is still to be pulled, and the bytes to be
      pulled fit the stack page. */
  predicate Nested(a: Arch, f: Flow, live: nat)
    decreases f
  {
    match f
    case Done => true
    case Plain(rest) => Exec(a).r.s == a.r.s && Kept(a, Exec(a), live) && Nested(Exec(a), rest, live)
    case Call(body, rest) =>
      var b := Run(Exec(a), Steps(body));
      live + 2 <= 0x100 && Current(a).JSR? && Nested(Exec(a), body, live + 2) && Current(b).RTS? &&
      Nested(Exec(b), rest, live)
    case Save(body, rest) =>
      var b := Run(Exec(a), Steps(body));
      live + 1 <= 0x100 && (Current(a).PHA? || Current(a).PHP?) && Nested(Exec(a), body, live + 1) &&
      (Current(b).PLA? || Current(b).PLP?) && Nested(Exec(b), rest, live)
  }

  /** Every RTS continues after its own JSR, every pull finds what its own push left, and each of them
      finds the stack pointer where it was. */
  predicate Balanced(a: Arch, f: Flow)
    decreases f
  {
    match f
    case Done => true
    case Plain(rest) => Balanced(Exec(a), rest)
    case Call(body, rest) =>
      var c := Exec(Run(Exec(a), Steps(body)));
      c.pc == Add16(a.pc, 3) && c.r.s == a.r.s && Balanced(Exec(a), body) && Balanced(c, rest)
    case Save(body, rest) =>
      var b := Run(Exec(a), Steps(body));
      var c := Exec(b);
      c.r.s == a.r.s && Stacked(b, 1) == PushedValue(a, Current(a)) &&
      (Current(a).PHA? && Current(b).PLA? ==> c.r.ac == a.r.ac) &&
      Balanced(Exec(a), body) && Balanced(c, rest)
  }

  lemma JsrPushes(a: Arch, live: nat)
    requires Current(a).JSR? && live + 2 <= 0x100
    ensures var c := Exec(a);
      c.r.s == Add8(a.r.s, -2) && Stacked(c, 1) == Lo(Add16(a.pc, 2)) && Stacked(c, 2) == Hi(Add16(a.pc, 2)) &&
      forall k :: 1 <= k <= live ==> Stacked(c, k + 2) == Stacked(a, k)
  {
    hide OpcodeOf, Hi, Lo, ToWord, Add8, Add16;
    var s, c := a.r.s, Exec(a);
    assert c == JumpToSubroutine(a);
    Add8Differs(s, 0, 1);
    Add8Adds(s, -1, -1);
    Add8Adds(s, -2, 1);
    Add8Adds(s, -2, 2);
    Add8Differs(s, -1, 0);
    forall k | 1 <= k <= live
      ensures Stacked(c, k + 2) == Stacked(a, k)
    {
      Add8Adds(s, -2, k + 2);
      Add8Differs(s, 0, k);
      Add8Differs(s, -1, k);
    }
  }

  lemma RtsPulls(b: Arch, live: nat)
    requires Current(b).RTS?
    ensures var c := Exec(b);
      c.r.s == Add8(b.r.s, 2) && c.pc == Add16(ToWord(Stacked(b, 2), Stacked(b, 1)), 1) &&
      forall k :: 1 <= k <= live ==> Stacked(c, k) == Stacked(b, k + 2)
  {
    hide OpcodeOf, Hi, Lo, ToWord, Add8, Add16;
    assert Exec(b) == ReturnFromSubroutine(b);
    forall k | 1 <= k <= live
      ensures Stacked(Exec(b), k) == Stacked(b, k + 2)
    {
      Add8Adds(b.r.s, 2, k);
    }
  }

  lemma SavePushes(a: Arch, live: nat)
    requires (Current(a).PHA? || Current(a).PHP?) && live + 1 <= 0x100
    ensures var c := Exec(a);
      c.r.s == Add8(a.r.s, -1) && Stacked(c, 1) == PushedValue(a, Current(a)) &&
      forall k :: 1 <= k <= live ==> Stacked(c, k + 1) == Stacked(a, k)
  {
    hide OpcodeOf, Hi, Lo, ToWord, Add8, Add16, StatusByte;
    var s, c := a.r.s, Exec(a);
    assert c == Next(Push(a, PushedValue(a, Current(a))), IMP);
    Add8Adds(s, -1, 1);
    Add8Differs(s, -1, 0);
    forall k | 1 <= k <= live
      ensures Stacked(c, k + 1) == Stacked(a, k)
    {
      Add8Adds(s, -1, k + 1);
      Add8Differs(s, 0, k);
    }
  }

  lemma RestorePulls(b: Arch, live: nat)
    requires Current(b).PLA? || Current(b).PLP?
    ensures var c := Exec(b);
      c.r.s == Add8(b.r.s, 1) && (Current(b).PLA? ==> c.r.ac == Stacked(b, 1)) &&
      forall k :: 1 <= k <= live ==> Stacked(c, k) == Stacked(b, k + 1)
  {
    hide OpcodeOf, Hi, Lo, ToWord, Add8, Add16, Bit;
    forall k | 1 <= k <= live
      ensures Stacked(Exec(b), k) == Stacked(b, k + 1)
    {
      Add8Adds(b.r.s, 1, k);
    }
  }

  /** One call whose body b leaves the stack as it found it. */
  lemma CallComesBack(a: Arch, b: Arch, live: nat)
    requires Current(a).JSR? && live + 2 <= 0x100 && Current(b).RTS?
    requires b.r.s == Exec(a).r.s && Kept(Exec(a), b, live + 2)
    ensures var c := Exec(b); c.pc == Add16(a.pc, 3) && c.r.s == a.r.s && Kept(a, c, live)
  {
    hide Exec, Hi, Lo, Add8, Add16, ToWord, Current, Stacked;
    JsrPushes(a, live);
    RtsPulls(b, live);
    assert Stacked(b, 1) == Stacked(Exec(a), 1) && Stacked(b, 2) == Stacked(Exec(a), 2);
    Halves(Add16(a.pc, 2));
    Add16Adds(a.pc, 2, 1);
    Add8Adds(a.r.s, -2, 2);
    Add8Differs(a.r.s, -1, 0);
  }

  /** One push and the pull that matches it. */
  lemma SaveComesBack(a: Arch, b: Arch, live: nat)
    requires (Current(a).PHA? || Current(a).PHP?) && live + 1 <= 0x100 && (Current(b).PLA? || Current(b).PLP?)
    requires b.r.s == Exec(a).r.s && Kept(Exec(a), b, live + 1)
    ensures var c := Exec(b);
      c.r.s == a.r.s && Stacked(b, 1) == PushedValue(a, Current(a)) && Kept(a, c, live) &&
      (Current(a).PHA? && Current(b).PLA? ==> c.r.ac == a.r.ac)
  {
    hide Exec, Hi, Lo, Add8, Add16, ToWord, Current, Stacked, StatusByte;
    SavePushes(a, live);
    RestorePulls(b, live);
    assert Stacked(b, 1) == Stacked(Exec(a), 1);
    Add8Adds(a.r.s, -1, 1);
    Add8Differs(a.r.s, -1, 0);
  }

  lemma KeptTrans(a: Arch, b: Arch, c: Arch, live: nat)
    requires Kept(a, b, live) && Kept(b, c, live)
    ensures Kept(a, c, live)
  {
    hide Stacked;
  }

  lemma KeptSelf(a: Arch, live: nat)
    ensures Kept(a, a, live)
  {
    hide Stacked;
  }

  /** After any well-nested tree of calls and saves the stack pointer and the live stack bytes are as
      before, and every return has gone to the byte after its own call. */
  lemma {:induction false} CallsReturn(a: Arch, f: Flow, live: nat)
    requires Nested(a, f, live)
    ensures var e := Run(a, Steps(f)); e.r.s == a.r.s && Kept(a, e, live)
    ensures Balanced(a, f)
    decreases f
  {
    hide Exec, Add16, Current, PushedValue, Stacked, Kept, Run;
    match f {
      case Done =>
        assert Run(a, 0) == a by { RunNone(a); }
        KeptSelf(a, live);
      case Plain(rest) =>
        CallsReturn(Exec(a), rest, live);
        RunOne(a, Steps(rest));
        KeptTrans(a, Exec(a), Run(a, Steps(f)), live);
      case Call(body, rest) =>
        var b := Run(Exec(a), Steps(body));
        CallsReturn(Exec(a), body, live + 2);
        CallComesBack(a, b, live);
        CallsReturn(Exec(b), rest, live);
        RunThrough(a, Steps(body), Steps(rest));
        KeptTrans(a, Exec(b), Run(a, Steps(f)), live);
      case Save(body, rest) =>
        var b := Run(Exec(a), Steps(body));
        CallsReturn(Exec(a), body, live + 1);
        SaveComesBack(a, b, live);
        CallsReturn(Exec(b), rest, live);
        RunThrough(a, Steps(body), Steps(rest));
        KeptTrans(a, Exec(b), Run(a, Steps(f)), live);
    }
  }

  lemma RunNone(a: Arch)
    ensures Run(a, 0) == a
  {
    hide Exec;
  }

  lemma RunOne(a: Arch, n: nat)
    ensures Run(a, 1 + n) == Run(Exec(a), n)
  {
    hide Exec;
  }

  lemma RunThrough(a: Arch, m: nat, n: nat)
    ensures Run(a, 2 + m + n) == Run(Exec(Run(Exec(a), m)), n)
  {
    hide Exec;
    RunAdds(Exec(a), m, 1 + n);
  }

  /** On the core: its stack pointer register holds address bytes inside a call or return, but at the
      end of the tree it holds what it held at the start. */
  lemma CoreCallsReturn(q: Core, a: Arch, f: Flow, live: nat)
    requires Boundary(q, a, SOFT) && Nested(a, f, live)
    ensures var e := Cycles(q, Idle(Clocks(a, Steps(f))));
      Boundary(e, Run(a, Steps(f)), SOFT) && e.r.s == q.r.s &&
      forall k :: 1 <= k <= live ==> e.mem[ToWord(1, Add8(q.r.s, k))] == q.mem[ToWord(1, Add8(q.r.s, k))]
  {
    hide Exec, Hi, Lo, Add8, Add16, ToWord, Current, Cycles, OpcodeOf, Clocks;
    CoreRuns(q, a, Steps(f));
    CallsReturn(a, f, live);
    forall k | 1 <= k <= live
      ensures Run(a, Steps(f)).mem[ToWord(1, Add8(a.r.s, k))] == a.mem[ToWord(1, Add8(a.r.s, k))]
    {
      assert Stacked(Run(a, Steps(f)), k) == Stacked(a, k);
    }
  }
}
