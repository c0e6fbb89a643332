/** The random core test: the emulator runs a straight line of instructions up to HLT, the hardware runs the
    same code, and the two are compared. */
module RandomTest {
  import opened Bytes
  import opened Opcodes
  import opened RegisterFile
  import opened Isa
  import opened CpuCore
  import opened CpuSteps
  import opened CpuRefinement
  import opened Emulator
  import opened Instructions
  import opened Programs

  const START: Word := 0x8000

  const HLT_BYTE: Byte := 0x02

  /** Where the emulator would look for an operand, from the machine's state. */
  function RawAddress(a: Arch, mode: Mode): nat {
    var lo, hi := Fetch(a, 1), Fetch(a, 2);
    var zp := (lo + a.r.x) % 256;
    match mode
    case ZP => lo
    case ZPX => zp
    case ZPY => (lo + a.r.y) % 256
    case INDX => ToWord(a.mem[(zp + 1) % 256], a.mem[zp])
    case INDY => ToWord(a.mem[(lo + 1) % 256], a.mem[lo]) + a.r.y
    case ABSX => ToWord(hi, lo) + a.r.x
    case ABSY => ToWord(hi, lo) + a.r.y
    case _ => ToWord(hi, lo)
  }

  /** The code is in memory from START on. */
  predicate Loaded(m: Memory, code: seq<Byte>) {
    |code| <= 0x7000 && forall k :: 0 <= k < |code| ==> m[START + k] == code[k]
  }

  /** From offset off on, the code is instructions the emulator knows, with operands in its memory, up to a
      HLT. */
  predicate Tame(a: Arch, code: seq<Byte>, off: nat)
    decreases |code| - off
  {
    off < |code| &&
    (code[off] == HLT_BYTE ||
     var o := OpcodeOf(code[off]);
     Emulated(o) && (HasAddress(o.mode) ==> RawAddress(a, o.mode) < RAM_SIZE) && off + Length(o.mode) < |code| &&
     Tame(Exec(a), code, off + Length(o.mode)))
  }

  /** The offset of the HLT the code comes to. */
  function HltAt(code: seq<Byte>, off: nat): nat
    decreases |code| - off
  {
    if off >= |code| || code[off] == HLT_BYTE then off else HltAt(code, off + Length(OpcodeOf(code[off]).mode))
  }

  /** Instructions of the table leave everything above the emulator's memory alone and go on to the next one. */
  lemma StaysLow(a: Arch, o: Opcode)
    requires Emulated(o) && (HasAddress(o.mode) ==> RawAddress(a, o.mode) < RAM_SIZE)
    ensures var e := Execute(a, o);
      e.pc == Add16(a.pc, Length(o.mode)) && forall k: Word :: k >= RAM_SIZE ==> e.mem[k] == a.mem[k]
  {
    hide ReadOp, ModifyFlags, Modified, StoreValue, RegisterOp, StatusByte, SetStatus, LoadA, Legal;
    if HasAddress(o.mode) {
      RawAgrees(a, o.mode);
      assert o.op.SAX? ==> false;
      ExecutesMemory(a, o);
    } else if o.mode.IMM? {
      ImmediateClasses(o);
    } else if o.mode.IMP? {
      ImpliedLow(a, o.op);
    }
  }

  lemma ExecutesMemory(a: Arch, o: Opcode)
    requires Emulated(o) && HasAddress(o.mode)
    ensures Execute(a, o) == ExecMemory(a, o.op, o.mode)
  {
    hide ExecMemory, Legal;
  }

  lemma ImpliedLow(a: Arch, op: Op)
    requires Emulated(Opcode(op, IMP))
    ensures var e := ExecImplied(a, op);
      e.pc == Add16(a.pc, 1) && forall k: Word :: k >= RAM_SIZE ==> e.mem[k] == a.mem[k]
  {
    hide RegisterOp, StatusByte, SetStatus, LoadA, Add16;
  }

  /** Below the end of the emulator's memory it looks where the machine looks. */
  lemma RawAgrees(a: Arch, mode: Mode)
    requires HasAddress(mode) && RawAddress(a, mode) < RAM_SIZE
    ensures EffectiveAddress(a, mode) == RawAddress(a, mode)
  {
    hide ToWord, Add16;
    var lo, hi := Fetch(a, 1), Fetch(a, 2);
    match mode {
      case INDY => SmallSum(ZeroPageWord(a.mem, lo), a.r.y);
      case ABSX => SmallSum(ToWord(hi, lo), a.r.x);
      case ABSY => SmallSum(ToWord(hi, lo), a.r.y);
      case _ =>
    }
  }

  lemma AddressShown(e: State, a: Arch, mode: Mode)
    requires e.Shows(a) && HasAddress(mode)
    ensures e.AddressOf(mode, Fetch(a, 1), Fetch(a, 2)) == RawAddress(a, mode)
  {
    hide ToWord, Add16;
    forall k: Byte
      ensures e.ram[k] == a.mem[k]
    {
      assert e.ram[..][k] == a.mem[..RAM_SIZE][k];
    }
  }

  /** The instruction at an offset, with its operand bytes, is the one the machine is about to execute. */
  lemma FetchesCode(a: Arch, code: seq<Byte>, off: nat)
    requires Loaded(a.mem, code) && off < |code| && a.pc == START + off
    ensures a.mem[a.pc] == code[off]
    ensures off + 1 < |code| ==> Fetch(a, 1) == code[off + 1]
    ensures off + 2 < |code| ==> Fetch(a, 2) == code[off + 2]
  {
    assert a.mem[START + off] == code[off];
    assert off + 1 < |code| ==> a.mem[START + (off + 1)] == code[off + 1];
    assert off + 2 < |code| ==> a.mem[START + (off + 2)] == code[off + 2];
  }

  /** One instruction keeps the code in place. */
  lemma StaysLoaded(a: Arch, code: seq<Byte>, off: nat)
    requires Loaded(a.mem, code) && off < |code| && a.pc == START + off && Tame(a, code, off) && code[off] != HLT_BYTE
    ensures var e := Exec(a); Loaded(e.mem, code) && e.pc == START + off + Length(OpcodeOf(code[off]).mode)
  {
    hide Execute, OpcodeOf, Legal;
    FetchesCode(a, code, off);
    var o := OpcodeOf(code[off]);
    StaysLow(a, o);
  }

  lemma TameStep(a: Arch, code: seq<Byte>, off: nat)
    requires Tame(a, code, off)
    ensures off < |code|
    ensures code[off] == HLT_BYTE ==> HltAt(code, off) == off
    ensures code[off] != HLT_BYTE ==>
      var o := OpcodeOf(code[off]); var next := off + Length(o.mode);
      Emulated(o) && (HasAddress(o.mode) ==> RawAddress(a, o.mode) < RAM_SIZE) && next < |code| &&
      Tame(Exec(a), code, next) && HltAt(code, off) == HltAt(code, next)
  {
    hide Exec, OpcodeOf, RawAddress, Emulated;
  }

  lemma HltDecodes()
    ensures OpcodeOf(HLT_BYTE) == Opcode(HLT, IMP)
  {
  }

  /** The emulation loop: up to the HLT the emulator keeps showing what the machine does. */
  method EmulateCode(e: State, code: seq<Byte>, ghost a: Arch) returns (ghost b: Arch)
    requires e.Shows(a) && a.pc == START && Loaded(a.mem, code) && Tame(a, code, 0)
    modifies e, e.ram
    ensures e.Shows(b) && Reaches(a, b) && Single(b.mem, b.pc, HLT) && Loaded(b.mem, code)
    ensures b.pc == START + HltAt(code, 0)
  {
    hide Exec, Reaches, Loaded, OpcodeOf, Tame, HltAt, RawAddress;
    var off := 0;
    b := Begin(a);
    TameStep(b, code, 0);
    while code[off] != HLT_BYTE
      invariant off < |code| && Tame(b, code, off) && Loaded(b.mem, code) && b.pc == START + off
      invariant e.Shows(b) && Reaches(a, b) && HltAt(code, off) == HltAt(code, 0)
      decreases |code| - off
    {
      var o := OpcodeOf(code[off]);
      TameStep(b, code, off);
      FetchesCode(b, code, off);
      StaysLoaded(b, code, off);
      if HasAddress(o.mode) {
        AddressShown(e, b, o.mode);
      }
      e.EmulateOperand(o, if off + 1 < |code| then code[off + 1] else 0, if off + 2 < |code| then code[off + 2] else 0, b);
      Extend(a, b);
      b := Exec(b);
      off := off + Length(o.mode);
      TameStep(b, code, off);
    }
    TameStep(b, code, off);
    HltDecodes();
    FetchesCode(b, code, off);
  }

  /** What the test compares when the hardware has stopped: with the same registers, memory and code to begin
      with, the core comes to the HLT after some cycles with exactly the registers and the memory of the
      emulator, and its PC is behind the HLT: startPc plus the length of code that ends in its HLT. */
  method TestPasses(e: State, code: seq<Byte>, ghost q: Core, ghost a: Arch) returns (ghost b: Arch, ghost k: nat)
    requires e.Shows(a) && a.pc == START && Loaded(a.mem, code) && Tame(a, code, 0) && Boundary(q, a, SOFT)
    modifies e, e.ram
    ensures var c := Cycles(q, Idle(k));
      Boundary(c, b, SOFT) && Single(b.mem, b.pc, HLT) && c.r == e.Regs() && c.mem[..RAM_SIZE] == e.ram[..] &&
      Pc(c) == START + HltAt(code, 0) + 1
  {
    hide Reaches, Loaded, CoreReaches, Cycles, Single, Tame, HltAt, Boundary;
    b := EmulateCode(e, code, a);
    CoreReachesToo(q, a, b);
    k := Reached(q, b);
    assert |code| <= 0x7000 by { CodeFits(a.mem, code); }
    HltInside(a, code, 0);
    BoundaryShows(Cycles(q, Idle(k)), b);
  }

  lemma CodeFits(m: Memory, code: seq<Byte>)
    requires Loaded(m, code)
    ensures |code| <= 0x7000
  {
  }

  lemma BoundaryShows(c: Core, b: Arch)
    requires Boundary(c, b, SOFT) && b.pc < 0xF000
    ensures c.r == b.r && c.mem == b.mem && Pc(c) == b.pc + 1
  {
    hide OpcodeOf;
  }

  lemma Reached(q: Core, b: Arch) returns (k: nat)
    requires CoreReaches(q, b)
    ensures Boundary(Cycles(q, Idle(k)), b, SOFT)
  {
    hide Boundary, Cycles;
    k :| Boundary(Cycles(q, Idle(k)), b, SOFT);
  }

  lemma {:induction false} HltInside(a: Arch, code: seq<Byte>, off: nat)
    requires Tame(a, code, off) && |code| <= 0x7000
    ensures HltAt(code, off) < 0x7000
    decreases |code| - off
  {
    hide Exec, OpcodeOf, RawAddress;
    if code[off] != HLT_BYTE {
      HltInside(Exec(a), code, off + Length(OpcodeOf(code[off]).mode));
    }
  }
}
