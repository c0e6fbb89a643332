/** Running assembled programs on the instruction-level machine, one instruction a lemma.  Each lemma
    extends a run from s that has reached a by the instruction at a. */
module Instructions {
  import opened Bytes
  import opened Opcodes
  import opened RegisterFile
  import opened Isa

  ghost predicate Reaches(a: Arch, b: Arch) { exists n: nat :: Run(a, n) == b }

  lemma Begin(a: Arch) returns (b: Arch)
    ensures Reaches(a, b) && b == a
  {
    hide Exec;
    b := a;
    assert Run(a, 0) == a;
  }

  lemma Extend(s: Arch, a: Arch)
    requires Reaches(s, a)
    ensures Reaches(s, Exec(a))
  {
    hide Exec;
    var n: nat :| Run(s, n) == a;
    RunAdds(s, n, 1);
    assert Run(a, 1) == Exec(a);
  }

  lemma Chain(a: Arch, b: Arch, c: Arch)
    requires Reaches(a, b) && Reaches(b, c)
    ensures Reaches(a, c)
  {
    hide Exec;
    var m: nat :| Run(a, m) == b;
    var n: nat :| Run(b, n) == c;
    RunAdds(a, m, n);
  }

  /** The instruction at pc, with the byte that follows the opcode. */
  predicate Line(m: Memory, pc: Word, o: Opcode, arg: Byte) {
    OpcodeOf(m[pc]) == o && m[Add16(pc, 1)] == arg
  }

  /** A one-byte instruction at pc. */
  predicate Single(m: Memory, pc: Word, op: Op) { OpcodeOf(m[pc]) == Opcode(op, IMP) }

  predicate Reads(op: Op) { IsAlu(op) || IsLoad(op) }

  lemma NextPc(pc: Word)
    requires pc < 0xFFF0
    ensures Add16(pc, 1) == pc + 1 && Add16(pc, 2) == pc + 2
  {
  }

  lemma Immediate(s: Arch, a: Arch, op: Op, arg: Byte) returns (b: Arch)
    requires Reaches(s, a) && a.pc < 0xFFF0 && Reads(op) && Line(a.mem, a.pc, Opcode(op, IMM), arg)
    ensures Reaches(s, b) && b == Arch(ReadOp(a.r, op, arg), a.pc + 2, a.mem)
  {
    hide Reaches, OpcodeOf, ReadOp, Add16;
    Extend(s, a);
    NextPc(a.pc);
    b := Exec(a);
  }

  lemma ZeroPage(s: Arch, a: Arch, op: Op, arg: Byte) returns (b: Arch)
    requires Reaches(s, a) && a.pc < 0xFFF0 && Reads(op) && Line(a.mem, a.pc, Opcode(op, ZP), arg)
    ensures Reaches(s, b) && b == Arch(ReadOp(a.r, op, a.mem[arg]), a.pc + 2, a.mem)
  {
    hide Reaches, OpcodeOf, ReadOp, Add16;
    Extend(s, a);
    NextPc(a.pc);
    b := Exec(a);
  }

  lemma StoreZeroPage(s: Arch, a: Arch, op: Op, arg: Byte) returns (b: Arch)
    requires Reaches(s, a) && a.pc < 0xFFF0 && IsStore(op) && Line(a.mem, a.pc, Opcode(op, ZP), arg)
    ensures Reaches(s, b) && b == Arch(a.r, a.pc + 2, a.mem[arg := StoreValue(a.r, op)])
  {
    hide Reaches, OpcodeOf, StoreValue, Add16;
    Extend(s, a);
    NextPc(a.pc);
    b := Exec(a);
  }

  lemma IndirectY(s: Arch, a: Arch, op: Op, arg: Byte) returns (b: Arch)
    requires Reaches(s, a) && a.pc < 0xFFF0 && Reads(op) && Line(a.mem, a.pc, Opcode(op, INDY), arg)
    ensures var ea := Add16(ZeroPageWord(a.mem, arg), a.r.y);
      Reaches(s, b) && b == Arch(ReadOp(a.r, op, a.mem[ea]), a.pc + 2, a.mem)
  {
    hide Reaches, OpcodeOf, ReadOp, Add16, ZeroPageWord;
    Extend(s, a);
    NextPc(a.pc);
    b := Exec(a);
  }

  lemma StoreIndirectY(s: Arch, a: Arch, arg: Byte) returns (b: Arch)
    requires Reaches(s, a) && a.pc < 0xFFF0 && Line(a.mem, a.pc, Opcode(STA, INDY), arg)
    ensures var ea := Add16(ZeroPageWord(a.mem, arg), a.r.y);
      Reaches(s, b) && b == Arch(a.r, a.pc + 2, a.mem[ea := a.r.ac])
  {
    hide Reaches, OpcodeOf, Add16, ZeroPageWord;
    Extend(s, a);
    NextPc(a.pc);
    b := Exec(a);
  }

  lemma Implied(s: Arch, a: Arch, op: Op) returns (b: Arch)
    requires Reaches(s, a) && a.pc < 0xFFF0 && (IsFlagOp(op) || IsStep(op) || IsTransfer(op))
    requires Single(a.mem, a.pc, op)
    ensures Reaches(s, b) && b == Arch(RegisterOp(a.r, op), a.pc + 1, a.mem)
  {
    hide Reaches, OpcodeOf, RegisterOp, Add16;
    Extend(s, a);
    NextPc(a.pc);
    b := Exec(a);
  }

  lemma PushA(s: Arch, a: Arch) returns (b: Arch)
    requires Reaches(s, a) && a.pc < 0xFFF0 && Single(a.mem, a.pc, PHA)
    ensures Reaches(s, b) && b == Arch(a.r.(s := Add8(a.r.s, -1)), a.pc + 1, a.mem[ToWord(1, a.r.s) := a.r.ac])
  {
    hide Reaches, OpcodeOf, Add8, Add16, ToWord;
    Extend(s, a);
    NextPc(a.pc);
    b := Exec(a);
  }

  lemma PullA(s: Arch, a: Arch) returns (b: Arch)
    requires Reaches(s, a) && a.pc < 0xFFF0 && Single(a.mem, a.pc, PLA)
    ensures var sp := Add8(a.r.s, 1);
      Reaches(s, b) && b == Arch(LoadA(a.r.(s := sp), a.mem[ToWord(1, sp)]), a.pc + 1, a.mem)
  {
    hide Reaches, OpcodeOf, Add8, Add16, ToWord, LoadA;
    Extend(s, a);
    NextPc(a.pc);
    b := Exec(a);
  }

  lemma Branch(s: Arch, a: Arch, op: Op, arg: Byte, target: Word) returns (b: Arch)
    requires Reaches(s, a) && a.pc < 0xFFF0 && IsBranch(op) && Line(a.mem, a.pc, Opcode(op, REL), arg)
    requires a.pc + 2 + Signed(arg) == target
    ensures Reaches(s, b) && b == a.(pc := if BranchTaken(a.r, op) then target else a.pc + 2)
  {
    hide Reaches, OpcodeOf, BranchTaken, Signed;
    Extend(s, a);
    NextPc(a.pc);
    b := Exec(a);
  }

  lemma Jump(s: Arch, a: Arch, lo: Byte, hi: Byte) returns (b: Arch)
    requires Reaches(s, a) && a.pc < 0xFFF0 && Line(a.mem, a.pc, Opcode(JMP, ABS), lo) && a.mem[Add16(a.pc, 2)] == hi
    ensures Reaches(s, b) && b == a.(pc := ToWord(hi, lo))
  {
    hide Reaches, OpcodeOf, Add16, ToWord;
    Extend(s, a);
    NextPc(a.pc);
    b := Exec(a);
  }

  /** DEY and INY where Y does not wrap. */
  lemma StepY(s: Arch, a: Arch, op: Op) returns (b: Arch)
    requires Reaches(s, a) && a.pc < 0xFFF0 && (op.DEY? || op.INY?) && Single(a.mem, a.pc, op)
    requires if op.DEY? then a.r.y > 0 else a.r.y < 0xFF
    ensures Reaches(s, b) && b == Arch(LoadY(a.r, if op.DEY? then a.r.y - 1 else a.r.y + 1), a.pc + 1, a.mem)
  {
    hide Reaches, Single, LoadY;
    b := Implied(s, a, op);
  }

  /** What a subtraction through (arg),Y leaves in the carry: no borrow. */
  lemma SubtractY(s: Arch, a: Arch, arg: Byte) returns (b: Arch)
    requires Reaches(s, a) && a.pc < 0xFFF0 && Line(a.mem, a.pc, Opcode(SBC, INDY), arg)
    ensures var m := a.mem[Add16(ZeroPageWord(a.mem, arg), a.r.y)];
      Reaches(s, b) && b.pc == a.pc + 2 && b.mem == a.mem && b.r.x == a.r.x && b.r.y == a.r.y && b.r.s == a.r.s &&
      (b.r.c <==> a.r.ac >= m + B(!a.r.c))
  {
    hide Reaches, Line, Add16, ZeroPageWord, Signed;
    b := IndirectY(s, a, SBC, arg);
  }

  /** CPY sets the zero flag exactly on equality. */
  lemma CompareY(s: Arch, a: Arch, arg: Byte) returns (b: Arch)
    requires Reaches(s, a) && a.pc < 0xFFF0 && Line(a.mem, a.pc, Opcode(CPY, IMM), arg)
    ensures Reaches(s, b) && b.pc == a.pc + 2 && b.mem == a.mem && b.r.x == a.r.x && b.r.y == a.r.y && b.r.s == a.r.s &&
      (b.r.z <==> a.r.y == arg)
  {
    hide Reaches, Line;
    b := Immediate(s, a, CPY, arg);
  }

  /** BIT copies bit 7 of its operand to N. */
  lemma TestSign(s: Arch, a: Arch, arg: Byte) returns (b: Arch)
    requires Reaches(s, a) && a.pc < 0xFFF0 && Line(a.mem, a.pc, Opcode(BIT, ZP), arg)
    ensures Reaches(s, b) && b.pc == a.pc + 2 && b.mem == a.mem && b.r.x == a.r.x && b.r.y == a.r.y && b.r.s == a.r.s &&
      (b.r.n <==> a.mem[arg] >= 0x80)
  {
    hide Reaches, Line, And8, Bit;
    b := ZeroPage(s, a, BIT, arg);
  }
}
