/** The shipped 16-bit bubble sort, as assembled at 0x8000, run on the instruction-level machine. */
module Bubble16 {
  import opened Bytes
  import opened Opcodes
  import opened RegisterFile
  import opened Isa
  import opened CpuCore
  import opened CpuSteps
  import opened Instructions
  import opened Programs
  import opened Sorting

  predicate StartLines(m: Memory) {
    Line(m, 0x8000, Opcode(LDX, IMM), 0xFF) && Single(m, 0x8002, TXS) &&
    Line(m, 0x8003, Opcode(LDY, IMM), 0x00) && Line(m, 0x8005, Opcode(STY, ZP), 0x32) &&
    Line(m, 0x8007, Opcode(LDA, INDY), 0x30) && Single(m, 0x8009, TAY)
  }

  predicate CompareLines(m: Memory) {
    Line(m, 0x800A, Opcode(LDA, INDY), 0x30) && Single(m, 0x800C, PHA) && Single(m, 0x800D, DEY) &&
    Line(m, 0x800E, Opcode(LDA, INDY), 0x30) && Single(m, 0x8010, SEC) && Single(m, 0x8011, DEY) &&
    Single(m, 0x8012, DEY) && Line(m, 0x8013, Opcode(SBC, INDY), 0x30) && Single(m, 0x8015, PLA) &&
    Single(m, 0x8016, INY) && Line(m, 0x8017, Opcode(SBC, INDY), 0x30) &&
    Line(m, 0x8019, Opcode(BCC, REL), 0x09)
  }

  predicate NextLines(m: Memory) {
    Line(m, 0x801B, Opcode(CPY, IMM), 0x02) && Line(m, 0x801D, Opcode(BNE, REL), 0xEB) &&
    Line(m, 0x801F, Opcode(BIT, ZP), 0x32) && Line(m, 0x8021, Opcode(BMI, REL), 0xE0) && Single(m, 0x8023, HLT)
  }

  predicate SwapLines(m: Memory) {
    Line(m, 0x8024, Opcode(LDA, INDY), 0x30) && Single(m, 0x8026, PHA) && Single(m, 0x8027, DEY) &&
    Line(m, 0x8028, Opcode(LDA, INDY), 0x30) && Single(m, 0x802A, PHA) && Single(m, 0x802B, INY) &&
    Single(m, 0x802C, INY) && Single(m, 0x802D, INY) && Line(m, 0x802E, Opcode(LDA, INDY), 0x30) &&
    Single(m, 0x8030, PHA) && Single(m, 0x8031, DEY) && Line(m, 0x8032, Opcode(LDA, INDY), 0x30) &&
    Single(m, 0x8034, DEY) && Single(m, 0x8035, DEY) && Line(m, 0x8036, Opcode(STA, INDY), 0x30) &&
    Line(m, 0x8038, Opcode(LDX, IMM), 0x03)
  }

  predicate LoopLines(m: Memory) {
    Single(m, 0x803A, INY) && Single(m, 0x803B, PLA) && Line(m, 0x803C, Opcode(STA, INDY), 0x30) &&
    Single(m, 0x803E, DEX) && Line(m, 0x803F, Opcode(BNE, REL), 0xF9)
  }

  predicate TailLines(m: Memory) {
    Line(m, 0x8041, Opcode(LDA, IMM), 0xFF) && Line(m, 0x8043, Opcode(STA, ZP), 0x32) &&
    Line(m, 0x8045, Opcode(CPY, IMM), 0x04) && Line(m, 0x8047, Opcode(BEQ, REL), 0xBA) &&
    Single(m, 0x8049, DEY) && Single(m, 0x804A, DEY) && Line(m, 0x804B, Opcode(JMP, ABS), 0x0A) &&
    m[0x804D] == 0x80
  }

  /** The program is at 0x8000. */
  predicate Loaded(m: Memory) {
    StartLines(m) && CompareLines(m) && NextLines(m) && SwapLines(m) && LoopLines(m) && TailLines(m)
  }

  predicate InProgram(k: Word) { 0x8000 <= k < 0x804E }

  /** Bytes the program uses for itself: the list pointer, the exchange flag, and three stack bytes. */
  predicate Free(k: Word) { !InProgram(k) && !(0x30 <= k <= 0x32) && !(0x1FD <= k <= 0x1FF) }

  /** Where byte k of the list is. */
  function Cell(base: Word, k: nat): Word { Add16(base, k) }

  /** The pointer at 0x30 is to a list of n 16-bit elements, preceded by its length in bytes, that
      overlaps nothing the program uses. */
  predicate ListAt(m: Memory, base: Word, n: nat) {
    2 <= n <= 127 && ZeroPageWord(m, 0x30) == base && m[Cell(base, 0)] == 2 * n &&
    forall k :: 0 <= k <= 2 * n ==> Free(Cell(base, k))
  }

  predicate Ready(m: Memory, base: Word, n: nat) { Loaded(m) && ListAt(m, base, n) }

  /** Element j of the list; the low byte comes first. */
  function Element(m: Memory, base: Word, j: nat): Word { ToWord(m[Cell(base, 2 * j + 2)], m[Cell(base, 2 * j + 1)]) }

  function Elements(m: Memory, base: Word, n: nat): (xs: seq<int>)
    ensures |xs| == n
  {
    seq(n, j requires 0 <= j < n => Element(m, base, j))
  }

  // ---------------------------------------------------------------------------------------------
  // Memory
  // ---------------------------------------------------------------------------------------------

  lemma Untouched(m: Memory, k: Word, v: Byte)
    requires Loaded(m) && !InProgram(k)
    ensures Loaded(m[k := v])
  {
    hide OpcodeOf;
  }

  /** The parts of the listing. */
  lemma Listing(m: Memory, base: Word, n: nat)
    requires Ready(m, base, n)
    ensures StartLines(m) && CompareLines(m) && NextLines(m) && SwapLines(m) && LoopLines(m) && TailLines(m)
    ensures ZeroPageWord(m, 0x30) == base && m[Cell(base, 0)] == 2 * n && 2 <= n <= 127
  {
  }

  lemma CellsDiffer(base: Word, i: nat, k: nat)
    requires i < k < 0x1_0000
    ensures Cell(base, i) != Cell(base, k)
  {
  }

  /** Writing a byte the program keeps for itself. */
  lemma ScratchWrite(m: Memory, base: Word, n: nat, k: Word, v: Byte)
    requires Ready(m, base, n) && (k == 0x32 || 0x1FD <= k <= 0x1FF)
    ensures Ready(m[k := v], base, n) && Elements(m[k := v], base, n) == Elements(m, base, n)
    ensures forall i :: 0 <= i <= 2 * n ==> m[k := v][Cell(base, i)] == m[Cell(base, i)]
  {
    hide Loaded, Cell, ToWord;
    Untouched(m, k, v);
    assert forall i :: 0 <= i <= 2 * n ==> Free(Cell(base, i));
    assert Add8(0x30, 1) == 0x31;
  }

  /** Writing a byte of the list. */
  lemma CellWrite(m: Memory, base: Word, n: nat, i: nat, v: Byte)
    requires Ready(m, base, n) && 1 <= i <= 2 * n
    ensures Ready(m[Cell(base, i) := v], base, n)
    ensures forall k :: 0 <= k <= 2 * n && k != i ==> m[Cell(base, i) := v][Cell(base, k)] == m[Cell(base, k)]
    ensures var p := m[Cell(base, i) := v]; p[0x1FD] == m[0x1FD] && p[0x1FE] == m[0x1FE] && p[0x1FF] == m[0x1FF]
  {
    hide Loaded, Cell, ToWord;
    assert Free(Cell(base, i));
    Untouched(m, Cell(base, i), v);
    assert Add8(0x30, 1) == 0x31;
    forall k | 0 <= k <= 2 * n && k != i
      ensures Cell(base, i) != Cell(base, k)
    {
      if i < k {
        CellsDiffer(base, i, k);
      } else {
        CellsDiffer(base, k, i);
      }
    }
  }

  // ---------------------------------------------------------------------------------------------
  // Basic blocks
  // ---------------------------------------------------------------------------------------------

  lemma Start(s: Arch, a: Arch, base: Word, n: nat) returns (b: Arch)
    requires Reaches(s, a) && a.pc == 0x8000 && Ready(a.mem, base, n)
    ensures Reaches(s, b) && b.pc == 0x8003 && b.r.s == 0xFF && b.mem == a.mem
  {
    hide Reaches, Line, Single, ListAt;
    b := Immediate(s, a, LDX, 0xFF);
    b := Implied(s, b, TXS);
  }

  /** Clear the exchange flag and point at the last element. */
  lemma BeginSweep(s: Arch, a: Arch, base: Word, n: nat) returns (b: Arch)
    requires Reaches(s, a) && a.pc == 0x8003 && a.r.s == 0xFF && Ready(a.mem, base, n)
    ensures Reaches(s, b) && b.pc == 0x800A && b.r.s == 0xFF && b.r.y == 2 * n && b.mem == a.mem[0x32 := 0]
  {
    hide Reaches, Line, Single, Add16, ZeroPageWord, Ready, Elements, CompareLines, NextLines, SwapLines, LoopLines, TailLines;
    Listing(a.mem, base, n);
    ScratchWrite(a.mem, base, n, 0x32, 0);
    Listing(a.mem[0x32 := 0], base, n);
    b := Immediate(s, a, LDY, 0x00);
    b := StoreZeroPage(s, b, STY, 0x32);
    b := IndirectY(s, b, LDA, 0x30);
    b := Implied(s, b, TAY);
  }

  /** The memory while elements are compared: the high byte of element j is on the stack. */
  function Comparing(m: Memory, base: Word, j: nat): Memory { m[0x1FF := m[Cell(base, 2 * j + 2)]] }

  lemma ComparingReady(m: Memory, base: Word, n: nat, j: nat)
    requires Ready(m, base, n) && 1 <= j < n
    ensures var p := Comparing(m, base, j);
      Ready(p, base, n) && CompareLines(p) && ZeroPageWord(p, 0x30) == base &&
      p[Cell(base, 2 * j + 1)] == m[Cell(base, 2 * j + 1)] && p[Cell(base, 2 * j)] == m[Cell(base, 2 * j)] &&
      p[Cell(base, 2 * j - 1)] == m[Cell(base, 2 * j - 1)] && p[0x1FF] == m[Cell(base, 2 * j + 2)]
  {
    hide Cell, Ready, Elements;
    Listing(m, base, n);
    ScratchWrite(m, base, n, 0x1FF, m[Cell(base, 2 * j + 2)]);
    Listing(Comparing(m, base, j), base, n);
  }

  /** Save the high byte and subtract the low byte of the preceding element. */
  lemma CompareLow(s: Arch, a: Arch, base: Word, n: nat, j: nat) returns (b: Arch)
    requires Reaches(s, a) && a.pc == 0x800A && a.r.s == 0xFF && Ready(a.mem, base, n)
    requires 1 <= j < n && a.r.y == 2 * j + 2
    ensures Reaches(s, b) && b.pc == 0x8015 && b.r.s == 0xFE && b.r.y == 2 * j - 1 && b.mem == Comparing(a.mem, base, j)
    ensures b.r.c == (a.mem[Cell(base, 2 * j + 1)] >= a.mem[Cell(base, 2 * j - 1)])
  {
    hide Reaches, Line, Single, Add16, ZeroPageWord, Ready, Signed;
    Listing(a.mem, base, n);
    ComparingReady(a.mem, base, n, j);
    b := IndirectY(s, a, LDA, 0x30);
    b := PushA(s, b);
    b := StepY(s, b, DEY);
    b := IndirectY(s, b, LDA, 0x30);
    b := Implied(s, b, SEC);
    b := StepY(s, b, DEY);
    b := StepY(s, b, DEY);
    b := SubtractY(s, b, 0x30);
  }

  /** Pull the high byte, subtract that of the preceding element and branch on the borrow. */
  lemma CompareHigh(s: Arch, a: Arch, base: Word, n: nat, j: nat, m: Memory) returns (b: Arch)
    requires Ready(m, base, n) && 1 <= j < n && a.mem == Comparing(m, base, j)
    requires Reaches(s, a) && a.pc == 0x8015 && a.r.s == 0xFE && a.r.y == 2 * j - 1
    requires a.r.c == (m[Cell(base, 2 * j + 1)] >= m[Cell(base, 2 * j - 1)])
    ensures Reaches(s, b) && b.r.s == 0xFF && b.r.y == 2 * j && b.mem == a.mem
    ensures b.pc == if Element(m, base, j) < Element(m, base, j - 1) then 0x8024 else 0x801B
  {
    hide Reaches, Line, Single, Add16, ZeroPageWord, Ready;
    Listing(m, base, n);
    ComparingReady(m, base, n, j);
    assert Element(m, base, j - 1) == ToWord(m[Cell(base, 2 * j)], m[Cell(base, 2 * j - 1)]);
    b := PullA(s, a);
    b := StepY(s, b, INY);
    b := SubtractY(s, b, 0x30);
    b := Branch(s, b, BCC, 0x09, 0x8024);
  }

  /** Neighbours in order: go on to the next pair, or end the sweep. */
  lemma InOrder(s: Arch, a: Arch, base: Word, n: nat, j: nat) returns (b: Arch)
    requires Reaches(s, a) && a.pc == 0x801B && Ready(a.mem, base, n) && 1 <= j < n && a.r.y == 2 * j
    ensures Reaches(s, b) && b.r.s == a.r.s && b.r.y == a.r.y && b.mem == a.mem
    ensures b.pc == if j > 1 then 0x800A else if a.mem[0x32] >= 0x80 then 0x8003 else 0x8023
  {
    hide Reaches, Line, Single, Ready;
    Listing(a.mem, base, n);
    b := CompareY(s, a, 0x02);
    b := Branch(s, b, BNE, 0xEB, 0x800A);
    if j == 1 {
      b := TestSign(s, b, 0x32);
      b := Branch(s, b, BMI, 0xE0, 0x8003);
    }
  }

  /** The memory while elements are exchanged: up to three of their bytes are on the stack. */
  function Stacking(m: Memory, base: Word, j: nat, pushed: nat): Memory
    requires j > 0
  {
    var m1 := m[0x1FF := m[Cell(base, 2 * j)]];
    var m2 := if pushed < 2 then m1 else m1[0x1FE := m[Cell(base, 2 * j - 1)]];
    if pushed < 3 then m2 else m2[0x1FD := m[Cell(base, 2 * j + 2)]]
  }

  lemma StackingReady(m: Memory, base: Word, n: nat, j: nat, pushed: nat)
    requires Ready(m, base, n) && 1 <= j < n && 1 <= pushed <= 3
    ensures var p := Stacking(m, base, j, pushed);
      Ready(p, base, n) && Elements(p, base, n) == Elements(m, base, n) && SwapLines(p) && LoopLines(p) &&
      ZeroPageWord(p, 0x30) == base &&
      p[0x1FF] == m[Cell(base, 2 * j)] && (pushed >= 2 ==> p[0x1FE] == m[Cell(base, 2 * j - 1)]) &&
      (pushed >= 3 ==> p[0x1FD] == m[Cell(base, 2 * j + 2)]) &&
      forall i :: 0 <= i <= 2 * n ==> p[Cell(base, i)] == m[Cell(base, i)]
    decreases pushed
  {
    hide Cell, Ready, Elements;
    if pushed == 1 {
      ScratchWrite(m, base, n, 0x1FF, m[Cell(base, 2 * j)]);
    } else {
      StackingReady(m, base, n, j, pushed - 1);
      var k, v := if pushed == 2 then 0x1FE else 0x1FD, m[Cell(base, if pushed == 2 then 2 * j - 1 else 2 * j + 2)];
      ScratchWrite(Stacking(m, base, j, pushed - 1), base, n, k, v);
    }
    Listing(m, base, n);
    Listing(Stacking(m, base, j, pushed), base, n);
  }

  /** Save both bytes of the lower element. */
  lemma SaveLower(s: Arch, a: Arch, base: Word, n: nat, j: nat) returns (b: Arch)
    requires Reaches(s, a) && a.pc == 0x8024 && a.r.s == 0xFF && Ready(a.mem, base, n)
    requires 1 <= j < n && a.r.y == 2 * j
    ensures Reaches(s, b) && b.pc == 0x802B && b.r.s == 0xFD && b.r.y == 2 * j - 1 && b.mem == Stacking(a.mem, base, j, 2)
  {
    hide Reaches, Line, Single, Add16, ZeroPageWord, Ready, Elements;
    Listing(a.mem, base, n);
    StackingReady(a.mem, base, n, j, 1);
    StackingReady(a.mem, base, n, j, 2);
    b := IndirectY(s, a, LDA, 0x30);
    b := PushA(s, b);
    b := StepY(s, b, DEY);
    b := IndirectY(s, b, LDA, 0x30);
    b := PushA(s, b);
  }

  /** Save the high byte of the upper element. */
  lemma SaveUpper(s: Arch, a: Arch, base: Word, n: nat, j: nat, m: Memory) returns (b: Arch)
    requires Ready(m, base, n) && 1 <= j < n && a.mem == Stacking(m, base, j, 2)
    requires Reaches(s, a) && a.pc == 0x802B && a.r.s == 0xFD && a.r.y == 2 * j - 1
    ensures Reaches(s, b) && b.pc == 0x8031 && b.r.s == 0xFC && b.r.y == 2 * j + 2 && b.mem == Stacking(m, base, j, 3)
  {
    hide Reaches, Line, Single, Add16, ZeroPageWord, Ready, Elements;
    Listing(m, base, n);
    StackingReady(m, base, n, j, 2);
    StackingReady(m, base, n, j, 3);
    b := StepY(s, a, INY);
    b := StepY(s, b, INY);
    b := StepY(s, b, INY);
    b := IndirectY(s, b, LDA, 0x30);
    b := PushA(s, b);
  }

  /** Copy the low byte of the upper element down. */
  lemma CopyLow(s: Arch, a: Arch, base: Word, n: nat, j: nat) returns (b: Arch)
    requires Reaches(s, a) && a.pc == 0x8031 && a.r.s == 0xFC && Ready(a.mem, base, n)
    requires 1 <= j < n && a.r.y == 2 * j + 2
    ensures Reaches(s, b) && b.pc == 0x803A && b.r.s == 0xFC && b.r.y == 2 * j - 1 && b.r.x == 3 &&
      b.mem == a.mem[Cell(base, 2 * j - 1) := a.mem[Cell(base, 2 * j + 1)]] && Ready(b.mem, base, n)
  {
    hide Reaches, Line, Single, Add16, ZeroPageWord, Ready, Elements;
    Listing(a.mem, base, n);
    CellWrite(a.mem, base, n, 2 * j - 1, a.mem[Cell(base, 2 * j + 1)]);
    Listing(a.mem[Cell(base, 2 * j - 1) := a.mem[Cell(base, 2 * j + 1)]], base, n);
    b := StepY(s, a, DEY);
    b := IndirectY(s, b, LDA, 0x30);
    b := StepY(s, b, DEY);
    b := StepY(s, b, DEY);
    b := StoreIndirectY(s, b, 0x30);
    b := Immediate(s, b, LDX, 0x03);
  }

  /** One turn of the loop that stores the other three bytes. */
  lemma StoreOne(s: Arch, a: Arch, base: Word, n: nat) returns (b: Arch)
    requires Reaches(s, a) && a.pc == 0x803A && Ready(a.mem, base, n) && a.r.x > 0
    requires a.r.y < 2 * n && a.r.s == 0xFF - a.r.x
    ensures var v := a.mem[0x200 - a.r.x];
      Reaches(s, b) && b.pc == (if a.r.x > 1 then 0x803A else 0x8041) && b.r.s == a.r.s + 1 && b.r.x == a.r.x - 1 &&
      b.r.y == a.r.y + 1 && b.mem == a.mem[Cell(base, a.r.y + 1) := v] && Ready(b.mem, base, n)
  {
    hide Reaches, Line, Single, Add16, ZeroPageWord, Ready, Elements;
    Listing(a.mem, base, n);
    var v := a.mem[0x200 - a.r.x];
    CellWrite(a.mem, base, n, a.r.y + 1, v);
    Listing(a.mem[Cell(base, a.r.y + 1) := v], base, n);
    b := StepY(s, a, INY);
    b := PullA(s, b);
    b := StoreIndirectY(s, b, 0x30);
    b := Implied(s, b, DEX);
    b := Branch(s, b, BNE, 0xF9, 0x803A);
  }

  /** Set the exchange flag and go on to the next pair, or start another sweep. */
  lemma AfterExchange(s: Arch, a: Arch, base: Word, n: nat, j: nat) returns (b: Arch)
    requires Reaches(s, a) && a.pc == 0x8041 && Ready(a.mem, base, n) && 1 <= j < n && a.r.y == 2 * j + 2
    ensures Reaches(s, b) && b.r.s == a.r.s && b.mem == a.mem[0x32 := 0xFF]
    ensures if j > 1 then b.pc == 0x800A && b.r.y == 2 * j else b.pc == 0x8003
  {
    hide Reaches, Line, Single, Ready, Elements;
    Listing(a.mem, base, n);
    ScratchWrite(a.mem, base, n, 0x32, 0xFF);
    Listing(a.mem[0x32 := 0xFF], base, n);
    b := Immediate(s, a, LDA, 0xFF);
    b := StoreZeroPage(s, b, STA, 0x32);
    b := CompareY(s, b, 0x04);
    b := Branch(s, b, BEQ, 0xBA, 0x8003);
    if j > 1 {
      b := StepY(s, b, DEY);
      b := StepY(s, b, DEY);
      b := Jump(s, b, 0x0A, 0x80);
    }
  }

  /** m' is m but for the list, the exchange flag and three stack bytes. */
  predicate Elsewhere(m: Memory, m': Memory, base: Word, n: nat) {
    forall k: Word :: k != 0x32 && !(0x1FD <= k <= 0x1FF) && (forall i :: 1 <= i <= 2 * n ==> k != Cell(base, i))
      ==> m'[k] == m[k]
  }

  /** Elements j - 1 and j are exchanged byte by byte. */
  predicate BytesExchanged(m: Memory, m': Memory, base: Word, n: nat, j: nat)
    requires 1 <= j < n
  {
    m'[Cell(base, 2 * j - 1)] == m[Cell(base, 2 * j + 1)] && m'[Cell(base, 2 * j)] == m[Cell(base, 2 * j + 2)] &&
    m'[Cell(base, 2 * j + 1)] == m[Cell(base, 2 * j - 1)] && m'[Cell(base, 2 * j + 2)] == m[Cell(base, 2 * j)] &&
    forall i :: 0 <= i <= 2 * n && !(2 * j - 1 <= i <= 2 * j + 2) ==> m'[Cell(base, i)] == m[Cell(base, i)]
  }

  lemma ElementsExchanged(m: Memory, m': Memory, base: Word, n: nat, j: nat)
    requires 1 <= j < n && BytesExchanged(m, m', base, n, j)
    ensures Elements(m', base, n) == Exchange(Elements(m, base, n), j)
  {
    hide Cell, ToWord;
    var xs, ys := Elements(m, base, n), Elements(m', base, n);
    assert 2 * (j - 1) + 1 == 2 * j - 1 && 2 * (j - 1) + 2 == 2 * j;
    forall i | 0 <= i < n
      ensures ys[i] == Exchange(xs, j)[i]
    {
    }
  }

  /** Memory after k of the four stores of an exchange, the last three of them from the stack. */
  function Storing(m: Memory, base: Word, j: nat, k: nat): Memory
    requires j > 0 && k <= 4
  {
    if k == 0 then Stacking(m, base, j, 3)
    else
      var p := Storing(m, base, j, k - 1);
      p[Cell(base, 2 * j - 2 + k) := if k == 1 then p[Cell(base, 2 * j + 1)] else p[0x1FB + k]]
  }

  /** The byte of the other element that takes the place of byte i. */
  function Partner(i: nat, j: nat): nat
    requires j > 0 && 2 * j - 1 <= i <= 2 * j + 2
  {
    if i <= 2 * j then i + 2 else i - 2
  }

  lemma {:induction false} Stored(m: Memory, base: Word, n: nat, j: nat, k: nat)
    requires Ready(m, base, n) && 1 <= j < n && k <= 4
    ensures var p := Storing(m, base, j, k);
      Ready(p, base, n) && p[0x1FD] == m[Cell(base, 2 * j + 2)] && p[0x1FE] == m[Cell(base, 2 * j - 1)] &&
      p[0x1FF] == m[Cell(base, 2 * j)] && Elsewhere(m, p, base, n) &&
      forall i :: 0 <= i <= 2 * n ==>
        p[Cell(base, i)] == m[Cell(base, if 2 * j - 1 <= i <= 2 * j - 2 + k then Partner(i, j) else i)]
    decreases k
  {
    hide Cell, Ready, Elements, Elsewhere, ListAt, Loaded;
    if k == 0 {
      StackingReady(m, base, n, j, 3);
      StackingElsewhere(m, base, n, j);
    } else {
      var p, i := Storing(m, base, j, k - 1), 2 * j - 2 + k;
      Stored(m, base, n, j, k - 1);
      assert n <= 127 by { Listing(m, base, n); }
      var v := if k == 1 then p[Cell(base, 2 * j + 1)] else p[0x1FB + k];
      CellWrite(p, base, n, i, v);
      ElsewhereCell(m, p, base, n, i, v);
      assert v == m[Cell(base, Partner(i, j))];
    }
  }

  lemma StackingElsewhere(m: Memory, base: Word, n: nat, j: nat)
    requires 1 <= j < n
    ensures Elsewhere(m, Stacking(m, base, j, 3), base, n)
  {
    hide Cell;
  }

  lemma ElsewhereCell(m: Memory, p: Memory, base: Word, n: nat, i: nat, v: Byte)
    requires Elsewhere(m, p, base, n) && 1 <= i <= 2 * n
    ensures Elsewhere(m, p[Cell(base, i) := v], base, n)
  {
    hide Cell;
  }

  /** Neighbours out of order: save three bytes and copy the fourth. */
  lemma BeginExchange(s: Arch, a: Arch, base: Word, n: nat, j: nat) returns (b: Arch)
    requires Reaches(s, a) && a.pc == 0x8024 && a.r.s == 0xFF && Ready(a.mem, base, n)
    requires 1 <= j < n && a.r.y == 2 * j
    ensures Reaches(s, b) && b.pc == 0x803A && b.r.s == 0xFC && b.r.y == 2 * j - 1 && b.r.x == 3 &&
      b.mem == Storing(a.mem, base, j, 1) && Ready(b.mem, base, n)
  {
    hide Reaches, Ready, Elements, Cell, Storing, Stacking, Line, Single;
    b := SaveLower(s, a, base, n, j);
    b := SaveUpper(s, b, base, n, j, a.mem);
    assert Ready(b.mem, base, n) by { StackingReady(a.mem, base, n, j, 3); }
    b := CopyLow(s, b, base, n, j);
    StoringIs(a.mem, base, j);
  }

  lemma FinishExchange(s: Arch, a: Arch, base: Word, n: nat, j: nat, m: Memory) returns (b: Arch)
    requires 1 <= j < n && a.mem == Storing(m, base, j, 1) && Ready(a.mem, base, n)
    requires Reaches(s, a) && a.pc == 0x803A && a.r.s == 0xFC && a.r.y == 2 * j - 1 && a.r.x == 3
    ensures Reaches(s, b) && b.pc == 0x8041 && b.r.s == 0xFF && b.r.y == 2 * j + 2 && b.mem == Storing(m, base, j, 4)
  {
    hide Reaches, Ready, Elements, Cell, Storing, Stacking;
    StoringIs(m, base, j);
    b := StoreOne(s, a, base, n);
    b := StoreOne(s, b, base, n);
    b := StoreOne(s, b, base, n);
  }

  lemma StoringIs(m: Memory, base: Word, j: nat)
    requires j > 0
    ensures var p := Stacking(m, base, j, 3); var q := Storing(m, base, j, 1);
      q == p[Cell(base, 2 * j - 1) := p[Cell(base, 2 * j + 1)]]
    ensures var p := Storing(m, base, j, 1); Storing(m, base, j, 2) == p[Cell(base, 2 * j) := p[0x1FD]]
    ensures var p := Storing(m, base, j, 2); Storing(m, base, j, 3) == p[Cell(base, 2 * j + 1) := p[0x1FE]]
    ensures var p := Storing(m, base, j, 3); Storing(m, base, j, 4) == p[Cell(base, 2 * j + 2) := p[0x1FF]]
  {
    hide Cell, Stacking;
  }

  /** Neighbours out of order: exchange them, then as AfterExchange. */
  lemma ExchangePair(s: Arch, a: Arch, base: Word, n: nat, j: nat) returns (b: Arch)
    requires Reaches(s, a) && a.pc == 0x8024 && a.r.s == 0xFF && Ready(a.mem, base, n)
    requires 1 <= j < n && a.r.y == 2 * j
    ensures Reaches(s, b) && b.r.s == 0xFF && b.mem[0x32] == 0xFF && Ready(b.mem, base, n)
    ensures Elements(b.mem, base, n) == Exchange(Elements(a.mem, base, n), j) && Elsewhere(a.mem, b.mem, base, n)
    ensures if j > 1 then b.pc == 0x800A && b.r.y == 2 * j else b.pc == 0x8003
  {
    hide Reaches, Ready, Elements, Cell, Storing;
    b := BeginExchange(s, a, base, n, j);
    b := FinishExchange(s, b, base, n, j, a.mem);
    Stored(a.mem, base, n, j, 4);
    ElementsExchanged(a.mem, b.mem, base, n, j);
    ScratchWrite(b.mem, base, n, 0x32, 0xFF);
    b := AfterExchange(s, b, base, n, j);
  }

  lemma ElsewhereTrans(m: Memory, p: Memory, q: Memory, base: Word, n: nat)
    requires Elsewhere(m, p, base, n) && Elsewhere(p, q, base, n)
    ensures Elsewhere(m, q, base, n)
  {
    hide Cell;
  }

  lemma ElsewhereScratch(m: Memory, base: Word, n: nat, k: Word, v: Byte)
    requires k == 0x32 || 0x1FD <= k <= 0x1FF
    ensures Elsewhere(m, m[k := v], base, n)
  {
    hide Cell;
  }

  // ---------------------------------------------------------------------------------------------
  // Main results
  // ---------------------------------------------------------------------------------------------

  /** One comparison with what follows from it. */
  lemma Pair(s: Arch, a: Arch, base: Word, n: nat, j: nat) returns (b: Arch)
    requires Reaches(s, a) && a.pc == 0x800A && a.r.s == 0xFF && Ready(a.mem, base, n)
    requires 1 <= j < n && a.r.y == 2 * j + 2
    ensures Reaches(s, b) && b.r.s == 0xFF && Ready(b.mem, base, n) && Elsewhere(a.mem, b.mem, base, n)
    ensures var xs := Elements(a.mem, base, n); var exchanged := xs[j] < xs[j - 1];
      Elements(b.mem, base, n) == (if exchanged then Exchange(xs, j) else xs) &&
      (b.mem[0x32] >= 0x80 <==> exchanged || a.mem[0x32] >= 0x80) &&
      if j > 1 then b.pc == 0x800A && b.r.y == 2 * j
      else b.pc == if exchanged || a.mem[0x32] >= 0x80 then 0x8003 else 0x8023
  {
    hide Reaches, Ready, Elsewhere, Cell, Element;
    b := CompareLow(s, a, base, n, j);
    b := CompareHigh(s, b, base, n, j, a.mem);
    var v := a.mem[Cell(base, 2 * j + 2)];
    ScratchWrite(a.mem, base, n, 0x1FF, v);
    ElsewhereScratch(a.mem, base, n, 0x1FF, v);
    if Element(a.mem, base, j) < Element(a.mem, base, j - 1) {
      b := ExchangePair(s, b, base, n, j);
      ElsewhereTrans(a.mem, a.mem[0x1FF := v], b.mem, base, n);
    } else {
      b := InOrder(s, b, base, n, j);
    }
  }

  lemma {:induction false} SweepRuns(s: Arch, a: Arch, base: Word, n: nat, j: nat) returns (b: Arch)
    requires Reaches(s, a) && a.pc == 0x800A && a.r.s == 0xFF && Ready(a.mem, base, n)
    requires 1 <= j < n && a.r.y == 2 * j + 2
    ensures Reaches(s, b) && b.r.s == 0xFF && Ready(b.mem, base, n) && Elsewhere(a.mem, b.mem, base, n)
    ensures var xs := Elements(a.mem, base, n); var ys := Sweep(xs, j);
      Elements(b.mem, base, n) == ys && b.pc == if ys == xs && a.mem[0x32] < 0x80 then 0x8023 else 0x8003
    decreases j
  {
    hide Reaches, Ready, Elsewhere, Elements, Inversions;
    b := Pair(s, a, base, n, j);
    var xs := Elements(a.mem, base, n);
    assert |xs| == n;
    if xs[j] < xs[j - 1] {
      ExchangeInversions(xs, j);
      SweepInversions(Exchange(xs, j), j - 1);
    }
    if j > 1 {
      var p := b;
      b := SweepRuns(s, p, base, n, j - 1);
      ElsewhereTrans(a.mem, p.mem, b.mem, base, n);
    }
  }

  lemma {:induction false} SortRuns(s: Arch, a: Arch, base: Word, n: nat) returns (b: Arch)
    requires Reaches(s, a) && a.pc == 0x8003 && a.r.s == 0xFF && Ready(a.mem, base, n)
    ensures SortedRun(s, a.mem, b, base, n)
    decreases Inversions(Elements(a.mem, base, n))
  {
    hide Reaches, Ready, Elsewhere, Inversions, Elements, Sweep, Sorted, Cell;
    assert 2 <= n <= 127 by { Listing(a.mem, base, n); }
    ScratchWrite(a.mem, base, n, 0x32, 0);
    ElsewhereScratch(a.mem, base, n, 0x32, 0);
    var p := BeginSweep(s, a, base, n);
    b := SweepRuns(s, p, base, n, n - 1);
    ElsewhereTrans(a.mem, p.mem, b.mem, base, n);
    var xs := Elements(a.mem, base, n);
    SweepInversions(xs, n - 1);
    SweepPermutes(xs, n - 1);
    assert Single(b.mem, 0x8023, HLT) by { Listing(b.mem, base, n); }
    if b.pc == 0x8003 {
      var q := b;
      b := SortRuns(s, q, base, n);
      ElsewhereTrans(a.mem, q.mem, b.mem, base, n);
    } else {
      NeighboursSorted(xs);
    }
  }

  /** b is at the HLT with the list of m sorted, as unsigned numbers, and nothing else changed but the
      exchange flag and three stack bytes. */
  ghost predicate SortedRun(s: Arch, m: Memory, b: Arch, base: Word, n: nat) {
    Reaches(s, b) && Single(b.mem, b.pc, HLT) && Sorted(Elements(b.mem, base, n)) &&
    multiset(Elements(b.mem, base, n)) == multiset(Elements(m, base, n)) && Elsewhere(m, b.mem, base, n)
  }

  /** Started at 0x8000 in any state, for any list of two or more 16-bit elements that overlaps nothing
      the program uses, the program reaches its HLT with the list sorted. */
  lemma Sorts(a: Arch, base: Word, n: nat)
    requires a.pc == 0x8000 && Ready(a.mem, base, n)
    ensures exists b :: SortedRun(a, a.mem, b, base, n)
  {
    hide Reaches, Ready, Elsewhere, Sorted;
    var b := Begin(a);
    b := Start(a, b, base, n);
    b := SortRuns(a, b, base, n);
  }

  /** The same on the microcoded core. */
  lemma CoreSorts(q: Core, a: Arch, base: Word, n: nat)
    requires Boundary(q, a, SOFT) && a.pc == 0x8000 && Ready(a.mem, base, n)
    ensures exists b :: CoreReaches(q, b) && SortedRun(a, a.mem, b, base, n)
  {
    hide Boundary, Ready, Elsewhere, Sorted, CoreReaches;
    Sorts(a, base, n);
    var b :| SortedRun(a, a.mem, b, base, n);
    CoreReachesToo(q, a, b);
  }
}
