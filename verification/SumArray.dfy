/** The shipped 16-bit sum of a byte array, as assembled at 0x8000. */
module SumArray {
  import opened Bytes
  import opened Opcodes
  import opened RegisterFile
  import opened Isa
  import opened Instructions

  predicate Loaded(m: Memory) {
    Line(m, 0x8000, Opcode(LDA, IMM), 0x00) && Line(m, 0x8002, Opcode(STA, ZP), 0x04) &&
    Line(m, 0x8004, Opcode(STA, ZP), 0x05) && Line(m, 0x8006, Opcode(LDY, ZP), 0x02) && Single(m, 0x8008, DEY) &&
    Line(m, 0x8009, Opcode(LDA, INDY), 0x00) && Single(m, 0x800B, CLC) &&
    Line(m, 0x800C, Opcode(ADC, ZP), 0x04) && Line(m, 0x800E, Opcode(STA, ZP), 0x04) &&
    Line(m, 0x8010, Opcode(LDA, IMM), 0x00) && Line(m, 0x8012, Opcode(ADC, ZP), 0x05) &&
    Line(m, 0x8014, Opcode(STA, ZP), 0x05) && Line(m, 0x8016, Opcode(CPY, IMM), 0x00) &&
    Line(m, 0x8018, Opcode(BNE, REL), 0xEE) && Single(m, 0x801A, HLT)
  }

  /** The array at base, as many bytes of it as the size at 0x0002 says; size 0 means 256. */
  function Count(m: Memory): (n: nat)
    ensures 1 <= n <= 256
  {
    if m[2] == 0 then 256 else m[2]
  }

  /** The array does not lie over the total. */
  predicate Ready(m: Memory, base: Word) {
    Loaded(m) && ZeroPageWord(m, 0x00) == base &&
    forall k :: 0 <= k < Count(m) ==> Add16(base, k) != 4 && Add16(base, k) != 5
  }

  function Item(m: Memory, base: Word, k: nat): Byte { m[Add16(base, k)] }

  /** The sum of bytes k .. n - 1 of the array. */
  function Sum(m: Memory, base: Word, k: nat, n: nat): (s: nat)
    requires k <= n
    ensures s <= 0xFF * (n - k)
    decreases n - k
  {
    if k == n then 0 else Item(m, base, k) + Sum(m, base, k + 1, n)
  }

  function Total(m: Memory): Word { ToWord(m[5], m[4]) }

  /** m' is m but for the two bytes of the total. */
  predicate OnlyTotal(m: Memory, m': Memory) { forall k: Word :: k != 4 && k != 5 ==> m'[k] == m[k] }

  lemma ReadyKept(m: Memory, m': Memory, base: Word)
    requires Ready(m, base) && OnlyTotal(m, m')
    ensures Ready(m', base) && Count(m') == Count(m)
  {
    hide OpcodeOf;
  }

  lemma {:induction false} SumKept(m: Memory, m': Memory, base: Word, k: nat)
    requires Ready(m, base) && OnlyTotal(m, m') && k <= Count(m)
    ensures Sum(m', base, k, Count(m)) == Sum(m, base, k, Count(m))
    decreases Count(m) - k
  {
    hide Loaded, Add16;
    if k < Count(m) {
      SumKept(m, m', base, k + 1);
    }
  }

  lemma Start(s: Arch, a: Arch, base: Word) returns (b: Arch)
    requires Reaches(s, a) && a.pc == 0x8000 && Ready(a.mem, base)
    ensures Reaches(s, b) && b.pc == 0x8008 && b.r.y == a.mem[2] && b.mem == a.mem[4 := 0][5 := 0]
  {
    hide Reaches, Line, Single, Add16, ZeroPageWord;
    ReadyKept(a.mem, a.mem[4 := 0], base);
    ReadyKept(a.mem, a.mem[4 := 0][5 := 0], base);
    b := Immediate(s, a, LDA, 0x00);
    b := StoreZeroPage(s, b, STA, 0x04);
    b := StoreZeroPage(s, b, STA, 0x05);
    b := ZeroPage(s, b, LDY, 0x02);
  }

  lemma CountDown(y: Byte, k: nat)
    requires y == (k + 1) % 0x100 && k < 0x100
    ensures Add8(y, -1) == k
  {
  }

  lemma AddClear(r: Registers, m: Byte)
    requires !r.c
    ensures var q := AddWithCarry(r, m); q == r.(ac := Add8(m, r.ac), c := m + r.ac >= 0x100, z := q.z, v := q.v, n := q.n)
  {
    hide Signed;
  }

  lemma AddZero(r: Registers, m: Byte)
    requires r.ac == 0 && m + B(r.c) < 0x100
    ensures var q := AddWithCarry(r, m); q == r.(ac := m + B(r.c), c := false, z := q.z, v := q.v, n := q.n)
  {
    hide Signed;
  }

  /** Fetch the byte below Y and add it to the low byte of the total. */
  lemma AddLow(s: Arch, a: Arch, base: Word, k: nat) returns (b: Arch)
    requires Reaches(s, a) && a.pc == 0x8008 && Ready(a.mem, base) && a.r.y == (k + 1) % 0x100 && k < 0x100
    ensures var v := Item(a.mem, base, k);
      Reaches(s, b) && b.pc == 0x8010 && b.r.y == k && b.mem == a.mem[4 := Add8(a.mem[4], v)] &&
      b.r.c == (a.mem[4] + v >= 0x100)
  {
    hide Reaches, Line, Single, Add8, Add16, ZeroPageWord, AddWithCarry;
    CountDown(a.r.y, k);
    b := Implied(s, a, DEY);
    b := IndirectY(s, b, LDA, 0x00);
    b := Implied(s, b, CLC);
    AddClear(b.r, a.mem[4]);
    b := ZeroPage(s, b, ADC, 0x04);
    b := StoreZeroPage(s, b, STA, 0x04);
  }

  /** Add the carry to the high byte and go round again unless Y is zero. */
  lemma AddHigh(s: Arch, a: Arch, base: Word) returns (b: Arch)
    requires Reaches(s, a) && a.pc == 0x8010 && Ready(a.mem, base) && a.mem[5] + B(a.r.c) < 0x100
    ensures Reaches(s, b) && b.r.y == a.r.y && b.mem == a.mem[5 := a.mem[5] + B(a.r.c)] &&
      b.pc == if a.r.y == 0 then 0x801A else 0x8008
  {
    hide Reaches, Line, Single, Add16, ZeroPageWord, AddWithCarry;
    b := Immediate(s, a, LDA, 0x00);
    AddZero(b.r, a.mem[5]);
    b := ZeroPage(s, b, ADC, 0x05);
    b := StoreZeroPage(s, b, STA, 0x05);
    ReadyKept(a.mem, b.mem, base);
    b := CompareY(s, b, 0x00);
    b := Branch(s, b, BNE, 0xEE, 0x8008);
  }

  /** The 16-bit carry chain is exact as long as the sum fits a word. */
  lemma CarryChain(lo: Byte, hi: Byte, v: Byte)
    requires ToWord(hi, lo) + v < 0x1_0000
    ensures var c := B(lo + v >= 0x100); hi + c < 0x100 && ToWord(hi + c, Add8(lo, v)) == ToWord(hi, lo) + v
  {
  }

  /** m is the memory at the start; the bytes from k + 1 on have been added. */
  lemma {:induction false} Loop(s: Arch, a: Arch, base: Word, m: Memory, k: nat) returns (b: Arch)
    requires Ready(m, base) && OnlyTotal(m, a.mem) && k < Count(m)
    requires Reaches(s, a) && a.pc == 0x8008 && a.r.y == (k + 1) % 0x100
    requires Total(a.mem) == Sum(m, base, k + 1, Count(m))
    ensures Reaches(s, b) && b.pc == 0x801A && Total(b.mem) == Sum(m, base, 0, Count(m)) && OnlyTotal(m, b.mem)
    decreases k
  {
    hide Reaches, Loaded, Add16, ZeroPageWord, ToWord, Add8;
    ReadyKept(m, a.mem, base);
    var v := Item(m, base, k);
    assert Item(a.mem, base, k) == v;
    CarryChain(a.mem[4], a.mem[5], v);
    var p := AddLow(s, a, base, k);
    ReadyKept(m, p.mem, base);
    p := AddHigh(s, p, base);
    assert Total(p.mem) == Sum(m, base, k, Count(m));
    if k > 0 {
      b := Loop(s, p, base, m, k - 1);
    } else {
      b := p;
    }
  }

  /** b is at the HLT, the total is the exact sum of the array, and nothing else has changed. */
  ghost predicate SummedRun(a: Arch, b: Arch, base: Word) {
    Reaches(a, b) && Single(b.mem, b.pc, HLT) && Total(b.mem) == Sum(a.mem, base, 0, Count(a.mem)) &&
    OnlyTotal(a.mem, b.mem)
  }

  /** Started at 0x8000 in any state the program reaches its HLT with the sum, for every size and content;
      the 16-bit total never overflows. */
  lemma Sums(a: Arch, base: Word)
    requires a.pc == 0x8000 && Ready(a.mem, base)
    ensures exists b :: SummedRun(a, b, base)
  {
    hide Reaches, Ready, Sum, ToWord, OnlyTotal;
    var b := Begin(a);
    b := Start(a, b, base);
    var n := Count(a.mem);
    Nothing(a.mem, base, n);
    Cleared(a.mem, 0);
    b := Loop(a, b, base, a.mem, n - 1);
    Halts(a.mem, b.mem, base);
    assert SummedRun(a, b, base);
  }

  lemma Cleared(m: Memory, zero: Byte)
    ensures OnlyTotal(m, m[4 := zero][5 := zero]) && Total(m[4 := zero][5 := zero]) == ToWord(zero, zero)
  {
  }

  lemma Nothing(m: Memory, base: Word, n: nat)
    ensures Sum(m, base, n, n) == 0 && ToWord(0, 0) == 0
  {
  }

  lemma Halts(m: Memory, m': Memory, base: Word)
    requires Ready(m, base) && OnlyTotal(m, m')
    ensures Single(m', 0x801A, HLT)
  {
    hide OpcodeOf, Line;
  }
}
