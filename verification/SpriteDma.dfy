/** Sprite DMA: a page of CPU memory goes to sprite memory through the PPU's register port while the CPU waits. */
module SpriteDma {
  import opened Bytes

  datatype State = Ready | Active | Cooldown

  datatype Dma = Dma(state: State, addr: Word, cnt: nat, data: Byte)

  /** What the CPU drives. */
  datatype CpuBus = CpuBus(a: Word, d: Byte, write: bool)

  /** What reaches memory and the PPU: the DMA unit's signals while it is active, else the CPU's. */
  function Driven(q: Dma, c: CpuBus): CpuBus {
    if !q.state.Active? then c
    else
      match q.cnt
      case 0 | 1 => CpuBus(q.addr, 0, false)
      case 2 => CpuBus(0x2004, q.data, true)
      case _ => CpuBus(0, 0, false)
  }

  /** One clock; read is what memory shows. */
  function StepDma(q: Dma, c: CpuBus, read: Byte): Dma {
    match q.state
    case Ready => if c.a == 0x4014 && c.write then q.(state := Active, addr := ToWord(c.d, 0)) else q
    case Cooldown => if c.write then q else q.(state := Ready)
    case Active =>
      match q.cnt
      case 0 => q.(cnt := 1)
      case 1 => q.(data := read, cnt := 2)
      case 2 => if Lo(q.addr) == 0xFF then q.(cnt := 0, state := Cooldown) else q.(cnt := 0, addr := Add16(q.addr, 1))
      case _ => q
  }

  /** The DMA unit between memory, which answers one clock after the address, and the sprite side of the
      register port, which acts on a falling edge of its select. */
  datatype System = System(dma: Dma, mem: Memory, latch: Word, deselected: bool, pointer: Byte, oam: seq<Byte>)
  {
    predicate Valid() { |oam| == 0x100 }
  }

  predicate SelectsPort(a: Word) { 0x2000 <= a < 0x4000 }

  function Step(y: System, c: CpuBus): (r: System)
    requires y.Valid()
    ensures r.Valid()
  {
    var bus := Driven(y.dma, c);
    var edge := y.deselected && SelectsPort(bus.a) && bus.write;
    var stores := edge && bus.a % 8 == 4;
    System(StepDma(y.dma, c, y.mem[y.latch]), y.mem, bus.a, !SelectsPort(bus.a),
           if stores then Add8(y.pointer, 1) else if edge && bus.a % 8 == 3 then bus.d else y.pointer,
           if stores then y.oam[y.pointer := bus.d] else y.oam)
  }

  function Run(y: System, cs: seq<CpuBus>): (r: System)
    requires y.Valid()
    ensures r.Valid()
    decreases |cs|
  {
    if cs == [] then y else Run(Step(y, cs[0]), cs[1..])
  }

  /** The write of page p, held on the bus for n clocks. */
  function Held(p: Byte, n: nat): seq<CpuBus> { seq(n, _ => CpuBus(0x4014, p, true)) }

  /** Pages outside the register port. */
  predicate PlainPage(p: Byte) { p < 0x20 || p >= 0x80 }

  /** i bytes have been copied to sprite memory from pointer s on. */
  predicate Copied(y: System, p: Byte, s: Byte, i: nat)
    requires y.Valid() && i <= 0x100
  {
    y.pointer == Add8(s, i) && forall j :: 0 <= j < i ==> y.oam[Add8(s, j)] == y.mem[ToWord(p, j)]
  }

  /** The start of the copy of byte i. */
  predicate Copying(y: System, p: Byte, s: Byte, i: nat)
    requires y.Valid()
  {
    i < 0x100 && y.dma.state.Active? && y.dma.cnt == 0 && y.dma.addr == ToWord(p, i) && Copied(y, p, s, i)
  }

  predicate Cooling(y: System, p: Byte, s: Byte)
    requires y.Valid()
  {
    y.dma.state.Cooldown? && y.dma.cnt == 0 && y.deselected == false && Copied(y, p, s, 0x100)
  }

  lemma PageNotPort(p: Byte, i: Byte)
    requires PlainPage(p)
    ensures !SelectsPort(ToWord(p, i)) && (i < 0xFF ==> Add16(ToWord(p, i), 1) == ToWord(p, i + 1))
  {
  }

  /** Three clocks copy one byte: address, data latched, written. */
  lemma CopiesOne(y: System, p: Byte, s: Byte, i: nat, c: CpuBus)
    requires y.Valid() && PlainPage(p) && Copying(y, p, s, i)
    ensures var z := Step(Step(Step(y, c), c), c);
      z.mem == y.mem && if i < 0xFF then Copying(z, p, s, i + 1) else Cooling(z, p, s)
  {
    hide Add8, ToWord, Lo, Add16;
    PageNotPort(p, i);
    var y1 := Step(y, c);
    var y2 := Step(y1, c);
    var z := Step(y2, c);
    assert y2.dma.data == y.mem[ToWord(p, i)] && y2.deselected && y2.oam == y.oam && y2.pointer == y.pointer;
    assert z.oam == y.oam[Add8(s, i) := y.mem[ToWord(p, i)]];
    Add8Adds(s, i, 1);
    forall j | 0 <= j < i + 1
      ensures z.oam[Add8(s, j)] == y.mem[ToWord(p, j)]
    {
      if j < i {
        Add8Differs(s, j, i);
      }
    }
  }

  lemma {:induction false} CopiesRest(y: System, p: Byte, s: Byte, i: nat)
    requires y.Valid() && PlainPage(p) && Copying(y, p, s, i)
    ensures var z := Run(y, Held(p, 3 * (0x100 - i))); Cooling(z, p, s) && z.mem == y.mem
    decreases 0x100 - i
  {
    hide Step, Cooling, Copying;
    InRange(y, p, s, i);
    var c, cs := CpuBus(0x4014, p, true), Held(p, 3 * (0x100 - i));
    CopiesOne(y, p, s, i, c);
    var rest := Held(p, 3 * (0xFF - i));
    assert cs[1..][1..][1..] == rest && cs[0] == cs[1..][0] == cs[1..][1..][0] == c;
    assert Run(y, cs) == Run(Step(Step(Step(y, c), c), c), rest) by { ThreeClocks(y, c, cs); }
    if i < 0xFF {
      CopiesRest(Step(Step(Step(y, c), c), c), p, s, i + 1);
    } else {
      assert rest == [];
    }
  }

  lemma InRange(y: System, p: Byte, s: Byte, i: nat)
    requires y.Valid() && Copying(y, p, s, i)
    ensures i < 0x100
  {
  }

  lemma ThreeClocks(y: System, c: CpuBus, cs: seq<CpuBus>)
    requires y.Valid() && |cs| >= 3 && cs[0] == cs[1] == cs[2] == c
    ensures Run(y, cs) == Run(Step(Step(Step(y, c), c), c), cs[1..][1..][1..])
  {
    hide Step;
    assert Run(y, cs) == Run(Step(y, c), cs[1..]);
    assert Run(Step(y, c), cs[1..]) == Run(Step(Step(y, c), c), cs[1..][1..]);
  }

  lemma {:induction false} RunAdds(y: System, cs: seq<CpuBus>, ds: seq<CpuBus>)
    requires y.Valid()
    ensures Run(y, cs + ds) == Run(Run(y, cs), ds)
    decreases |cs|
  {
    hide Step;
    if cs == [] {
      assert cs + ds == ds;
    } else {
      assert (cs + ds)[1..] == cs[1..] + ds;
      RunAdds(Step(y, cs[0]), cs[1..], ds);
    }
  }

  /** While the CPU still holds the write nothing more happens. */
  lemma {:induction false} Waits(y: System, p: Byte, s: Byte, n: nat)
    requires y.Valid() && y.dma.state.Cooldown? && y.dma.cnt == 0 && Copied(y, p, s, 0x100)
    ensures var z := Run(y, Held(p, n));
      z.dma.state.Cooldown? && z.dma.cnt == 0 && Copied(z, p, s, 0x100) && z.mem == y.mem && z.oam == y.oam
    decreases n
  {
    if n == 0 {
    } else {
      assert Held(p, n)[1..] == Held(p, n - 1);
      Waits(Step(y, CpuBus(0x4014, p, true)), p, s, n - 1);
    }
  }

  lemma Begins(y: System, p: Byte)
    requires y.Valid() && y.dma.state.Ready? && y.dma.cnt == 0
    ensures var z := Step(y, CpuBus(0x4014, p, true)); Copying(z, p, y.pointer, 0) && z.mem == y.mem
  {
  }

  /** A write of page p to 0x4014, held for one clock, the 768 clocks in which the CPU is stopped, and any number
      of clocks more, copies the page once to sprite memory from the pointer on; the pointer comes back to
      where it was, and when the write ends the unit is ready again. */
  lemma PageCopied(y: System, p: Byte, n: nat, after: CpuBus)
    requires y.Valid() && y.dma.state.Ready? && y.dma.cnt == 0 && PlainPage(p) && !after.write
    ensures var z := Run(y, Held(p, 1 + 768 + n) + [after]);
      z.dma.state.Ready? && z.dma.cnt == 0 && z.pointer == y.pointer && z.mem == y.mem &&
      forall i :: 0 <= i < 0x100 ==> z.oam[Add8(y.pointer, i)] == y.mem[ToWord(p, i)]
    ensures forall k :: 1 <= k <= 768 ==> Run(y, Held(p, k)).dma.state.Active?
  {
    hide Run, Step, Copying;
    var y1 := Step(y, CpuBus(0x4014, p, true));
    Begins(y, p);
    CopiesRest(y1, p, y.pointer, 0);
    var z1 := Run(y1, Held(p, 768));
    Waits(z1, p, y.pointer, n);
    var z2 := Run(z1, Held(p, n));
    RunAdds(y1, Held(p, 768), Held(p, n));
    assert Held(p, 768) + Held(p, n) == Held(p, 768 + n);
    RunFirst(y, CpuBus(0x4014, p, true), Held(p, 768 + n));
    assert [CpuBus(0x4014, p, true)] + Held(p, 768 + n) == Held(p, 1 + 768 + n);
    RunAdds(y, Held(p, 1 + 768 + n), [after]);
    RunFirst(z2, after, []);
    assert [after] + [] == [after];
    Ends(z2, p, y.pointer, after);
    forall k | 1 <= k <= 768
      ensures Run(y, Held(p, k)).dma.state.Active?
    {
      RunFirst(y, CpuBus(0x4014, p, true), Held(p, k - 1));
      assert [CpuBus(0x4014, p, true)] + Held(p, k - 1) == Held(p, k);
      StaysActive(y1, p, y.pointer, 0, k - 1);
    }
  }

  lemma RunFirst(y: System, c: CpuBus, cs: seq<CpuBus>)
    requires y.Valid()
    ensures Run(y, [c] + cs) == Run(Step(y, c), cs)
  {
    hide Step;
    assert ([c] + cs)[1..] == cs;
  }

  lemma Ends(y: System, p: Byte, s: Byte, after: CpuBus)
    requires y.Valid() && y.dma.state.Cooldown? && y.dma.cnt == 0 && Copied(y, p, s, 0x100) && !after.write
    ensures var z := Run(Step(y, after), []);
      z.dma.state.Ready? && z.dma.cnt == 0 && z.pointer == s && z.mem == y.mem && z.oam == y.oam
  {
  }

  /** The CPU is stopped for the whole transfer. */
  lemma {:induction false} StaysActive(y: System, p: Byte, s: Byte, i: nat, k: nat)
    requires y.Valid() && PlainPage(p) && Copying(y, p, s, i) && k < 3 * (0x100 - i)
    ensures Run(y, Held(p, k)).dma.state.Active?
    decreases k
  {
    var c := CpuBus(0x4014, p, true);
    if k == 0 {
      assert Held(p, 0) == [];
    } else if k < 3 {
      var held := Held(p, k);
      assert held[0] == c && (k == 2 ==> held[1..][0] == c && held[1..][1..] == []) && (k == 1 ==> held[1..] == []);
      assert Run(y, held) == Run(Step(y, c), held[1..]);
      assert k == 2 ==> Run(Step(y, c), held[1..]) == Step(Step(y, c), c);
    } else {
      CopiesOne(y, p, s, i, c);
      hide Step, Copying;
      ThreeClocks(y, c, Held(p, k));
      assert Held(p, k)[1..][1..][1..] == Held(p, k - 3);
      if i < 0xFF {
        StaysActive(Step(Step(Step(y, c), c), c), p, s, i + 1, k - 3);
      }
    }
  }

  // ---------------------------------------------------------------------------------------------
  // The DMA unit updated in place
  // ---------------------------------------------------------------------------------------------

  class Unit {
    var state: State
    var addr: Word
    var cnt: nat
    var data: Byte

    ghost function Value(): Dma
      reads this
    {
      Dma(state, addr, cnt, data)
    }

    constructor ()
      ensures Value() == Dma(Ready, 0, 0, 0)
    {
      state, addr, cnt, data := Ready, 0, 0, 0;
    }

    /** One clock; bus is what the unit lets through or drives during it. */
    method Clock(c: CpuBus, read: Byte) returns (bus: CpuBus)
      modifies this
      ensures Value() == StepDma(old(Value()), c, read) && bus == Driven(old(Value()), c)
    {
      hide Lo, ToWord, Add16;
      bus := c;
      if state.Ready? {
        if c.a == 0x4014 && c.write {
          state, addr := Active, ToWord(c.d, 0);
        }
      } else if state.Cooldown? {
        if !c.write {
          state := Ready;
        }
      } else if cnt == 0 {
        bus := CpuBus(addr, 0, false);
        cnt := 1;
      } else if cnt == 1 {
        bus := CpuBus(addr, 0, false);
        data, cnt := read, 2;
      } else if cnt == 2 {
        bus := CpuBus(0x2004, data, true);
        cnt := 0;
        if Lo(addr) == 0xFF {
          state := Cooldown;
        } else {
          addr := Add16(addr, 1);
        }
      } else {
        bus := CpuBus(0, 0, false);
      }
    }
  }
}
