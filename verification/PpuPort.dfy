/** The PPU register port as a program uses it to reach video memory, with the background off.  The sprite unit
    may take the video address bus for a pattern fetch at any time. */
module PpuPort {
  import opened Bytes
  import opened Background
  import Hci

  /** What the CPU does to the port in a clock.  shown is what the status flags or sprite memory would read as. */
  datatype Access = NoAccess | Read(sel: nat, shown: Byte) | Write(sel: nat, d: Byte)

  type PatternAddress = a: nat | a < 0x2000

  /** What the sprite unit does with the video address bus in a clock. */
  datatype Fetch = NoFetch | Fetch(a: PatternAddress)

  /** counter is the five scroll counters as one 15-bit number, fine scroll highest and tile column lowest;
      latch is the address that was on the video bus in the last clock. */
  datatype Port = Port(scroll: Scroll, counter: nat, second: bool, by32: bool, update: bool, buffer: Byte, ready: bool,
                       output: Byte, idle: bool, vram: Hci.PpuCells, palette: seq<Byte>, latch: nat, cfg: Hci.Config)
  {
    predicate Valid() { scroll.Valid() && counter < 0x8000 && |palette| == 32 && latch < 0x4000 }
  }

  /** The scroll latches in the same order. */
  function Joined(s: Scroll): nat { s.fv * 0x1000 + s.v * 0x800 + s.h * 0x400 + s.vt * 0x20 + s.ht }

  /** The 14 address bits. */
  function Address(q: Port): (a: Word)
    ensures a < 0x4000
  {
    q.counter % 0x4000
  }

  /** The address on the video bus: the port's own unless the sprite unit has taken it. */
  function BusAddress(q: Port, f: Fetch): (a: Word)
    ensures a < 0x4000
  {
    if f.Fetch? then f.a else Address(q)
  }

  /** The cell whose content memory shows.  Both memories have latched the address of the clock before, but
      the one that answers is chosen by the address of this clock. */
  function ShownCell(cfg: Hci.Config, latch: nat, now: Word): (c: nat)
    requires latch < 0x4000
    ensures c < 0x4000
  {
    if now < 0x2000 then latch % 0x2000 else Hci.PpuCell(cfg, 0x2000 + latch % 0x2000)
  }

  /** The background colour is shared by all palettes. */
  function PaletteCell(a: Word): (c: nat)
    ensures c < 32
  {
    if a % 4 != 0 then a % 32 else a % 16
  }

  predicate InPalette(a: Word) { a >= 0x3F00 }

  function Stepped(q: Port): nat { (q.counter + if q.by32 then 32 else 1) % 0x8000 }

  predicate IsData(x: Access) { !x.NoAccess? && x.sel == 7 }

  /** A write to 0x2005: the horizontal position, then the vertical one. */
  function ScrollWrite(s: Scroll, second: bool, d: Byte): (t: Scroll)
    requires s.Valid()
    ensures t.Valid()
  {
    if second then s.(fv := d % 8, vt := d / 8) else s.(fh := d % 8, ht := d / 8)
  }

  /** A write to 0x2006: the upper six bits of the address, then the lower eight. */
  function AddressWrite(s: Scroll, second: bool, d: Byte): (t: Scroll)
    requires s.Valid()
    ensures t.Valid()
  {
    if second then s.(vt := s.vt / 8 * 8 + d / 32, ht := d % 32)
    else s.(fv := d / 16 % 4, v := d / 8 % 2, h := d / 4 % 2, vt := d % 4 * 8 + s.vt % 8)
  }

  /** What an access does to the latches and to memory at the moment the port is selected, with address a on
      the video bus. */
  function Taken(q: Port, x: Access, a: Word): (r: Port)
    requires q.Valid()
  {
    match x
    case NoAccess => q
    case Read(sel, shown) =>
      if sel == 2 then q.(output := shown, second := false)
      else if sel == 4 then q.(output := shown)
      else if sel == 7 then
        q.(output := if InPalette(a) then q.palette[PaletteCell(a)] else q.buffer, ready := true)
      else q
    case Write(sel, d) =>
      match sel
      case 0 => q.(scroll := q.scroll.(v := d / 2 % 2, h := d % 2), by32 := d / 4 % 2 == 1)
      case 5 => q.(second := !q.second, scroll := ScrollWrite(q.scroll, q.second, d))
      case 6 => q.(second := !q.second, update := q.update || q.second, scroll := AddressWrite(q.scroll, q.second, d))
      case 7 =>
        if InPalette(a) then q.(palette := q.palette[PaletteCell(a) := d % 64])
        else q.(vram := q.vram[Hci.PpuCell(q.cfg, a) := d])
      case _ => q
  }

  lemma TakenValid(q: Port, x: Access, a: Word)
    requires q.Valid()
    ensures Taken(q, x, a).Valid()
  {
    hide Hci.PpuCell, PaletteCell, ScrollWrite, AddressWrite;
  }

  /** One clock.  The port acts on the falling edge of its select; the read buffer and the counters follow one
      clock later. */
  function Step(q: Port, x: Access, f: Fetch): (r: Port)
    requires q.Valid()
    ensures r.Valid()
  {
    var edge := q.idle && !x.NoAccess?;
    var d := q.(ready := false, update := false);
    var t := if edge then Taken(d, x, BusAddress(q, f)) else d;
    TakenValid(d, x, BusAddress(q, f));
    JoinedRange(q.scroll);
    t.(buffer := if q.ready then q.vram[ShownCell(q.cfg, q.latch, BusAddress(q, f))] else q.buffer,
       counter := if edge && IsData(x) then Stepped(q) else if q.update then Joined(q.scroll) else q.counter,
       idle := x.NoAccess?, latch := BusAddress(q, f))
  }

  lemma JoinedRange(s: Scroll)
    requires s.Valid()
    ensures Joined(s) < 0x8000
  {
  }

  /** Between accesses. */
  predicate Settled(q: Port) { q.Valid() && q.idle && !q.ready && !q.update }

  /** The port held in one way over some clocks; fs is what the sprite unit does in each. */
  function Held(q: Port, x: Access, fs: seq<Fetch>): (r: Port)
    requires q.Valid()
    ensures r.Valid()
    decreases |fs|
  {
    if fs == [] then q else Held(Step(q, x, fs[0]), x, fs[1..])
  }

  /** An access that holds the port for some clocks and leaves it for some. */
  datatype Timed = Timed(x: Access, on: seq<Fetch>, off: seq<Fetch>)
  {
    predicate Paced() { !x.NoAccess? && |on| >= 1 && |off| >= 1 }

    /** What the sprite unit does in the clock in which the port is selected and in the one after. */
    function First(): Fetch
      requires Paced()
    {
      on[0]
    }

    function Next(): Fetch
      requires Paced()
    {
      if |on| > 1 then on[1] else off[0]
    }
  }

  function Perform(q: Port, t: Timed): (r: Port)
    requires q.Valid()
    ensures r.Valid()
  {
    Held(Held(q, t.x, t.on), NoAccess, t.off)
  }

  /** The cell a data read fetches. */
  function ReadCell(q: Port, f: Fetch, g: Fetch): nat {
    ShownCell(q.cfg, BusAddress(q, f), BusAddress(q.(counter := Stepped(q)), g))
  }

  /** The whole effect of an access, whatever its length, with f and g on the bus in the first two clocks. */
  function EffectUnder(q: Port, x: Access, f: Fetch, g: Fetch): (r: Port)
    requires q.Valid()
  {
    var t := Taken(q, x, BusAddress(q, f));
    t.(buffer := if t.ready then q.vram[ReadCell(q, f, g)] else q.buffer,
       counter := if IsData(x) then Stepped(q) else if t.update then Joined(t.scroll) else q.counter,
       ready := false, update := false)
  }

  /** The effect with the bus to itself. */
  function Effect(q: Port, x: Access): (r: Port)
    requires q.Valid()
  {
    EffectUnder(q, x, NoFetch, NoFetch)
  }

  /** q and r are the same but for what memory happens to show. */
  predicate Same(q: Port, r: Port) { q.(latch := 0) == r.(latch := 0) }

  /** Once the buffer and the counters have followed, further clocks change nothing. */
  lemma {:induction false} Rests(q: Port, x: Access, fs: seq<Fetch>)
    requires q.Valid() && !q.ready && !q.update && (q.idle ==> x.NoAccess?)
    ensures var r := Held(q, x, fs);
      !r.ready && !r.update && (r.idle ==> x.NoAccess?) && Same(r, q.(idle := if fs == [] then q.idle else x.NoAccess?))
    decreases |fs|
  {
    hide Taken, Joined, Stepped, ShownCell, BusAddress;
    if fs == [] {
    } else {
      Rests(Step(q, x, fs[0]), x, fs[1..]);
    }
  }

  /** An access acts once however long the port stays selected and whatever the sprite unit does from the
      third clock on. */
  lemma AccessActsOnce(q: Port, t: Timed)
    requires Settled(q) && t.Paced()
    ensures var r := Perform(q, t); Settled(r) && Same(r, EffectUnder(q, t.x, t.First(), t.Next()))
  {
    hide Step, EffectUnder;
    var x, q1 := t.x, Step(q, t.x, t.on[0]);
    if |t.on| == 1 {
      assert Held(q1, x, t.on[1..]) == q1;
      Follows(q, x, t.on[0], NoAccess, t.off[0]);
      Rests(Step(q1, NoAccess, t.off[0]), NoAccess, t.off[1..]);
    } else {
      assert t.on[1..][1..] == t.on[2..];
      Follows(q, x, t.on[0], x, t.on[1]);
      var q2 := Step(q1, x, t.on[1]);
      assert Held(q1, x, t.on[1..]) == Held(q2, x, t.on[2..]);
      Rests(q2, x, t.on[2..]);
      Rests(Held(q2, x, t.on[2..]), NoAccess, t.off);
    }
  }

  /** The clock after the edge. */
  lemma Follows(q: Port, x: Access, f: Fetch, y: Access, g: Fetch)
    requires Settled(q) && !x.NoAccess? && (y == x || y.NoAccess?)
    ensures var r := Step(Step(q, x, f), y, g); var e := EffectUnder(q, x, f, g);
      !r.ready && !r.update && r.idle == y.NoAccess? && Same(r, e.(idle := y.NoAccess?)) && e.idle
  {
    hide Hci.PpuCell, Joined, PaletteCell, ScrollWrite, AddressWrite, ShownCell, InPalette, Stepped, Address;
    if IsData(x) {
      SameBus(Step(q, x, f), q.(counter := Stepped(q)), g);
    }
  }

  lemma SameBus(q: Port, r: Port, f: Fetch)
    requires q.counter == r.counter || f.Fetch?
    ensures BusAddress(q, f) == BusAddress(r, f)
  {
  }

  // ---------------------------------------------------------------------------------------------
  // The sprite unit on the bus
  // ---------------------------------------------------------------------------------------------

  /** A write goes to the cell of the port's address if and only if the sprite unit is not on the bus in the
      clock in which the port is selected, or happens to fetch from that very address. */
  lemma WriteReaches(q: Port, f: Fetch)
    requires Address(q) < 0x3F00
    ensures Hci.PpuCell(q.cfg, BusAddress(q, f)) == Hci.PpuCell(q.cfg, Address(q)) <==>
      f.NoFetch? || f.a == Address(q)
  {
    hide Address;
  }

  /** The address after the access, which decides what memory answers a read. */
  function NextAddress(q: Port, g: Fetch): Word { BusAddress(q.(counter := Stepped(q)), g) }

  /** A read fetches the cell of the port's address if and only if that address was on the bus, or one that
      its memory does not distinguish from it, and the bus is in the same memory one clock later. */
  lemma ReadReaches(q: Port, f: Fetch, g: Fetch)
    ensures ReadCell(q, f, g) == Hci.PpuCell(q.cfg, Address(q)) <==>
      (Address(q) < 0x2000 <==> NextAddress(q, g) < 0x2000) &&
      (f.NoFetch? ||
       if Address(q) < 0x2000 then f.a == Address(q)
       else Hci.PpuCell(q.cfg, 0x2000 + f.a) == Hci.PpuCell(q.cfg, Address(q)))
  {
    hide Address, Stepped, Bit;
    assert Hci.PpuCell(q.cfg, BusAddress(q, f)) < 0x2000 <==> BusAddress(q, f) < 0x2000;
    if f.NoFetch? && Address(q) >= 0x2000 {
      assert 0x2000 + Address(q) % 0x2000 == Address(q);
    }
  }

  /** A data access with the bus to itself for as long as it matters. */
  predicate Undisturbed(t: Timed)
    requires t.Paced()
  {
    IsData(t.x) ==> t.First().NoFetch? && (t.x.Read? ==> t.Next().NoFetch?)
  }

  lemma UndisturbedEffect(q: Port, t: Timed)
    requires Settled(q) && t.Paced() && Undisturbed(t)
    ensures EffectUnder(q, t.x, t.First(), t.Next()) == Effect(q, t.x)
  {
    hide Hci.PpuCell, PaletteCell, ScrollWrite, AddressWrite, InPalette, Joined, Stepped, Address, ShownCell;
  }

  // ---------------------------------------------------------------------------------------------
  // Programs of accesses
  // ---------------------------------------------------------------------------------------------

  predicate Orderly(ts: seq<Timed>) { forall i :: 0 <= i < |ts| ==> ts[i].Paced() && Undisturbed(ts[i]) }

  function PerformAll(q: Port, ts: seq<Timed>): (r: Port)
    requires q.Valid()
    ensures r.Valid()
    decreases |ts|
  {
    if ts == [] then q else PerformAll(Perform(q, ts[0]), ts[1..])
  }

  lemma EffectValid(q: Port, x: Access)
    requires Settled(q)
    ensures Settled(Effect(q, x))
  {
    hide Hci.PpuCell, Joined, ShownCell;
    TakenValid(q, x, Address(q));
    JoinedRange(Taken(q, x, Address(q)).scroll);
  }

  function EffectAll(q: Port, xs: seq<Access>): (r: Port)
    requires Settled(q)
    ensures Settled(r)
    decreases |xs|
  {
    EffectValid(q, if xs == [] then NoAccess else xs[0]);
    if xs == [] then q else EffectAll(Effect(q, xs[0]), xs[1..])
  }

  function Accesses(ts: seq<Timed>): seq<Access> { seq(|ts|, i requires 0 <= i < |ts| => ts[i].x) }

  lemma SameEffect(q: Port, r: Port, x: Access)
    requires q.Valid() && r.Valid() && Same(q, r)
    ensures Same(Effect(q, x), Effect(r, x))
  {
    hide Hci.PpuCell, Joined, Taken, ShownCell;
    SameTaken(q, r, x, Address(q));
  }

  /** Nothing an access does depends on the latch. */
  lemma LatchFree(q: Port, latch: nat, x: Access, a: Word)
    requires q.Valid() && latch < 0x4000
    ensures Taken(q.(latch := latch), x, a) == Taken(q, x, a).(latch := latch)
  {
    hide Taken;
    match x
    case NoAccess => NoneTaken(q, a); NoneTaken(q.(latch := latch), a);
    case Read(sel, shown) => ReadLatchFree(q, latch, sel, shown, a);
    case Write(sel, d) => WriteLatchFree(q, latch, sel, d, a);
  }

  lemma NoneTaken(q: Port, a: Word)
    requires q.Valid()
    ensures Taken(q, NoAccess, a) == q
  {
  }

  lemma ReadLatchFree(q: Port, latch: nat, sel: nat, shown: Byte, a: Word)
    requires q.Valid() && latch < 0x4000
    ensures var x := Read(sel, shown); Taken(q.(latch := latch), x, a) == Taken(q, x, a).(latch := latch)
  {
    hide Hci.PpuCell, PaletteCell, ScrollWrite, AddressWrite, InPalette;
    if sel == 2 {
    } else if sel == 4 {
    } else if sel == 7 {
    }
  }

  lemma WriteLatchFree(q: Port, latch: nat, sel: nat, d: Byte, a: Word)
    requires q.Valid() && latch < 0x4000
    ensures var x := Write(sel, d); Taken(q.(latch := latch), x, a) == Taken(q, x, a).(latch := latch)
  {
    hide Hci.PpuCell, PaletteCell, ScrollWrite, AddressWrite, InPalette;
    if sel == 0 {
    } else if sel == 5 {
    } else if sel == 6 {
    } else if sel == 7 {
    }
  }

  lemma SameTaken(q: Port, r: Port, x: Access, a: Word)
    requires q.Valid() && r.Valid() && Same(q, r)
    ensures Taken(r, x, a) == Taken(q, x, a).(latch := r.latch)
  {
    hide Taken;
    assert r == q.(latch := r.latch);
    LatchFree(q, r.latch, x, a);
  }

  lemma {:induction false} SameEffects(q: Port, r: Port, xs: seq<Access>)
    requires Settled(q) && Settled(r) && Same(q, r)
    ensures Same(EffectAll(q, xs), EffectAll(r, xs))
    decreases |xs|
  {
    hide Effect;
    if xs == [] {
    } else {
      EffectValid(q, xs[0]);
      EffectValid(r, xs[0]);
      SameEffect(q, r, xs[0]);
      SameEffects(Effect(q, xs[0]), Effect(r, xs[0]), xs[1..]);
    }
  }

  /** Whatever their lengths and the gaps between them, accesses have their effects one after the other, as
      long as the sprite unit stays off the bus where data accesses need it. */
  lemma {:induction false} AccessesAct(q: Port, ts: seq<Timed>)
    requires Settled(q) && Orderly(ts)
    ensures Settled(PerformAll(q, ts)) && Same(PerformAll(q, ts), EffectAll(q, Accesses(ts)))
    decreases |ts|
  {
    hide Effect, EffectUnder, Perform, Undisturbed;
    if ts == [] {
    } else {
      var x, p := ts[0].x, Perform(q, ts[0]);
      AccessActsOnce(q, ts[0]);
      UndisturbedEffect(q, ts[0]);
      AccessesAct(p, ts[1..]);
      EffectValid(q, x);
      SameEffects(p, Effect(q, x), Accesses(ts[1..]));
      assert Accesses(ts)[1..] == Accesses(ts[1..]);
    }
  }

  lemma {:induction false} EffectsAdd(q: Port, xs: seq<Access>, ys: seq<Access>)
    requires Settled(q)
    ensures EffectAll(q, xs + ys) == EffectAll(EffectAll(q, xs), ys)
    decreases |xs|
  {
    hide Effect;
    if xs == [] {
      assert xs + ys == ys;
    } else {
      EffectValid(q, xs[0]);
      assert (xs + ys)[1..] == xs[1..] + ys;
      EffectsAdd(Effect(q, xs[0]), xs[1..], ys);
    }
  }

  /** Setting the address takes two writes. */
  lemma AddressSet(q: Port, hi: Byte, lo: Byte)
    requires Settled(q) && !q.second
    ensures var r := Effect(Effect(q, Write(6, hi)), Write(6, lo));
      Settled(r) && !r.second && r.counter == hi % 64 * 0x100 + lo && r.by32 == q.by32 && r.vram == q.vram &&
      r.palette == q.palette && r.buffer == q.buffer && r.cfg == q.cfg
  {
    hide Hci.PpuCell, ShownCell;
    var r := Effect(Effect(q, Write(6, hi)), Write(6, lo));
    AddressBits(hi, lo, q.scroll);
    assert r.scroll == q.scroll.(fv := hi / 16 % 4, v := hi / 8 % 2, h := hi / 4 % 2,
      vt := (hi % 4 * 8 + q.scroll.vt % 8) / 8 * 8 + lo / 32, ht := lo % 32);
  }

  lemma AddressBits(hi: Byte, lo: Byte, s: Scroll)
    requires s.Valid()
    ensures hi / 16 % 4 * 0x1000 + hi / 8 % 2 * 0x800 + hi / 4 % 2 * 0x400 + ((hi % 4 * 8 + s.vt % 8) / 8 * 8 + lo / 32) * 0x20 + lo % 32
      == hi % 64 * 0x100 + lo
  {
    SixBits(hi);
    Packs(hi % 4, s.vt % 8);
    LowSplit(lo);
  }

  lemma SixBits(hi: Byte)
    ensures hi / 16 % 4 * 16 + hi / 8 % 2 * 8 + hi / 4 % 2 * 4 + hi % 4 == hi % 64
  {
    Nested(hi, 32, 2);
    Nested(hi, 16, 2);
    Nested(hi, 8, 2);
    Nested(hi, 4, 2);
  }

  /** Taking d off a remainder by twice d leaves one by d. */
  lemma Nested(a: nat, d: nat, two: nat)
    requires d > 0 && two == 2
    ensures a % (2 * d) == a / d % 2 * d + a % d
  {
    var q, r := a / d, a % d;
    var h, b := q / 2, q % 2;
    assert a == d * q + r && q == 2 * h + b;
    assert d * q == h * (2 * d) + b * d;
    Quotient(a, 2 * d, h, b * d + r);
    assert a % (2 * d) == a - h * (2 * d);
  }

  lemma LowSplit(lo: Byte)
    ensures lo / 32 * 32 + lo % 32 == lo
  {
  }

  lemma Packs(e: nat, f: nat)
    requires f < 8
    ensures (e * 8 + f) / 8 == e
  {
  }

  // ---------------------------------------------------------------------------------------------
  // Writing and reading data
  // ---------------------------------------------------------------------------------------------

  /** The counter after k data accesses, the address of the next one and the cell behind it. */
  function CounterAt(q: Port, k: nat): nat { (q.counter + (if q.by32 then 32 else 1) * k) % 0x8000 }

  function AddressAt(q: Port, k: nat): (a: Word)
    ensures a < 0x4000
  {
    CounterAt(q, k) % 0x4000
  }

  function CellAt(q: Port, k: nat): nat { Hci.PpuCell(q.cfg, AddressAt(q, k)) }

  /** The cell read k fetches, and whether the address moves to the other memory behind it. */
  function ReadCellAt(q: Port, k: nat): nat { ShownCell(q.cfg, AddressAt(q, k), AddressAt(q, k + 1)) }

  predicate Crosses(q: Port, k: nat) { (AddressAt(q, k) < 0x2000) != (AddressAt(q, k + 1) < 0x2000) }

  /** A read whose address steps into the other memory fetches from that one, where the low address bits
      lead; all others fetch the byte at their address. */
  lemma ReadsHomeUnlessCrossing(q: Port, k: nat)
    ensures ReadCellAt(q, k) == CellAt(q, k) <==> !Crosses(q, k)
  {
    hide AddressAt, Bit;
    var a, b := AddressAt(q, k), AddressAt(q, k + 1);
    if a >= 0x2000 {
      assert 0x2000 + a % 0x2000 == a;
    }
  }

  predicate BelowPalette(q: Port, n: nat) { forall k :: 0 <= k < n ==> AddressAt(q, k) < 0x3F00 }

  /** Of the first n addresses none behind address k is a mirror of it. */
  predicate LastThere(q: Port, k: nat, n: nat) { forall j :: k < j < n ==> CellAt(q, j) != CellAt(q, k) }

  lemma CounterStep(q: Port, r: Port, k: nat)
    requires q.Valid() && r.counter == CounterAt(q, k) && r.by32 == q.by32
    ensures Stepped(r) == CounterAt(q, k + 1)
  {
    var s := if q.by32 then 32 else 1;
    assert s * (k + 1) == s * k + s;
    AddMod(q.counter + s * k, s);
  }

  lemma AddMod(a: nat, s: nat)
    ensures (a % 0x8000 + s) % 0x8000 == (a + s) % 0x8000
  {
    var d, m := a / 0x8000, a % 0x8000;
    assert a == 0x8000 * d + m;
  }

  function DataWrites(data: seq<Byte>): seq<Access> { seq(|data|, i requires 0 <= i < |data| => Write(7, data[i])) }

  function DataReads(n: nat): seq<Access> { seq(n, _ => Read(7, 0)) }

  /** The last of several accesses. */
  lemma EffectLast(q: Port, xs: seq<Access>, x: Access)
    requires Settled(q)
    ensures EffectAll(q, xs + [x]) == Effect(EffectAll(q, xs), x)
  {
    hide Effect;
    EffectsAdd(q, xs, [x]);
    EffectValid(EffectAll(q, xs), x);
    assert EffectAll(Effect(EffectAll(q, xs), x), [x][1..]) == Effect(EffectAll(q, xs), x);
  }

  /** Write k goes to the cell of address k; of several writes to one cell the last one stays, and other cells
      keep their bytes. */
  lemma {:induction false} WritesLand(q: Port, data: seq<Byte>)
    requires Settled(q) && BelowPalette(q, |data|)
    ensures var r := EffectAll(q, DataWrites(data));
      r == q.(counter := r.counter, vram := r.vram) && r.counter == CounterAt(q, |data|) &&
      (forall k :: 0 <= k < |data| && LastThere(q, k, |data|) ==> r.vram[CellAt(q, k)] == data[k]) &&
      forall c :: 0 <= c < 0x4000 && (forall k :: 0 <= k < |data| ==> CellAt(q, k) != c) ==> r.vram[c] == q.vram[c]
    decreases |data|
  {
    hide Effect, Hci.PpuCell, EffectAll, AddressAt;
    if data == [] {
      assert EffectAll(q, []) == q && CounterAt(q, 0) == q.counter by { NoEffects(q); }
    } else {
      var n := |data| - 1;
      var front := data[..n];
      WritesLand(q, front);
      assert DataWrites(data) == DataWrites(front) + [Write(7, data[n])];
      EffectLast(q, DataWrites(front), Write(7, data[n]));
      var r := EffectAll(q, DataWrites(front));
      CounterStep(q, r, n);
      assert Address(r) == AddressAt(q, n) by { AddressIs(q, r, n); }
      assert Effect(r, Write(7, data[n])) == r.(vram := r.vram[CellAt(q, n) := data[n]], counter := Stepped(r)) by {
        WriteEffect(r, data[n]);
      }
      forall k | 0 <= k < n && LastThere(q, k, n + 1)
        ensures LastThere(q, k, n) && CellAt(q, n) != CellAt(q, k)
      {
      }
    }
  }

  lemma AddressIs(q: Port, r: Port, k: nat)
    requires r.counter == CounterAt(q, k)
    ensures Address(r) == AddressAt(q, k)
  {
  }

  lemma NoEffects(q: Port)
    requires Settled(q)
    ensures EffectAll(q, []) == q && CounterAt(q, 0) == q.counter
  {
  }

  lemma WriteEffect(q: Port, d: Byte)
    requires Settled(q) && Address(q) < 0x3F00
    ensures Effect(q, Write(7, d)) == q.(vram := q.vram[Hci.PpuCell(q.cfg, Address(q)) := d], counter := Stepped(q))
  {
    hide Hci.PpuCell, ShownCell;
  }

  lemma ReadEffect(q: Port)
    requires Settled(q) && Address(q) < 0x3F00
    ensures Effect(q, Read(7, 0)) ==
      q.(output := q.buffer, buffer := q.vram[ReadCell(q, NoFetch, NoFetch)], counter := Stepped(q))
  {
    hide ReadCell;
  }

  /** Reads are one behind: each gives what the one before fetched. */
  lemma {:induction false} ReadsFollow(q: Port, n: nat)
    requires Settled(q) && (forall k :: 0 <= k < n ==> AddressAt(q, k) < 0x3F00)
    ensures var r := EffectAll(q, DataReads(n));
      r == q.(counter := r.counter, output := r.output, buffer := r.buffer) && r.counter == CounterAt(q, n) &&
      r.buffer == (if n == 0 then q.buffer else q.vram[ReadCellAt(q, n - 1)]) &&
      (n > 0 ==> r.output == if n == 1 then q.buffer else q.vram[ReadCellAt(q, n - 2)])
    decreases n
  {
    hide Effect, ShownCell, EffectAll;
    if n == 0 {
      assert DataReads(0) == [];
      NoEffects(q);
    } else {
      ReadsFollow(q, n - 1);
      assert DataReads(n) == DataReads(n - 1) + [Read(7, 0)];
      EffectLast(q, DataReads(n - 1), Read(7, 0));
      var r := EffectAll(q, DataReads(n - 1));
      CounterStep(q, r, n - 1);
      assert Address(r) == AddressAt(q, n - 1) < 0x3F00;
      assert ReadCell(r, NoFetch, NoFetch) == ReadCellAt(q, n - 1);
      ReadEffect(r);
    }
  }

  function SetAddress(hi: Byte, lo: Byte): seq<Access> { [Write(6, hi), Write(6, lo)] }

  /** Writing data from an address, setting the address again and reading k + 2 times gives as the last byte
      what the read at address k has fetched; for either step, whatever the buffer and memory held. */
  lemma ReadsBack(q: Port, hi: Byte, lo: Byte, data: seq<Byte>, k: nat)
    requires Settled(q) && !q.second && k < |data|
    requires var start := EffectAll(q, SetAddress(hi, lo));
      BelowPalette(start, |data| + 1) && LastThere(start, k, |data|)
    ensures var start := EffectAll(q, SetAddress(hi, lo));
      var written := EffectAll(q, SetAddress(hi, lo) + DataWrites(data));
      EffectAll(written, SetAddress(hi, lo) + DataReads(k + 2)).output == written.vram[ReadCellAt(start, k)] &&
      written.vram[CellAt(start, k)] == data[k] && start.counter == hi % 64 * 0x100 + lo
  {
    hide Effect, EffectAll, Hci.PpuCell, ShownCell, CellAt, AddressAt;
    var start := EffectAll(q, SetAddress(hi, lo));
    Addressed(q, hi, lo);
    EffectsAdd(q, SetAddress(hi, lo), DataWrites(data));
    WritesLand(start, data);
    var written := EffectAll(start, DataWrites(data));
    var again := EffectAll(written, SetAddress(hi, lo));
    Addressed(written, hi, lo);
    EffectsAdd(written, SetAddress(hi, lo), DataReads(k + 2));
    forall i: nat
      ensures AddressAt(again, i) == AddressAt(start, i)
    {
      SameAddresses(start, again, i);
    }
    ReadsFollow(again, k + 2);
    assert ReadCellAt(again, k) == ReadCellAt(start, k);
  }

  lemma SameAddresses(q: Port, r: Port, k: nat)
    requires q.counter == r.counter && q.by32 == r.by32
    ensures AddressAt(q, k) == AddressAt(r, k)
  {
  }

  /** So data[k] reads back, after one stale byte, unless a later write went to the same cell or the address
      steps from pattern memory into the name tables behind it. */
  lemma RoundTrip(q: Port, hi: Byte, lo: Byte, data: seq<Byte>, k: nat)
    requires Settled(q) && !q.second && k < |data|
    requires var start := EffectAll(q, SetAddress(hi, lo));
      BelowPalette(start, |data| + 1) && LastThere(start, k, |data|) && !Crosses(start, k)
    ensures var written := EffectAll(q, SetAddress(hi, lo) + DataWrites(data));
      EffectAll(written, SetAddress(hi, lo) + DataReads(k + 2)).output == data[k]
  {
    hide Effect, EffectAll, ReadCellAt, CellAt, LastThere, BelowPalette, AddressAt, Crosses;
    ReadsBack(q, hi, lo, data, k);
    ReadsHomeUnlessCrossing(EffectAll(q, SetAddress(hi, lo)), k);
  }

  /** The last byte of pattern memory does not read back: the byte of a name table does in its place. */
  lemma LastPatternByte(q: Port, d: Byte)
    requires Settled(q) && !q.second
    ensures var written := EffectAll(q, SetAddress(0x1F, 0xFF) + DataWrites([d]));
      EffectAll(written, SetAddress(0x1F, 0xFF) + DataReads(2)).output == q.vram[Hci.PpuCell(q.cfg, 0x3FFF)]
  {
    hide Effect, EffectAll, Hci.PpuCell, Bit;
    var start := EffectAll(q, SetAddress(0x1F, 0xFF));
    Addressed(q, 0x1F, 0xFF);
    assert start.counter == 0x1FFF;
    assert AddressAt(start, 0) == 0x1FFF && AddressAt(start, 1) == if start.by32 then 0x201F else 0x2000;
    ReadsBack(q, 0x1F, 0xFF, [d], 0);
    EffectsAdd(q, SetAddress(0x1F, 0xFF), DataWrites([d]));
    assert DataWrites([d]) == [Write(7, d)];
    NoEffects(start);
    EffectLast(start, [], Write(7, d));
    assert [] + [Write(7, d)] == [Write(7, d)];
    WriteEffect(start, d);
    PatternEnd(q.cfg);
  }

  lemma PatternEnd(cfg: Hci.Config)
    ensures Hci.PpuCell(cfg, 0x1FFF) == 0x1FFF && 0x2000 <= Hci.PpuCell(cfg, 0x3FFF) < 0x4000
  {
    hide Bit;
  }

  /** The whole exchange clock by clock: accesses of any length with any gaps, the sprite unit off the bus
      where the data accesses need it. */
  lemma RoundTripInClocks(q: Port, hi: Byte, lo: Byte, data: seq<Byte>, k: nat, ts: seq<Timed>)
    requires Settled(q) && !q.second && k < |data| && Orderly(ts)
    requires Accesses(ts) == SetAddress(hi, lo) + DataWrites(data) + (SetAddress(hi, lo) + DataReads(k + 2))
    requires var start := EffectAll(q, SetAddress(hi, lo));
      BelowPalette(start, |data| + 1) && LastThere(start, k, |data|) && !Crosses(start, k)
    ensures PerformAll(q, ts).output == data[k]
  {
    hide Effect, EffectAll, PerformAll, LastThere, BelowPalette, AddressAt, Crosses, Orderly;
    AccessesAct(q, ts);
    EffectsAdd(q, SetAddress(hi, lo) + DataWrites(data), SetAddress(hi, lo) + DataReads(k + 2));
    RoundTrip(q, hi, lo, data, k);
  }

  lemma Addressed(q: Port, hi: Byte, lo: Byte)
    requires Settled(q) && !q.second
    ensures var r := EffectAll(q, SetAddress(hi, lo));
      !r.second && r.counter == hi % 64 * 0x100 + lo && r.by32 == q.by32 && r.vram == q.vram && r.cfg == q.cfg
  {
    hide Effect, EffectAll;
    AddressSet(q, hi, lo);
    NoEffects(q);
    EffectLast(q, [], Write(6, hi));
    EffectLast(q, [Write(6, hi)], Write(6, lo));
    assert [] + [Write(6, hi)] == [Write(6, hi)] && [Write(6, hi)] + [Write(6, lo)] == SetAddress(hi, lo);
  }
}
