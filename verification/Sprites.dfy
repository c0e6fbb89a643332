/** The sprite unit at the granularity of NES pixels: object evaluation into the temporary memory,
    pattern fetch into the buffer memory, shift registers and the priority chain.

    A pixel lasts eight clocks.  In all but the last the state settles; in the last, the pulse, the
    shift registers shift and the in-range counter steps. */
module Sprites {
  import opened Bytes
  import opened Raster

  function Reversed(b: Bits): Bits { seq(8, k requires 0 <= k < 8 => b[7 - k]) }

  type Oam = m: seq<Byte> | |m| == 0x100 witness seq(0x100, _ => 0)

  type PatternMemory = m: seq<Byte> | |m| == 0x2000 witness seq(0x2000, _ => 0)

  /** The inputs during one VGA line.  y is the NES line on display, yNext that of the next VGA line. */
  datatype Inputs = Inputs(oam: Oam, patterns: PatternMemory, en: bool, clip: bool, tall: bool, table: bool, y: nat, yNext: nat)

  /** An entry of the temporary memory: an object that is in range of the next line. */
  datatype Slot = Slot(primary: bool, tile: Byte, x: Byte, palette: nat, behind: bool, flip: bool, row: nat)

  /** An entry of the buffer memory: an object with its pattern bits, ready to be shifted out. */
  datatype Buffer = Buffer(primary: bool, behind: bool, palette: nat, pd1: Bits, pd0: Bits, x: Byte)

  const EMPTY: Buffer := Buffer(false, false, 0, BLANK, BLANK, 0)

  datatype Shift = Shift(pd1: Bits, pd0: Bits)

  datatype Unit = Unit(stm: seq<Slot>, sbm: seq<Buffer>, cnt: nat, overflow: bool, pd1: Bits, pd0: Bits, shift: seq<Shift>)
  {
    predicate Valid() { |stm| == 8 && |sbm| == 8 && |shift| == 8 && cnt <= 8 }
  }

  /** The output for one pixel; colour 0 is transparent. */
  datatype Dot = Dot(primary: bool, behind: bool, palette: nat, colour: nat)

  const NOTHING: Dot := Dot(false, false, 0, 0)

  // ---------------------------------------------------------------------------------------------
  // Object evaluation
  // ---------------------------------------------------------------------------------------------

  function TopLine(oam: Oam, i: nat): Byte
    requires i < 64
  {
    Add8(oam[4 * i], 1)
  }

  /** The 9-bit difference between the next line and the top line of an object. */
  function RangeResult(l: Inputs, i: nat): nat
    requires i < 64
  {
    (l.yNext - TopLine(l.oam, i)) % 0x200
  }

  predicate InRange(l: Inputs, i: nat)
    requires i < 64
  {
    RangeResult(l, i) < if l.tall then 16 else 8
  }

  /** What evaluation stores: vertical inversion complements all four bits of the row. */
  function Evaluated(l: Inputs, i: nat): Slot
    requires i < 64
  {
    var attributes := l.oam[4 * i + 2];
    var row := RangeResult(l, i) % 16;
    Slot(i == 0, l.oam[4 * i + 1], l.oam[4 * i + 3], attributes % 4, Bit(attributes, 5), Bit(attributes, 6),
         if Bit(attributes, 7) then 15 - row else row)
  }

  // ---------------------------------------------------------------------------------------------
  // One pixel
  // ---------------------------------------------------------------------------------------------

  /** Lines on which objects are evaluated and fetched, and lines on which they are displayed. */
  predicate Evaluates(l: Inputs) { l.en && l.yNext < 239 }

  predicate Displays(l: Inputs) { l.en && l.y < 239 }

  predicate FetchPixel(x: nat) { 256 <= x < 320 }

  function PatternAddress(l: Inputs, s: Slot, plane: nat): nat {
    if l.tall then s.tile % 2 * 0x1000 + s.tile / 2 * 32 + s.row / 8 * 16 + plane * 8 + s.row % 8
    else B(l.table) * 0x1000 + s.tile * 16 + plane * 8 + s.row % 8
  }

  /** The pattern byte of an object, bit 0 being the leftmost pixel. */
  function Pattern(l: Inputs, s: Slot, plane: nat): Bits {
    var a := PatternAddress(l, s, plane) % 0x2000;
    var bits := BitsOf(l.patterns[a]);
    if s.flip then bits else Reversed(bits)
  }

  function FetchIndex(x: nat): nat { x / 8 % 8 }

  /** The pattern fetch: two pixels for each plane, then two in which the buffer entry is written. */
  function Fetched(u: Unit, l: Inputs, x: nat): Unit
    requires u.Valid()
  {
    if !Evaluates(l) || !FetchPixel(x) then u
    else
      var j := FetchIndex(x);
      if j >= u.cnt then u.(sbm := u.sbm[j := EMPTY])
      else
        var s := u.stm[j];
        match x / 2 % 4
        case 0 => u.(pd0 := Pattern(l, s, 0))
        case 1 => u.(pd1 := Pattern(l, s, 1))
        case 2 => u.(sbm := u.sbm[j := Buffer(s.primary, s.behind, s.palette, u.pd1, u.pd0, s.x)])
        case _ => u
  }

  /** A shift register is loaded while x is that of its object. */
  function Reloaded(u: Unit, x: nat, j: nat): Shift
    requires u.Valid() && j < 8
  {
    if u.sbm[j].x == x then Shift(u.sbm[j].pd1, u.sbm[j].pd0) else u.shift[j]
  }

  function ReloadedAll(u: Unit, x: nat): seq<Shift>
    requires u.Valid()
  {
    seq(8, j requires 0 <= j < 8 => Reloaded(u, x, j))
  }

  function Loaded(u: Unit, l: Inputs, x: nat): Unit
    requires u.Valid()
  {
    if Displays(l) then u.(shift := ReloadedAll(u, x)) else u
  }

  /** The overflow flag is cleared at the start of the frame and set when the counter reads eight. */
  function Flagged(u: Unit, l: Inputs, x: nat): Unit {
    u.(overflow := !(l.yNext == 0 && x == 0) && (u.overflow || u.cnt >= 8))
  }

  function Settled(u: Unit, l: Inputs, x: nat): (r: Unit)
    requires u.Valid()
    ensures r.Valid()
  {
    Flagged(Fetched(Loaded(u, l, x), l, x), l, x)
  }

  function Counted(u: Unit, l: Inputs, x: nat): Unit
    requires u.Valid()
  {
    if !Evaluates(l) then u
    else if x == 320 then u.(cnt := 0)
    else if x < 256 && x % 4 == 0 && InRange(l, x / 4) && u.cnt < 8 then
      u.(stm := u.stm[u.cnt := Evaluated(l, x / 4)], cnt := u.cnt + 1)
    else u
  }

  function ShiftBy(s: Shift, n: nat): Shift { Shift(Shifted(s.pd1, n), Shifted(s.pd0, n)) }

  function ShiftAll(s: seq<Shift>): seq<Shift> { seq(|s|, j requires 0 <= j < |s| => ShiftBy(s[j], 1)) }

  function ShiftedOut(u: Unit, l: Inputs): Unit
    requires u.Valid()
  {
    if Displays(l) then u.(shift := ShiftAll(u.shift)) else u
  }

  function Pulsed(u: Unit, l: Inputs, x: nat): (r: Unit)
    requires u.Valid()
    ensures r.Valid()
  {
    Counted(ShiftedOut(u, l), l, x)
  }

  function Pixel(u: Unit, l: Inputs, x: nat): (r: Unit)
    requires u.Valid()
    ensures r.Valid()
  {
    Pulsed(Settled(u, l, x), l, x)
  }

  function Colour(s: Shift): nat { 2 * B(s.pd1[0]) + B(s.pd0[0]) }

  /** The priority chain: the first register whose pixel is not transparent. */
  function Chain(u: Unit, j: nat): Dot
    requires u.Valid() && j <= 8
    decreases 8 - j
  {
    if j == 8 then NOTHING
    else if Colour(u.shift[j]) != 0 then
      Dot(u.sbm[j].primary, u.sbm[j].behind, u.sbm[j].palette, Colour(u.shift[j]))
    else Chain(u, j + 1)
  }

  /** The output at pixel x once the state has settled. */
  function Output(u: Unit, l: Inputs, x: nat): Dot
    requires u.Valid()
  {
    if !l.en || (l.clip && x < 8) then NOTHING else Chain(Settled(u, l, x), 0)
  }

  // ---------------------------------------------------------------------------------------------
  // One line
  // ---------------------------------------------------------------------------------------------

  /** The state after the first p pixels of a line. */
  function Scan(u: Unit, l: Inputs, p: nat): (r: Unit)
    requires u.Valid()
    ensures r.Valid()
  {
    if p == 0 then u else Pixel(Scan(u, l, p - 1), l, NesX(p - 1))
  }

  // ---------------------------------------------------------------------------------------------
  // Reference
  // ---------------------------------------------------------------------------------------------

  /** The line within an object, before inversion. */
  function ObjectLine(l: Inputs, i: nat): int
    requires i < 64
  {
    l.yNext - TopLine(l.oam, i)
  }

  function Height(l: Inputs): nat { if l.tall then 16 else 8 }

  predicate Crosses(l: Inputs, i: nat) { i < 64 && 0 <= ObjectLine(l, i) < Height(l) }

  predicate AllCross(l: Inputs, s: seq<nat>) { forall k :: 0 <= k < |s| ==> Crosses(l, s[k]) }

  /** Objects among the first n that the next line crosses, in OAM order. */
  function Crossing(l: Inputs, n: nat): (s: seq<nat>)
    requires n <= 64
    ensures AllCross(l, s)
  {
    if n == 0 then [] else if Crosses(l, n - 1) then Crossing(l, n - 1) + [n - 1] else Crossing(l, n - 1)
  }

  /** The first eight of a list. */
  function FirstEight(s: seq<nat>): (r: seq<nat>)
    ensures |r| <= 8
  {
    if |s| <= 8 then s else s[..8]
  }

  /** The objects on the next line: the first eight in OAM order that it crosses. */
  function Chosen(l: Inputs, n: nat): (s: seq<nat>)
    requires n <= 64
    ensures AllCross(l, s) && |s| <= 8
  {
    FirstEight(Crossing(l, n))
  }

  /** Where the pattern of the row of object i on the next line starts. */
  function LookupAddress(l: Inputs, i: nat): (a: nat)
    requires i < 64 && 0 <= ObjectLine(l, i) < Height(l)
    ensures a + 8 < 0x2000
  {
    var tile := l.oam[4 * i + 1];
    var row := if Bit(l.oam[4 * i + 2], 7) then Height(l) - 1 - ObjectLine(l, i) else ObjectLine(l, i);
    if l.tall then tile % 2 * 0x1000 + (tile - tile % 2 + row / 8) * 16 + row % 8
    else B(l.table) * 0x1000 + tile * 16 + row
  }

  /** The colour of object i at pixel k from its left edge, by direct lookup: a tall object is two
      consecutive tiles of the table its tile number selects, and inversions mirror it. */
  function ObjectColour(l: Inputs, i: nat, k: nat): nat
    requires i < 64 && k < 8 && 0 <= ObjectLine(l, i) < Height(l)
  {
    var bit, address := if Bit(l.oam[4 * i + 2], 6) then k else 7 - k, LookupAddress(l, i);
    2 * B(Bit(l.patterns[address + 8], bit)) + B(Bit(l.patterns[address], bit))
  }

  /** The colour of object i at x. */
  function ColourAt(l: Inputs, i: nat, x: nat): nat
    requires Crosses(l, i)
  {
    var left := l.oam[4 * i + 3];
    if left <= x < left + 8 then ObjectColour(l, i, x - left) else 0
  }

  /** The first object of s that is opaque at x. */
  function FirstOpaque(l: Inputs, s: seq<nat>, x: nat): Dot
    requires AllCross(l, s)
    decreases |s|
  {
    if s == [] then NOTHING
    else if ColourAt(l, s[0], x) != 0 then
      Dot(s[0] == 0, Bit(l.oam[4 * s[0] + 2], 5), l.oam[4 * s[0] + 2] % 4, ColourAt(l, s[0], x))
    else FirstOpaque(l, s[1..], x)
  }
}
