/** The background unit at the granularity of NES pixels: scroll counters, tile fetches and the shift
    registers that two tiles are kept in. */
module Background {
  import opened Bytes
  import opened Raster

  type VideoMemory = m: seq<Byte> | |m| == 0x4000 witness seq(0x4000, _ => 0)

  /** The scroll latches: fine and coarse positions and name table bits. */
  datatype Scroll = Scroll(fv: nat, vt: nat, v: nat, fh: nat, ht: nat, h: nat)
  {
    predicate Valid() { fv < 8 && vt < 32 && v < 2 && fh < 8 && ht < 32 && h < 2 }
  }

  /** The inputs during one VGA line in which no register access moves the counters. */
  datatype Inputs = Inputs(vram: VideoMemory, scroll: Scroll, en: bool, clip: bool, table: bool, y: nat, yNext: nat)

  /** The vertical counters. */
  datatype Row = Row(vc: nat, vtc: nat, fvc: nat)
  {
    predicate Valid() { vc < 2 && vtc < 32 && fvc < 8 }
  }

  /** col is the horizontal name table bit and the tile index as one 6-bit counter.  Registers are bits,
      least significant first. */
  datatype Unit = Unit(row: Row, col: nat, par: Byte, ar: nat, pd1: Byte, pd0: Byte,
                       bit3: seq<bool>, bit2: seq<bool>, bit1: seq<bool>, bit0: seq<bool>)
  {
    predicate Valid() {
      row.Valid() && col < 64 && ar < 4 && |bit3| == 9 && |bit2| == 9 && |bit1| == 16 && |bit0| == 16
    }
  }

  // ---------------------------------------------------------------------------------------------
  // Counters
  // ---------------------------------------------------------------------------------------------

  /** Nine bits in a chain, except that tile 29 is the last of a name table. */
  function NextRow(r: Row): (n: Row)
    requires r.Valid()
    ensures n.Valid()
  {
    if r.vtc == 29 && r.fvc == 7 then Row(1 - r.vc, 0, 0)
    else
      var count := (r.vc * 0x100 + r.vtc * 8 + r.fvc + 1) % 0x200;
      Row(count / 0x100, count / 8 % 32, count % 8)
  }

  function RowOf(s: Scroll): Row { Row(s.v, s.vt, s.fv) }

  function ColumnOf(s: Scroll): nat { s.h * 32 + s.ht }

  // ---------------------------------------------------------------------------------------------
  // Fetching
  // ---------------------------------------------------------------------------------------------

  function NameAddress(r: Row, col: nat): nat { 0x2000 + r.vc * 0x800 + col / 32 * 0x400 + r.vtc * 32 + col % 32 }

  function AttributeAddress(r: Row, col: nat): nat {
    0x2000 + r.vc * 0x800 + col / 32 * 0x400 + 0x3C0 + r.vtc / 4 * 8 + col % 32 / 4
  }

  function PatternAddress(table: bool, tile: Byte, plane: nat, fvc: nat): nat {
    B(table) * 0x1000 + tile * 16 + plane * 8 + fvc
  }

  /** The two attribute bits of a tile: one of the four pairs of the byte. */
  function AttributeBits(b: Byte, r: Row, col: nat): nat {
    var shift := r.vtc / 2 % 2 * 4 + col / 2 % 2 * 2;
    B(Bit(b, shift)) + 2 * B(Bit(b, shift + 1))
  }

  predicate Active(l: Inputs) { l.en && (l.y < 239 || l.yNext == 0) }

  predicate FetchPixel(x: nat) { x < 256 || 320 <= x < 336 }

  /** One access a pixel in the first four pixels of a tile. */
  function Fetched(u: Unit, l: Inputs, x: nat): (r: Unit)
    requires u.Valid()
    ensures r.Valid()
  {
    if !Active(l) || !FetchPixel(x) then u
    else
      match x % 8
      case 0 => u.(par := l.vram[NameAddress(u.row, u.col)])
      case 1 => u.(ar := AttributeBits(l.vram[AttributeAddress(u.row, u.col)], u.row, u.col))
      case 2 => u.(pd0 := l.vram[PatternAddress(l.table, u.par, 0, u.row.fvc)])
      case 3 => u.(pd1 := l.vram[PatternAddress(l.table, u.par, 1, u.row.fvc)])
      case _ => u
  }

  // ---------------------------------------------------------------------------------------------
  // The pulse at the end of a pixel
  // ---------------------------------------------------------------------------------------------

  function Shift16(b: seq<bool>): seq<bool>
    requires |b| == 16
  {
    b[1..] + [false]
  }

  /** The attribute registers repeat their top bit. */
  function Shift9(b: seq<bool>): seq<bool>
    requires |b| == 9
  {
    b[1..] + [b[8]]
  }

  /** The pattern byte goes in with its leftmost pixel, bit 7, lowest. */
  function Pixels(b: Byte): (s: seq<bool>)
    ensures |s| == 8
  {
    [Bit(b, 7), Bit(b, 6), Bit(b, 5), Bit(b, 4), Bit(b, 3), Bit(b, 2), Bit(b, 1), Bit(b, 0)]
  }

  function ShiftTiles(u: Unit): (r: Unit)
    requires u.Valid()
    ensures r.Valid()
  {
    u.(bit3 := Shift9(u.bit3), bit2 := Shift9(u.bit2), bit1 := Shift16(u.bit1), bit0 := Shift16(u.bit0))
  }

  /** At the end of a tile the upper halves are loaded and the column advances. */
  function NextTile(u: Unit): (r: Unit)
    requires u.Valid()
    ensures r.Valid()
  {
    u.(col := (u.col + 1) % 64,
       bit3 := u.bit3[..8] + [u.ar / 2 == 1], bit2 := u.bit2[..8] + [u.ar % 2 == 1],
       bit1 := u.bit1[..8] + Pixels(u.pd1), bit0 := u.bit0[..8] + Pixels(u.pd0))
  }

  /** At x 319 the horizontal counters are reloaded; the vertical ones step when the NES line changes and
      are reloaded when a frame begins. */
  function Turned(u: Unit, l: Inputs): (r: Unit)
    requires u.Valid() && l.scroll.Valid()
    ensures r.Valid()
  {
    u.(col := ColumnOf(l.scroll),
       row := if l.yNext == l.y then u.row else if l.yNext == 0 then RowOf(l.scroll) else NextRow(u.row))
  }

  function Pulsed(u: Unit, l: Inputs, x: nat): (r: Unit)
    requires u.Valid() && l.scroll.Valid()
    ensures r.Valid()
  {
    if !Active(l) then u
    else if x == 319 then Turned(u, l)
    else if !FetchPixel(x) then u
    else if x % 8 == 7 then NextTile(ShiftTiles(u))
    else ShiftTiles(u)
  }

  function Pixel(u: Unit, l: Inputs, x: nat): (r: Unit)
    requires u.Valid() && l.scroll.Valid()
    ensures r.Valid()
  {
    Pulsed(Fetched(u, l, x), l, x)
  }

  /** The palette index at the fine horizontal position. */
  function Output(u: Unit, l: Inputs, x: nat): nat
    requires u.Valid() && l.scroll.Valid()
  {
    if !l.en || (l.clip && x < 8) then 0
    else
      var f := l.scroll.fh;
      8 * B(u.bit3[f]) + 4 * B(u.bit2[f]) + 2 * B(u.bit1[f]) + B(u.bit0[f])
  }

  /** The state after the first p pixels of a line. */
  function Scan(u: Unit, l: Inputs, p: nat): (r: Unit)
    requires u.Valid() && l.scroll.Valid()
    ensures r.Valid()
  {
    if p == 0 then u else Pixel(Scan(u, l, p - 1), l, NesX(p - 1))
  }

  // ---------------------------------------------------------------------------------------------
  // Reference
  // ---------------------------------------------------------------------------------------------

  /** The palette index at horizontal position x of the 512 pixel wide plane, by direct lookup of the name
      table, the attribute table and the pattern table. */
  function Lookup(m: VideoMemory, table: bool, r: Row, x: nat): nat
    requires r.Valid() && x < 512
  {
    var plane := 0x2000 + r.vc * 0x800 + x / 256 * 0x400;
    var tx := x % 256 / 8;
    var tile: int := m[plane + r.vtc * 32 + tx];
    var attributes := m[plane + 0x3C0 + r.vtc / 4 * 8 + tx / 4];
    var quadrant := r.vtc % 4 / 2 * 2 + tx % 4 / 2;
    var pattern := B(table) * 0x1000 + tile * 16 + r.fvc;
    8 * B(Bit(attributes, 2 * quadrant + 1)) + 4 * B(Bit(attributes, 2 * quadrant)) +
    2 * B(Bit(m[pattern + 8], 7 - x % 8)) + B(Bit(m[pattern], 7 - x % 8))
  }
}
