/** The background unit over whole lines and frames: what it shows is what a direct lookup gives. */
module BackgroundLines {
  import opened Bytes
  import opened Raster
  import opened Background

  // ---------------------------------------------------------------------------------------------
  // One tile
  // ---------------------------------------------------------------------------------------------

  /** What is fetched for a tile. */
  datatype Tile = Tile(ar: nat, pd1: Byte, pd0: Byte)

  function TileAt(l: Inputs, r: Row, col: nat): (t: Tile)
    requires r.Valid() && col < 64
    ensures t.ar < 4
  {
    var tile := l.vram[NameAddress(r, col)];
    Tile(AttributeBits(l.vram[AttributeAddress(r, col)], r, col),
         l.vram[PatternAddress(l.table, tile, 1, r.fvc)], l.vram[PatternAddress(l.table, tile, 0, r.fvc)])
  }

  function Drop16(b: seq<bool>, n: nat): seq<bool>
    requires |b| == 16
  {
    seq(16, i requires 0 <= i < 16 => i + n < 16 && b[i + n])
  }

  function Drop9(b: seq<bool>, n: nat): seq<bool>
    requires |b| == 9
  {
    seq(9, i requires 0 <= i < 9 => b[if i + n < 8 then i + n else 8])
  }

  lemma DropStep(b: seq<bool>, c: seq<bool>, n: nat)
    requires |b| == 16 && |c| == 9
    ensures Drop16(b, 0) == b && Shift16(Drop16(b, n)) == Drop16(b, n + 1)
    ensures Drop9(c, 0) == c && Shift9(Drop9(c, n)) == Drop9(c, n + 1)
  {
  }

  /** w is u with its shift registers moved by n and its counters unchanged. */
  predicate Moved(u: Unit, w: Unit, n: nat)
    requires u.Valid()
  {
    w.row == u.row && w.col == u.col && w.bit3 == Drop9(u.bit3, n) && w.bit2 == Drop9(u.bit2, n) &&
    w.bit1 == Drop16(u.bit1, n) && w.bit0 == Drop16(u.bit0, n)
  }

  /** The fetches of the first k pixels of a tile have been made. */
  predicate Latched(u: Unit, w: Unit, l: Inputs, k: nat)
    requires u.Valid()
  {
    var t := TileAt(l, u.row, u.col);
    (k >= 1 ==> w.par == l.vram[NameAddress(u.row, u.col)]) && (k >= 2 ==> w.ar == t.ar) &&
    (k >= 3 ==> w.pd0 == t.pd0) && (k >= 4 ==> w.pd1 == t.pd1)
  }

  /** x is the first pixel of a tile that is fetched. */
  predicate TileStart(x: nat) { x % 8 == 0 && FetchPixel(x) }

  lemma FetchStep(u: Unit, w: Unit, l: Inputs, x: nat, k: nat)
    requires u.Valid() && w.Valid() && l.scroll.Valid() && Active(l) && TileStart(x) && k < 8
    requires w.row == u.row && w.col == u.col && Latched(u, w, l, k)
    ensures var v := Fetched(w, l, x + k);
      Latched(u, v, l, k + 1) &&
      v == v.(row := w.row, col := w.col, bit3 := w.bit3, bit2 := w.bit2, bit1 := w.bit1, bit0 := w.bit0)
  {
    hide Active, NameAddress, AttributeAddress, AttributeBits, PatternAddress;
    assert (x + k) % 8 == k && FetchPixel(x + k);
  }

  lemma {:induction false} WithinTile(u: Unit, l: Inputs, p: nat, k: nat)
    requires u.Valid() && l.scroll.Valid() && Active(l) && TileStart(NesX(p)) && p >= 32 && k <= 7
    ensures var v, w := Scan(u, l, p), Scan(u, l, p + k); Moved(v, w, k) && Latched(v, w, l, k)
    decreases k
  {
    hide Active, TileStart, Fetched, TileAt, Shift16, Shift9, Drop16, Drop9, NameAddress;
    var v := Scan(u, l, p);
    if k == 0 {
      DropStep(v.bit1, v.bit3, 0);
      DropStep(v.bit0, v.bit2, 0);
    } else {
      WithinTile(u, l, p, k - 1);
      var w := Scan(u, l, p + k - 1);
      FetchStep(v, w, l, NesX(p), k - 1);
      DropStep(v.bit1, v.bit3, k - 1);
      DropStep(v.bit0, v.bit2, k - 1);
      ShiftPulse(Fetched(w, l, NesX(p) + k - 1), l, NesX(p), k - 1);
    }
  }

  lemma ShiftPulse(u: Unit, l: Inputs, x: nat, k: nat)
    requires u.Valid() && l.scroll.Valid() && Active(l) && TileStart(x) && k < 8
    ensures Pulsed(u, l, x + k) == if k == 7 then NextTile(ShiftTiles(u)) else ShiftTiles(u)
  {
    assert (x + k) % 8 == k && FetchPixel(x + k) && x + k != 319;
  }

  // ---------------------------------------------------------------------------------------------
  // From tile to tile
  // ---------------------------------------------------------------------------------------------

  /** The upper halves of the registers hold tile t. */
  predicate High(u: Unit, t: Tile)
    requires u.Valid()
  {
    u.bit3[8] == (t.ar / 2 == 1) && u.bit2[8] == (t.ar % 2 == 1) && u.bit1[8..] == Pixels(t.pd1) &&
    u.bit0[8..] == Pixels(t.pd0)
  }

  /** The lower halves hold tile t. */
  predicate Low(u: Unit, t: Tile)
    requires u.Valid()
  {
    (forall i :: 0 <= i < 8 ==> u.bit3[i] == (t.ar / 2 == 1) && u.bit2[i] == (t.ar % 2 == 1)) &&
    u.bit1[..8] == Pixels(t.pd1) && u.bit0[..8] == Pixels(t.pd0)
  }

  /** Eight pixels on the tile that was in the upper halves is in the lower ones and the tile under the
      counters in the upper. */
  lemma TileStep(u: Unit, l: Inputs, p: nat)
    requires u.Valid() && l.scroll.Valid() && Active(l) && TileStart(NesX(p)) && p >= 32
    ensures var v, w := Scan(u, l, p), Scan(u, l, p + 8);
      w.row == v.row && w.col == (v.col + 1) % 64 && High(w, TileAt(l, v.row, v.col)) &&
      forall t :: High(v, t) ==> Low(w, t)
  {
    hide Active, TileStart, Fetched, TileAt, Pixels, NameAddress, Scan, High, Low, NextTile, ShiftTiles, Moved, Latched, Pulsed;
    var v, w := Scan(u, l, p), Scan(u, l, p + 7);
    WithinTile(u, l, p, 7);
    ScanStep(u, l, p + 7);
    assert NesX(p + 7) == NesX(p) + 7;
    var f := Fetched(w, l, NesX(p) + 7);
    ShiftPulse(f, l, NesX(p), 7);
    MovedCounters(v, w, 7);
    FetchStep(v, w, l, NesX(p), 7);
    MovedFetch(v, w, f, 7);
    TileEnters(v, f, l);
    forall t | High(v, t)
      ensures Low(NextTile(ShiftTiles(f)), t)
    {
      TilePasses(v, f, t);
    }
  }

  lemma MovedCounters(v: Unit, w: Unit, n: nat)
    requires v.Valid() && Moved(v, w, n)
    ensures w.row == v.row && w.col == v.col
  {
    hide Drop9, Drop16;
  }

  lemma MovedFetch(v: Unit, w: Unit, f: Unit, n: nat)
    requires v.Valid() && Moved(v, w, n)
    requires f == f.(row := w.row, col := w.col, bit3 := w.bit3, bit2 := w.bit2, bit1 := w.bit1, bit0 := w.bit0)
    ensures Moved(v, f, n)
  {
    hide Drop9, Drop16;
  }

  /** The tile under the counters goes into the upper halves. */
  lemma TileEnters(v: Unit, f: Unit, l: Inputs)
    requires v.Valid() && f.Valid() && Moved(v, f, 7) && Latched(v, f, l, 8)
    ensures var w := NextTile(ShiftTiles(f));
      w.row == v.row && w.col == (v.col + 1) % 64 && High(w, TileAt(l, v.row, v.col))
  {
    hide Drop9, Drop16, TileAt, Pixels, NameAddress;
  }

  /** What was in the upper halves is in the lower ones after eight shifts. */
  lemma TilePasses(v: Unit, f: Unit, t: Tile)
    requires v.Valid() && f.Valid() && Moved(v, f, 7) && High(v, t)
    ensures Low(NextTile(ShiftTiles(f)), t)
  {
    hide Pixels;
  }

  /** Pixels without a fetch leave everything alone. */
  lemma {:induction false} Quiet(u: Unit, l: Inputs, p: nat, n: nat)
    requires u.Valid() && l.scroll.Valid()
    requires forall k :: p <= k < p + n ==> !FetchPixel(NesX(k)) && NesX(k) != 319
    ensures Scan(u, l, p + n) == Scan(u, l, p)
    decreases n
  {
    hide NesX, FetchPixel, Active;
    if n == 0 {
    } else {
      Quiet(u, l, p, n - 1);
    }
  }

  lemma {:induction false} RowSteady(u: Unit, l: Inputs, p: nat)
    requires u.Valid() && l.scroll.Valid() && p <= 351
    ensures Scan(u, l, p).row == u.row
    decreases p
  {
    hide FetchPixel, Active, NameAddress, AttributeBits, AttributeAddress, PatternAddress, Shift9, Shift16, Pixels;
    if p == 0 {
    } else {
      RowSteady(u, l, p - 1);
      assert NesX(p - 1) != 319;
    }
  }

  /** The row after the turn at x 319. */
  function TurnedRow(r: Row, l: Inputs): (n: Row)
    requires r.Valid() && l.scroll.Valid()
    ensures n.Valid()
  {
    if l.yNext == l.y then r else if l.yNext == 0 then RowOf(l.scroll) else NextRow(r)
  }

  /** Row r is loaded up to tile n of the line that starts at column c: the lower halves hold tile n. */
  predicate Loaded(u: Unit, l: Inputs, r: Row, c: nat, n: nat)
    requires u.Valid() && r.Valid()
  {
    u.row == r && u.col == (c + n + 2) % 64 && Low(u, TileAt(l, r, (c + n) % 64)) &&
    High(u, TileAt(l, r, (c + n + 1) % 64))
  }

  lemma TurnPixel(u: Unit, l: Inputs)
    requires u.Valid() && l.scroll.Valid() && Active(l)
    ensures var w := Pixel(u, l, 319); w.row == TurnedRow(u.row, l) && w.col == ColumnOf(l.scroll)
  {
  }

  /** The end of a line prefetches two tiles. */
  lemma LinePrefetches(u: Unit, l: Inputs)
    requires u.Valid() && l.scroll.Valid() && Active(l)
    ensures Loaded(Scan(u, l, WIDTH), l, TurnedRow(u.row, l), ColumnOf(l.scroll), 0)
  {
    hide Scan, Active, High, Low, TileAt, TurnedRow, Pixel;
    RowSteady(u, l, 351);
    ScanStep(u, l, 351);
    TurnPixel(Scan(u, l, 351), l);
    TileStep(u, l, 352);
    TileStep(u, l, 360);
    Quiet(u, l, 368, 32);
  }

  lemma ScanStep(u: Unit, l: Inputs, p: nat)
    requires u.Valid() && l.scroll.Valid()
    ensures Scan(u, l, p + 1) == Pixel(Scan(u, l, p), l, NesX(p))
  {
    hide Pixel;
  }

  /** A line that starts with its first two tiles loaded keeps two tiles loaded. */
  lemma {:induction false} LineShifts(u: Unit, l: Inputs, r: Row, c: nat, n: nat)
    requires u.Valid() && l.scroll.Valid() && Active(l) && r.Valid() && n < 32 && Loaded(u, l, r, c, 0)
    ensures Loaded(Scan(u, l, 32 + 8 * n), l, r, c, n)
    decreases n
  {
    hide Scan, Active, High, Low, TileAt;
    if n == 0 {
      ScanNone(u, l);
      Quiet(u, l, 0, 32);
    } else {
      LineShifts(u, l, r, c, n - 1);
      StartsTile(n - 1);
      TileStep(u, l, 32 + 8 * (n - 1));
      LoadedStep(Scan(u, l, 24 + 8 * n), Scan(u, l, 32 + 8 * n), l, r, c, n - 1);
    }
  }

  lemma LoadedStep(v: Unit, w: Unit, l: Inputs, r: Row, c: nat, n: nat)
    requires v.Valid() && w.Valid() && r.Valid() && Loaded(v, l, r, c, n)
    requires w.row == v.row && w.col == (v.col + 1) % 64 && High(w, TileAt(l, v.row, v.col))
    requires forall t :: High(v, t) ==> Low(w, t)
    ensures Loaded(w, l, r, c, n + 1)
  {
    hide High, Low, TileAt;
    ModStep64(c + n + 2);
  }

  lemma ModStep64(a: nat)
    ensures (a % 64 + 1) % 64 == (a + 1) % 64
  {
    var q, r := a / 64, a % 64;
    assert a == 64 * q + r;
  }

  lemma ScanNone(u: Unit, l: Inputs)
    requires u.Valid() && l.scroll.Valid()
    ensures Scan(u, l, 0) == u
  {
  }

  lemma StartsTile(n: nat)
    requires n < 32
    ensures NesX(32 + 8 * n) == 8 * n && TileStart(8 * n)
  {
  }

  // ---------------------------------------------------------------------------------------------
  // Against the reference
  // ---------------------------------------------------------------------------------------------

  /** The palette index of pixel j of a tile. */
  function TileIndex(t: Tile, j: nat): nat
    requires j < 8
  {
    8 * B(t.ar / 2 == 1) + 4 * B(t.ar % 2 == 1) + 2 * B(Pixels(t.pd1)[j]) + B(Pixels(t.pd0)[j])
  }

  lemma PixelsBit(b: Byte, j: nat)
    requires j < 8
    ensures Pixels(b)[j] == Bit(b, 7 - j)
  {
    hide Bit;
  }

  lemma AttributePair(b: Byte, r: Row, col: nat)
    requires r.Valid() && col < 64
    ensures var a := AttributeBits(b, r, col); var q := r.vtc % 4 / 2 * 2 + col % 32 % 4 / 2;
      (a / 2 == 1) == Bit(b, 2 * q + 1) && (a % 2 == 1) == Bit(b, 2 * q)
  {
    hide Bit;
    assert r.vtc / 2 % 2 * 4 + col / 2 % 2 * 2 == 2 * (r.vtc % 4 / 2 * 2 + col % 32 % 4 / 2) by {
      Halved(r.vtc);
      Halved(col);
    }
  }

  lemma Halved(n: nat)
    ensures n / 2 % 2 == n % 4 / 2 && n % 32 % 4 == n % 4
  {
  }

  lemma TileIsLookup(l: Inputs, r: Row, col: nat, j: nat)
    requires r.Valid() && col < 64 && j < 8
    ensures 8 * col + j < 512 && TileIndex(TileAt(l, r, col), j) == Lookup(l.vram, l.table, r, 8 * col + j)
  {
    hide Bit, AttributeBits, Pixels;
    var x, t := 8 * col + j, TileAt(l, r, col);
    assert x / 256 == col / 32 && x % 256 / 8 == col % 32 && x % 8 == j;
    AttributePair(l.vram[AttributeAddress(r, col)], r, col);
    PixelsBit(t.pd1, j);
    PixelsBit(t.pd0, j);
  }

  /** The palette bits at the fine scroll position. */
  function Shown(u: Unit, f: nat): nat
    requires u.Valid() && f < 8
  {
    8 * B(u.bit3[f]) + 4 * B(u.bit2[f]) + 2 * B(u.bit1[f]) + B(u.bit0[f])
  }

  /** The output k pixels into tile n, with fine scroll fh. */
  lemma ShowsTile(v: Unit, w: Unit, l: Inputs, r: Row, c: nat, n: nat, k: nat)
    requires v.Valid() && w.Valid() && r.Valid() && l.scroll.Valid() && k < 8
    requires Loaded(v, l, r, c, n) && Moved(v, w, k)
    ensures var o := l.scroll.fh + k;
      Shown(w, l.scroll.fh) ==
        if o < 8 then TileIndex(TileAt(l, r, (c + n) % 64), o) else TileIndex(TileAt(l, r, (c + n + 1) % 64), o - 8)
  {
    hide TileAt, Pixels;
    var o := l.scroll.fh + k;
    if o < 8 {
      assert v.bit1[o] == v.bit1[..8][o] && v.bit0[o] == v.bit0[..8][o];
    } else {
      assert v.bit1[o] == v.bit1[8..][o - 8] && v.bit0[o] == v.bit0[8..][o - 8];
    }
  }

  /** Horizontal position x of the scrolled picture in the plane. */
  function PlaneX(s: Scroll, x: nat): nat { (s.h * 256 + s.ht * 8 + s.fh + x) % 512 }

  lemma PlaneTile(s: Scroll, n: nat, k: nat)
    requires s.Valid() && k < 8
    ensures var c, o := ColumnOf(s), s.fh + k;
      PlaneX(s, 8 * n + k) ==
        if o < 8 then 8 * ((c + n) % 64) + o else 8 * ((c + n + 1) % 64) + (o - 8)
  {
    var m := ColumnOf(s) + n + if s.fh + k < 8 then 0 else 1;
    var o := if s.fh + k < 8 then s.fh + k else s.fh + k - 8;
    assert s.h * 256 + s.ht * 8 + s.fh + 8 * n + k == 8 * m + o;
    EightTimes(m, o);
  }

  lemma EightTimes(m: nat, o: nat)
    requires o < 8
    ensures (8 * m + o) % 512 == 8 * (m % 64) + o
  {
    var q := m / 64;
    assert 8 * m + o == 512 * q + (8 * (m % 64) + o);
  }

  // ---------------------------------------------------------------------------------------------
  // Main results
  // ---------------------------------------------------------------------------------------------

  /** The settings that two consecutive lines share. */
  predicate SameSource(a: Inputs, b: Inputs) { a.vram == b.vram && a.scroll == b.scroll && a.table == b.table }

  /** Tile n of a line is in the registers when its first pixel is due. */
  lemma TilesInTime(u: Unit, a: Inputs, b: Inputs, n: nat)
    requires u.Valid() && a.scroll.Valid() && b.scroll.Valid() && SameSource(a, b) && Active(a) && Active(b) && n < 32
    ensures var w := Scan(u, a, WIDTH);
      Loaded(Scan(w, b, 32 + 8 * n), b, TurnedRow(u.row, a), ColumnOf(b.scroll), n)
  {
    hide Scan, TurnedRow, TileStart, FetchPixel, High, Low, Active;
    var w, r, c := Scan(u, a, WIDTH), TurnedRow(u.row, a), ColumnOf(b.scroll);
    LinePrefetches(u, a);
    SameTiles(w, a, b, r, c);
    LineShifts(w, b, r, c, n);
  }

  lemma ShowsLookup(v: Unit, w: Unit, l: Inputs, r: Row, n: nat, k: nat)
    requires v.Valid() && w.Valid() && r.Valid() && l.scroll.Valid() && k < 8
    requires Loaded(v, l, r, ColumnOf(l.scroll), n) && Moved(v, w, k)
    ensures Shown(w, l.scroll.fh) == Lookup(l.vram, l.table, r, PlaneX(l.scroll, 8 * n + k))
  {
    hide Moved, Lookup, TileIndex, PlaneX, Loaded, ColumnOf, TileAt;
    var c, o := ColumnOf(l.scroll), l.scroll.fh + k;
    ShowsTile(v, w, l, r, c, n, k);
    PlaneTile(l.scroll, n, k);
    if o < 8 {
      TileIsLookup(l, r, (c + n) % 64, o);
    } else {
      TileIsLookup(l, r, (c + n + 1) % 64, o - 8);
    }
  }

  /** A line after one with the background on and the same video memory and scroll shows, at every pixel, the
      direct lookup at horizontal position h * 256 + ht * 8 + fh + x modulo 512. */
  lemma BackgroundMatches(u: Unit, a: Inputs, b: Inputs, x: nat)
    requires u.Valid() && a.scroll.Valid() && b.scroll.Valid() && SameSource(a, b)
    requires Active(a) && Active(b) && x < 256
    ensures Output(Scan(Scan(u, a, WIDTH), b, 32 + x), b, x) ==
      if b.clip && x < 8 then 0 else Lookup(b.vram, b.table, TurnedRow(u.row, a), PlaneX(b.scroll, x))
  {
    hide Scan, Moved, Lookup, TurnedRow, PlaneX, TileStart, FetchPixel, Loaded, ColumnOf;
    var w := Scan(u, a, WIDTH);
    var n, k := x / 8, x % 8;
    var p := 32 + 8 * n;
    TilesInTime(u, a, b, n);
    StartsTile(n);
    WithinTile(w, b, p, k);
    ShowsLookup(Scan(w, b, p), Scan(w, b, p + k), b, TurnedRow(u.row, a), n, k);
    assert p + k == 32 + x && 8 * n + k == x;
  }

  lemma SameTiles(w: Unit, a: Inputs, b: Inputs, r: Row, c: nat)
    requires w.Valid() && r.Valid() && SameSource(a, b) && Loaded(w, a, r, c, 0)
    ensures Loaded(w, b, r, c, 0)
  {
    hide High, Low, AttributeBits;
  }

  /** The vertical position as one number. */
  function Position(r: Row): nat { r.vc * 240 + r.vtc * 8 + r.fvc }

  /** From tile 29 or above the counter stays there, and a step moves down one line of 480. */
  lemma NextRowMoves(r: Row)
    requires r.Valid() && r.vtc <= 29
    ensures NextRow(r).vtc <= 29 && Position(NextRow(r)) == (Position(r) + 1) % 480
  {
    hide NextRow;
    var p := Position(r) + 1;
    assert p % 480 == if p == 480 then 0 else p by { Within480(p); }
    RowWraps(r);
    if r.fvc < 7 {
      RowSteps(r, Row(r.vc, r.vtc, r.fvc + 1));
    } else if r.vtc < 29 {
      RowSteps(r, Row(r.vc, r.vtc + 1, 0));
    }
  }

  lemma Within480(p: nat)
    requires p <= 480
    ensures p % 480 == if p == 480 then 0 else p
  {
  }

  lemma RowWraps(r: Row)
    requires r.Valid()
    ensures r.vtc == 29 && r.fvc == 7 ==> NextRow(r) == Row(1 - r.vc, 0, 0)
  {
  }

  lemma RowSteps(r: Row, n: Row)
    requires r.Valid() && n.Valid() && !(r.vtc == 29 && r.fvc == 7)
    requires n.vc * 0x100 + n.vtc * 8 + n.fvc == r.vc * 0x100 + r.vtc * 8 + r.fvc + 1
    ensures NextRow(r) == n
  {
    SplitCount(n.vc, n.vtc, n.fvc);
  }

  /** The three counters read back out of the joined one. */
  lemma SplitCount(vc: nat, vtc: nat, fvc: nat)
    requires vc < 2 && vtc < 32 && fvc < 8
    ensures var count := (vc * 0x100 + vtc * 8 + fvc) % 0x200;
      count / 0x100 == vc && count / 8 % 32 == vtc && count % 8 == fvc
  {
    var count := vc * 0x100 + vtc * 8 + fvc;
    Quotient(count, 0x100, vc, vtc * 8 + fvc);
    Quotient(count, 8, vc * 32 + vtc, fvc);
    Quotient(vc * 32 + vtc, 32, vc, vtc);
  }

  function Rows(r: Row, k: nat): (n: Row)
    requires r.Valid()
    ensures n.Valid()
    decreases k
  {
    if k == 0 then r else NextRow(Rows(r, k - 1))
  }

  lemma ModStep(a: nat)
    ensures (a % 480 + 1) % 480 == (a + 1) % 480
  {
    var q, r := a / 480, a % 480;
    assert a == 480 * q + r;
  }

  /** k scanlines further down. */
  lemma {:induction false} RowsMove(r: Row, k: nat)
    requires r.Valid() && r.vtc <= 29
    ensures Rows(r, k).vtc <= 29 && Position(Rows(r, k)) == (Position(r) + k) % 480
    decreases k
  {
    hide NextRow, Position, Rows;
    RowsUnfold(r, k);
    if k == 0 {
      PositionWithin(r);
    } else {
      RowsMove(r, k - 1);
      NextRowMoves(Rows(r, k - 1));
      ModStep(Position(r) + (k - 1));
    }
  }

  lemma RowsUnfold(r: Row, k: nat)
    requires r.Valid()
    ensures Rows(r, k) == if k == 0 then r else NextRow(Rows(r, k - 1))
  {
    hide NextRow;
  }

  lemma PositionWithin(r: Row)
    requires r.Valid() && r.vtc <= 29
    ensures Position(r) % 480 == Position(r)
  {
    Within480(Position(r));
  }

  /** What stays the same over a frame. */
  datatype Settings = Settings(vram: VideoMemory, scroll: Scroll, clip: bool, table: bool)

  function LineInputs(v: nat, s: Settings): (l: Inputs)
    ensures l.scroll == s.scroll && l.vram == s.vram && l.table == s.table && l.clip == s.clip
  {
    Inputs(s.vram, s.scroll, true, s.clip, s.table, LineY(v), LineY(NextLine(v)))
  }

  /** The state at the start of VGA line v, from the line before the frame on. */
  function Frame(u: Unit, s: Settings, v: nat): (w: Unit)
    requires u.Valid() && s.scroll.Valid()
    ensures w.Valid()
    decreases v
  {
    if v == 0 then Scan(u, LineInputs(520, s), WIDTH) else Scan(Frame(u, s, v - 1), LineInputs(v - 1, s), WIDTH)
  }

  lemma TurnAt(r: Row, s: Settings, v: nat)
    requires r.Valid() && s.scroll.Valid() && v < 478
    ensures TurnedRow(r, LineInputs(v, s)) == (if v % 2 == 1 then NextRow(r) else r) && Active(LineInputs(v, s))
    ensures TurnedRow(r, LineInputs(520, s)) == RowOf(s.scroll) && Active(LineInputs(520, s))
  {
    hide NextRow;
  }

  lemma LineTurns(u: Unit, l: Inputs)
    requires u.Valid() && l.scroll.Valid() && Active(l)
    ensures Scan(u, l, WIDTH).row == TurnedRow(u.row, l)
  {
    hide Scan, Active, TurnedRow, High, Low, TileAt;
    LinePrefetches(u, l);
  }

  lemma {:induction false} FrameRows(u: Unit, s: Settings, v: nat)
    requires u.Valid() && s.scroll.Valid() && v < 478
    ensures Frame(u, s, v).row == Rows(RowOf(s.scroll), v / 2)
    decreases v
  {
    hide Scan, NextRow, TurnedRow, Active, LineInputs;
    if v == 0 {
      TurnAt(u.row, s, 0);
      LineTurns(u, LineInputs(520, s));
    } else {
      FrameRows(u, s, v - 1);
      var w := Frame(u, s, v - 1);
      TurnAt(w.row, s, v - 1);
      LineTurns(w, LineInputs(v - 1, s));
      if (v - 1) % 2 == 1 {
        assert v / 2 == (v - 1) / 2 + 1;
      } else {
        assert v / 2 == (v - 1) / 2;
      }
    }
  }

  /** The line before VGA line v, from the state at its start. */
  function Before(u: Unit, s: Settings, v: nat): (w: Unit)
    requires u.Valid() && s.scroll.Valid()
    ensures w.Valid()
  {
    if v == 0 then u else Frame(u, s, v - 1)
  }

  function LineBefore(v: nat): nat { if v == 0 then 520 else v - 1 }

  lemma FrameStep(u: Unit, s: Settings, v: nat)
    requires u.Valid() && s.scroll.Valid() && v < 478
    ensures var a := LineInputs(LineBefore(v), s);
      Frame(u, s, v) == Scan(Before(u, s, v), a, WIDTH) && Active(a) && Active(LineInputs(v, s)) &&
      Frame(u, s, v).row == TurnedRow(Before(u, s, v).row, a)
  {
    hide Scan, NextRow, TurnedRow, Active, LineInputs;
    var w := Before(u, s, v);
    TurnAt(w.row, s, v);
    if v > 0 {
      TurnAt(w.row, s, v - 1);
    }
    LineTurns(w, LineInputs(LineBefore(v), s));
  }

  /** A whole frame, from any state before it: VGA line v shows the plane v / 2 lines below the vertical
      scroll position, modulo 480, at every pixel. */
  lemma FrameMatches(u: Unit, s: Settings, v: nat, x: nat)
    requires u.Valid() && s.scroll.Valid() && s.scroll.vt <= 29 && v < 478 && x < 256
    ensures var r := Rows(RowOf(s.scroll), v / 2);
      Position(r) == (Position(RowOf(s.scroll)) + v / 2) % 480 &&
      Output(Scan(Frame(u, s, v), LineInputs(v, s), 32 + x), LineInputs(v, s), x) ==
        if s.clip && x < 8 then 0 else Lookup(s.vram, s.table, r, PlaneX(s.scroll, x))
  {
    hide Scan, NextRow, TurnedRow, Active, Output, Lookup, PlaneX, Rows, Position, LineInputs, Frame, Before;
    RowsMove(RowOf(s.scroll), v / 2);
    FrameRows(u, s, v);
    FrameStep(u, s, v);
    BackgroundMatches(Before(u, s, v), LineInputs(LineBefore(v), s), LineInputs(v, s), x);
  }
}
