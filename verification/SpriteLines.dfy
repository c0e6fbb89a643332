/** The sprite unit over whole lines: what it shows is what a direct scan of the object memory gives. */
module SpriteLines {
  import opened Bytes
  import opened Raster
  import opened Sprites

  // ---------------------------------------------------------------------------------------------
  // One pixel, field by field
  // ---------------------------------------------------------------------------------------------

  lemma PixelCounts(u: Unit, l: Inputs, x: nat)
    requires u.Valid()
    ensures var v := Pixel(u, l, x);
      v.cnt == Counted(u, l, x).cnt && v.stm == Counted(u, l, x).stm
  {
    hide Evaluated, InRange, Pattern, ReloadedAll, ShiftAll;
  }

  lemma PixelFetches(u: Unit, l: Inputs, x: nat)
    requires u.Valid()
    ensures var v, f := Pixel(u, l, x), Fetched(u, l, x);
      v.sbm == f.sbm && v.pd1 == f.pd1 && v.pd0 == f.pd0
  {
    hide Evaluated, InRange, Pattern, ReloadedAll, ShiftAll;
  }

  lemma PixelShifts(u: Unit, l: Inputs, x: nat, j: nat)
    requires u.Valid() && j < 8
    ensures Pixel(u, l, x).shift[j] == if Displays(l) then ShiftBy(Reloaded(u, x, j), 1) else u.shift[j]
    ensures Settled(u, l, x).shift[j] == if Displays(l) then Reloaded(u, x, j) else u.shift[j]
  {
    hide Evaluated, InRange, Pattern, ShiftBy, Reloaded, Evaluates;
  }

  lemma PixelFlags(u: Unit, l: Inputs, x: nat)
    requires u.Valid()
    ensures Pixel(u, l, x).overflow == (!(l.yNext == 0 && x == 0) && (u.overflow || u.cnt >= 8))
  {
    hide Evaluated, InRange, Pattern, ReloadedAll, ShiftAll;
  }

  // ---------------------------------------------------------------------------------------------
  // Evaluation
  // ---------------------------------------------------------------------------------------------

  /** The 9-bit comparison is exact on the lines where it is used. */
  lemma RangeIsCrossing(l: Inputs, i: nat)
    requires i < 64 && l.yNext < 239
    ensures InRange(l, i) <==> Crosses(l, i)
    ensures Crosses(l, i) ==> RangeResult(l, i) == ObjectLine(l, i)
  {
    hide TopLine;
    if ObjectLine(l, i) < 0 {
      assert RangeResult(l, i) == ObjectLine(l, i) + 0x200;
    }
  }

  /** Nothing is counted or fetched in these pixels. */
  lemma {:induction false} Idle(u: Unit, l: Inputs, p: nat, n: nat)
    requires u.Valid()
    requires forall k :: p <= k < p + n ==> !FetchPixel(NesX(k)) && NesX(k) != 320 && !(NesX(k) < 256 && NesX(k) % 4 == 0)
    ensures var v, w := Scan(u, l, p), Scan(u, l, p + n);
      w.cnt == v.cnt && w.stm == v.stm && w.sbm == v.sbm
    decreases n
  {
    hide Pixel, NesX;
    if n == 0 {
    } else {
      Idle(u, l, p, n - 1);
      var w := Scan(u, l, p + n - 1);
      PixelCounts(w, l, NesX(p + n - 1));
      PixelFetches(w, l, NesX(p + n - 1));
    }
  }

  /** The temporary memory holds the objects chosen among the first n. */
  predicate Holds(u: Unit, l: Inputs, n: nat)
    requires n <= 64
  {
    var s := Chosen(l, n);
    |u.stm| == 8 && u.cnt == |s| && forall j :: 0 <= j < |s| ==> u.stm[j] == Evaluated(l, s[j])
  }

  lemma ChosenStep(l: Inputs, n: nat)
    requires n < 64
    ensures Chosen(l, n + 1) == if Crosses(l, n) && |Chosen(l, n)| < 8 then Chosen(l, n) + [n] else Chosen(l, n)
  {
    hide Crosses;
  }

  lemma CountsOne(u: Unit, l: Inputs, n: nat)
    requires u.Valid() && Evaluates(l) && n < 64 && Holds(u, l, n)
    ensures Holds(Counted(u, l, 4 * n), l, n + 1)
  {
    hide Crosses, InRange, Evaluated, Chosen;
    RangeIsCrossing(l, n);
    ChosenStep(l, n);
  }

  lemma {:induction false} EvaluatesFirst(u: Unit, l: Inputs, n: nat)
    requires u.Valid() && u.cnt == 0 && Evaluates(l) && n <= 64
    ensures var v := Scan(u, l, 32 + 4 * n); Holds(v, l, n) && v.sbm == u.sbm
    decreases n
  {
    hide Pixel, Holds, Scan, Evaluates, InRange, Evaluated;
    if n == 0 {
      assert Scan(u, l, 0) == u by { ScanNone(u, l); }
      Idle(u, l, 0, 32);
      assert Holds(Scan(u, l, 32), l, 0) by { HoldsNone(Scan(u, l, 32), l); }
    } else {
      var p := 32 + 4 * (n - 1);
      EvaluatesFirst(u, l, n - 1);
      ScanStep(u, l, p);
      var v := Scan(u, l, p);
      PixelCounts(v, l, 4 * (n - 1));
      PixelFetches(v, l, 4 * (n - 1));
      CountsOne(v, l, n - 1);
      Idle(u, l, p + 1, 3);
      HoldsSame(Counted(v, l, 4 * (n - 1)), Scan(u, l, p + 4), l, n);
    }
  }

  lemma ScanNone(u: Unit, l: Inputs)
    requires u.Valid()
    ensures Scan(u, l, 0) == u
  {
  }

  lemma ScanStep(u: Unit, l: Inputs, p: nat)
    requires u.Valid()
    ensures Scan(u, l, p + 1) == Pixel(Scan(u, l, p), l, NesX(p))
  {
    hide Pixel;
  }

  lemma HoldsNone(u: Unit, l: Inputs)
    requires u.cnt == 0 && |u.stm| == 8
    ensures Holds(u, l, 0)
  {
  }

  lemma HoldsSame(u: Unit, v: Unit, l: Inputs, n: nat)
    requires n <= 64 && Holds(u, l, n) && v.cnt == u.cnt && v.stm == u.stm
    ensures Holds(v, l, n)
  {
    hide Chosen, Evaluated;
  }

  // ---------------------------------------------------------------------------------------------
  // Pattern fetch
  // ---------------------------------------------------------------------------------------------

  function BufferOf(l: Inputs, s: Slot): Buffer {
    Buffer(s.primary, s.behind, s.palette, Pattern(l, s, 1), Pattern(l, s, 0), s.x)
  }

  /** The buffer entry the fetch leaves for temporary entry j. */
  function Fetching(l: Inputs, stm: seq<Slot>, cnt: nat, j: nat): Buffer
    requires j < |stm|
  {
    if j < cnt then BufferOf(l, stm[j]) else EMPTY
  }

  lemma FetchTimes(j: nat, k: nat)
    requires j < 8 && k < 8
    ensures var x := 256 + 8 * j + k;
      FetchPixel(x) && FetchIndex(x) == j && x / 2 % 4 == k / 2 && NesX(288 + 8 * j + k) == x
  {
  }

  /** What the fetch of entry j does in pair k of its four pairs of pixels. */
  function FetchPair(u: Unit, l: Inputs, j: nat, k: nat): Unit
    requires u.Valid() && j < 8
  {
    var s := u.stm[j];
    if j >= u.cnt then u.(sbm := u.sbm[j := EMPTY])
    else if k == 0 then u.(pd0 := Pattern(l, s, 0))
    else if k == 1 then u.(pd1 := Pattern(l, s, 1))
    else if k == 2 then u.(sbm := u.sbm[j := Buffer(s.primary, s.behind, s.palette, u.pd1, u.pd0, s.x)])
    else u
  }

  lemma FetchedIs(u: Unit, l: Inputs, j: nat, k: nat)
    requires u.Valid() && Evaluates(l) && j < 8 && k < 8
    ensures var x := 256 + 8 * j + k;
      Fetched(u, l, x) == FetchPair(u, l, j, k / 2) && Counted(u, l, x) == u && NesX(288 + 8 * j + k) == x
  {
    hide Pattern, FetchPixel, FetchIndex, Evaluates, InRange, Evaluated;
    FetchTimes(j, k);
  }

  /** Pixel k of the eight that fetch entry j. */
  lemma FetchesAt(u: Unit, l: Inputs, j: nat, k: nat, p: nat)
    requires u.Valid() && Evaluates(l) && j < 8 && k < 8 && p == 288 + 8 * j + k
    ensures var v, w := Scan(u, l, p), Scan(u, l, p + 1);
      var f := FetchPair(v, l, j, k / 2);
      w.cnt == v.cnt && w.stm == v.stm && w.sbm == f.sbm && w.pd1 == f.pd1 && w.pd0 == f.pd0
  {
    hide Pixel, Scan, Pattern, FetchIndex, NesX, InRange, Evaluated, Fetched, Counted, FetchPair, Evaluates;
    var v, x := Scan(u, l, p), 256 + 8 * j + k;
    FetchedIs(v, l, j, k);
    ScanStep(u, l, p);
    PixelCounts(v, l, x);
    PixelFetches(v, l, x);
  }

  lemma FetchesSlot(u: Unit, l: Inputs, j: nat)
    requires u.Valid() && Evaluates(l) && j < 8
    ensures var v, w := Scan(u, l, 288 + 8 * j), Scan(u, l, 296 + 8 * j);
      w.cnt == v.cnt && w.stm == v.stm && w.sbm == v.sbm[j := Fetching(l, v.stm, v.cnt, j)]
  {
    hide Scan, Pattern, Evaluates;
    var p := 288 + 8 * j;
    FetchesAt(u, l, j, 0, p);
    FetchesAt(u, l, j, 1, p + 1);
    FetchesAt(u, l, j, 2, p + 2);
    FetchesAt(u, l, j, 3, p + 3);
    FetchesAt(u, l, j, 4, p + 4);
    FetchesAt(u, l, j, 5, p + 5);
    FetchesAt(u, l, j, 6, p + 6);
    FetchesAt(u, l, j, 7, p + 7);
  }

  lemma {:induction false} FetchesFirst(u: Unit, l: Inputs, n: nat)
    requires u.Valid() && Evaluates(l) && n <= 8
    ensures var v, w := Scan(u, l, 288), Scan(u, l, 288 + 8 * n);
      w.cnt == v.cnt && w.stm == v.stm && forall j :: 0 <= j < n ==> w.sbm[j] == Fetching(l, v.stm, v.cnt, j)
    decreases n
  {
    hide Scan, Fetching;
    if n == 0 {
    } else {
      FetchesFirst(u, l, n - 1);
      FetchesSlot(u, l, n - 1);
    }
  }

  /** What the buffer memory holds after a line: the chosen objects in order, then empty entries. */
  function Wanted(l: Inputs, j: nat): Buffer {
    var s := Chosen(l, 64);
    if j < |s| then BufferOf(l, Evaluated(l, s[j])) else EMPTY
  }

  /** A line on which objects are evaluated leaves exactly the chosen objects in the buffer memory. */
  lemma LinePrepares(u: Unit, l: Inputs)
    requires u.Valid() && u.cnt == 0 && Evaluates(l)
    ensures var w := Scan(u, l, WIDTH); w.cnt == 0 && forall j :: 0 <= j < 8 ==> w.sbm[j] == Wanted(l, j)
    ensures Scan(u, l, 288).sbm == u.sbm && Scan(u, l, 288).cnt == |Chosen(l, 64)|
  {
    hide Scan, Pixel, Evaluates, BufferOf, Evaluated, Chosen;
    EvaluatesFirst(u, l, 64);
    FetchesFirst(u, l, 8);
    ScanStep(u, l, 352);
    var w := Scan(u, l, 352);
    assert Counted(w, l, 320).cnt == 0 by { Clears(w, l); }
    PixelCounts(w, l, 320);
    PixelFetches(w, l, 320);
    Idle(u, l, 353, 47);
  }

  lemma Clears(u: Unit, l: Inputs)
    requires u.Valid() && Evaluates(l)
    ensures Counted(u, l, 320).cnt == 0
  {
  }

  /** Other lines leave the counter and both memories alone. */
  lemma {:induction false} LineSkips(u: Unit, l: Inputs, p: nat)
    requires u.Valid() && !Evaluates(l)
    ensures var w := Scan(u, l, p); w.cnt == u.cnt && w.stm == u.stm && w.sbm == u.sbm
    decreases p
  {
    hide Pixel, NesX;
    if p == 0 {
    } else {
      LineSkips(u, l, p - 1);
      PixelCounts(Scan(u, l, p - 1), l, NesX(p - 1));
      PixelFetches(Scan(u, l, p - 1), l, NesX(p - 1));
    }
  }

  /** The buffer memory does not change while the line is displayed. */
  lemma {:induction false} BuffersSteady(u: Unit, l: Inputs, p: nat)
    requires u.Valid() && p <= 288
    ensures Scan(u, l, p).sbm == u.sbm
    decreases p
  {
    hide Pixel;
    if p == 0 {
    } else {
      BuffersSteady(u, l, p - 1);
      PixelFetches(Scan(u, l, p - 1), l, NesX(p - 1));
    }
  }

  // ---------------------------------------------------------------------------------------------
  // Shifting out
  // ---------------------------------------------------------------------------------------------

  const CLEAR: Shift := Shift(BLANK, BLANK)

  /** Between lines nothing is counted and the shift registers are empty. */
  predicate Resting(u: Unit) { u.Valid() && u.cnt == 0 && forall j :: 0 <= j < 8 ==> u.shift[j] == CLEAR }

  lemma ShiftAdds(s: Shift, m: nat, n: nat)
    ensures ShiftBy(ShiftBy(s, m), n) == ShiftBy(s, m + n)
    ensures ShiftBy(CLEAR, n) == CLEAR && ShiftBy(s, 0) == s && (n >= 8 ==> ShiftBy(s, n) == CLEAR)
  {
  }

  /** The register of a buffer entry once pixel x has settled: nothing before its x, then its pattern
      moving out one bit a pixel. */
  function Moving(b: Buffer, x: nat): Shift { if x < b.x then CLEAR else ShiftBy(Shift(b.pd1, b.pd0), x - b.x) }

  lemma {:induction false} Leading(u: Unit, l: Inputs, p: nat, j: nat)
    requires Resting(u) && p <= 32 && j < 8
    ensures Scan(u, l, p).shift[j] == CLEAR
    decreases p
  {
    hide Pixel, ShiftBy;
    if p == 0 {
    } else {
      Leading(u, l, p - 1, j);
      PixelShifts(Scan(u, l, p - 1), l, NesX(p - 1), j);
      ShiftAdds(CLEAR, 0, 1);
    }
  }

  lemma {:induction false} MovesOut(u: Unit, l: Inputs, x: nat, j: nat)
    requires Resting(u) && Displays(l) && x < 256 && j < 8
    ensures Settled(Scan(u, l, 32 + x), l, x).shift[j] == Moving(u.sbm[j], x)
    ensures Scan(u, l, 33 + x).shift[j] == ShiftBy(Moving(u.sbm[j], x), 1)
    decreases x
  {
    hide Pixel, ShiftBy, Settled, Scan, Displays;
    var v, b := Scan(u, l, 32 + x), u.sbm[j];
    if x == 0 {
      Leading(u, l, 32, j);
    } else {
      MovesOut(u, l, x - 1, j);
    }
    BuffersSteady(u, l, 32 + x);
    ScanStep(u, l, 32 + x);
    PixelShifts(v, l, x, j);
    ShiftAdds(Shift(b.pd1, b.pd0), if x > b.x then x - 1 - b.x else 0, 1);
    ShiftAdds(CLEAR, 0, 1);
  }

  /** Right of the picture nothing is loaded any more. */
  lemma {:induction false} Trailing(u: Unit, l: Inputs, n: nat, j: nat)
    requires u.Valid() && Displays(l) && j < 8 && 288 + n <= WIDTH
    ensures Scan(u, l, 288 + n).shift[j] == ShiftBy(Scan(u, l, 288).shift[j], n)
    decreases n
  {
    hide Pixel, ShiftBy, Scan, Displays;
    var s := Scan(u, l, 288).shift[j];
    if n == 0 {
      ShiftAdds(s, 0, 0);
    } else {
      Trailing(u, l, n - 1, j);
      ScanStep(u, l, 287 + n);
      PixelShifts(Scan(u, l, 287 + n), l, 255 + n, j);
      ShiftAdds(s, n - 1, 1);
    }
  }

  lemma {:induction false} Undisplayed(u: Unit, l: Inputs, p: nat, j: nat)
    requires u.Valid() && !Displays(l) && j < 8
    ensures Scan(u, l, p).shift[j] == u.shift[j]
    decreases p
  {
    hide Pixel;
    if p == 0 {
    } else {
      Undisplayed(u, l, p - 1, j);
      PixelShifts(Scan(u, l, p - 1), l, NesX(p - 1), j);
    }
  }

  /** Every line, whatever its inputs, ends at rest. */
  lemma LineRests(u: Unit, l: Inputs)
    requires Resting(u)
    ensures Resting(Scan(u, l, WIDTH))
  {
    hide Scan, Displays, Evaluates;
    if Evaluates(l) {
      LinePrepares(u, l);
    } else {
      LineSkips(u, l, WIDTH);
    }
    forall j | 0 <= j < 8
      ensures Scan(u, l, WIDTH).shift[j] == CLEAR
    {
      if Displays(l) {
        Trailing(u, l, 112, j);
        ShiftAdds(Scan(u, l, 288).shift[j], 0, 112);
      } else {
        Undisplayed(u, l, WIDTH, j);
      }
    }
  }

  // ---------------------------------------------------------------------------------------------
  // Against the reference
  // ---------------------------------------------------------------------------------------------

  /** The hardware's pattern address is that of the direct lookup. */
  lemma RowAddress(l: Inputs, i: nat)
    requires Evaluates(l) && Crosses(l, i)
    ensures var s := Evaluated(l, i);
      var row := if Bit(l.oam[4 * i + 2], 7) then Height(l) - 1 - ObjectLine(l, i) else ObjectLine(l, i);
      if l.tall then s.row == row else s.row % 8 == row
  {
    hide TopLine;
    RangeIsCrossing(l, i);
  }

  lemma TileAddress(tile: Byte, row: nat)
    requires row < 16
    ensures tile / 2 * 32 + row / 8 * 16 == (tile - tile % 2 + row / 8) * 16
    ensures tile / 2 * 32 + row / 8 * 16 + row % 8 < 0x1000 - 8
  {
    assert tile == tile / 2 * 2 + tile % 2;
    assert row / 8 <= 1;
  }

  lemma AddressMatches(l: Inputs, i: nat, plane: nat)
    requires Evaluates(l) && Crosses(l, i) && plane < 2
    ensures PatternAddress(l, Evaluated(l, i), plane) == LookupAddress(l, i) + 8 * plane < 0x2000
  {
    hide TopLine, Bit, Evaluates, RangeResult, ObjectLine;
    RowAddress(l, i);
    if l.tall {
      TileAddress(l.oam[4 * i + 1], Evaluated(l, i).row);
    }
  }

  lemma PatternBit(l: Inputs, i: nat, k: nat)
    requires Evaluates(l) && Crosses(l, i) && k < 8
    ensures var s := Evaluated(l, i);
      ObjectColour(l, i, k) == 2 * B(Pattern(l, s, 1)[k]) + B(Pattern(l, s, 0)[k])
  {
    hide TopLine, Bit, Evaluates, RangeResult, ObjectLine, LookupAddress, PatternAddress;
    AddressMatches(l, i, 0);
    AddressMatches(l, i, 1);
  }

  /** The register of entry j shows the colour of the object it holds. */
  lemma ShowsColour(l: Inputs, j: nat, x: nat)
    requires Evaluates(l) && j < 8
    ensures var s := Chosen(l, 64);
      Colour(Moving(Wanted(l, j), x)) == if j < |s| then ColourAt(l, s[j], x) else 0
  {
    hide Evaluates, Pattern, ObjectColour, Chosen, RangeResult, Bit;
    var s := Chosen(l, 64);
    if j < |s| {
      var left := l.oam[4 * s[j] + 3];
      if left <= x < left + 8 {
        PatternBit(l, s[j], x - left);
      }
    }
  }

  lemma {:induction false} ChainIsScan(v: Unit, l: Inputs, x: nat, j: nat)
    requires v.Valid() && Evaluates(l) && j <= 8
    requires forall k :: 0 <= k < 8 ==> v.sbm[k] == Wanted(l, k) && v.shift[k] == Moving(Wanted(l, k), x)
    ensures var s := Chosen(l, 64); Chain(v, j) == FirstOpaque(l, if j < |s| then s[j..] else [], x)
    decreases 8 - j
  {
    hide Evaluates, Moving, Chosen, ColourAt, Colour, Bit, RangeResult;
    var s := Chosen(l, 64);
    if j < 8 {
      ShowsColour(l, j, x);
      ChainIsScan(v, l, x, j + 1);
      if j < |s| {
        assert s[j..][1..] == s[j + 1..];
      }
    }
  }

  /** Empty registers show nothing. */
  lemma {:induction false} ChainIsEmpty(v: Unit, j: nat)
    requires v.Valid() && j <= 8 && forall k :: 0 <= k < 8 ==> v.shift[k] == CLEAR
    ensures Chain(v, j) == NOTHING
    decreases 8 - j
  {
    if j < 8 {
      ChainIsEmpty(v, j + 1);
    }
  }

  /** The buffer memory is as line a leaves it. */
  predicate Prepared(u: Unit, a: Inputs)
    requires u.Valid()
  {
    forall j :: 0 <= j < 8 ==> u.sbm[j] == Wanted(a, j)
  }

  /** What line b shows at x of the objects that line a has prepared. */
  function Shown(a: Inputs, b: Inputs, x: nat): Dot
  {
    if !b.en || (b.clip && x < 8) || b.y >= 239 then NOTHING else FirstOpaque(a, Chosen(a, 64), x)
  }

  lemma PreparedShows(w: Unit, a: Inputs, b: Inputs, x: nat)
    requires Resting(w) && Evaluates(a) && Prepared(w, a) && x < 256
    ensures Output(Scan(w, b, 32 + x), b, x) == Shown(a, b, x)
  {
    hide Scan, Settled, Moving, Chosen, FirstOpaque, Wanted, Evaluates;
    var v := Settled(Scan(w, b, 32 + x), b, x);
    if Displays(b) {
      BuffersSteady(w, b, 32 + x);
      SettledBuffers(Scan(w, b, 32 + x), b, x);
      forall j | 0 <= j < 8
        ensures v.shift[j] == Moving(Wanted(a, j), x)
      {
        MovesOut(w, b, x, j);
      }
      ChainIsScan(v, a, x, 0);
      assert Chosen(a, 64)[0..] == Chosen(a, 64);
      assert |Chosen(a, 64)| == 0 ==> Chosen(a, 64) == [];
    } else {
      DarkShows(w, b, x);
    }
  }

  /** Outside the picture nothing is shown. */
  lemma DarkShows(w: Unit, b: Inputs, x: nat)
    requires Resting(w) && !Displays(b) && x < 256
    ensures Output(Scan(w, b, 32 + x), b, x) == NOTHING
  {
    hide Scan, Settled;
    if b.en {
      var v := Settled(Scan(w, b, 32 + x), b, x);
      forall j | 0 <= j < 8
        ensures v.shift[j] == CLEAR
      {
        Undisplayed(w, b, 32 + x, j);
        PixelShifts(Scan(w, b, 32 + x), b, x, j);
      }
      ChainIsEmpty(v, 0);
    }
  }

  /** Sprites prepared on one VGA line are what the next one shows, at every pixel: the first opaque of the
      first eight objects that cross the line, found by direct lookup.  Object memory, pattern memory and
      the control bits matter only on the line that prepares; they may be anything afterwards. */
  lemma SpritesMatch(u: Unit, a: Inputs, b: Inputs, x: nat)
    requires Resting(u) && a.en && b.y == a.yNext && x < 256
    ensures Output(Scan(Scan(u, a, WIDTH), b, 32 + x), b, x) == Shown(a, b, x)
  {
    hide Scan, FirstOpaque, Chosen, Wanted, Output;
    LineRests(u, a);
    if Evaluates(a) {
      LinePrepares(u, a);
      PreparedShows(Scan(u, a, WIDTH), a, b, x);
    } else {
      DarkShows(Scan(u, a, WIDTH), b, x);
    }
  }

  lemma SettledBuffers(u: Unit, l: Inputs, x: nat)
    requires u.Valid() && x < 256
    ensures Settled(u, l, x).sbm == u.sbm
  {
    hide Pattern, ReloadedAll;
  }

  // ---------------------------------------------------------------------------------------------
  // Overflow
  // ---------------------------------------------------------------------------------------------

  lemma {:induction false} CountGrows(u: Unit, l: Inputs, p: nat, n: nat)
    requires u.Valid() && p + n <= 352
    ensures Scan(u, l, p).cnt <= Scan(u, l, p + n).cnt
    decreases n
  {
    hide Pixel;
    if n == 0 {
    } else {
      CountGrows(u, l, p, n - 1);
      PixelCounts(Scan(u, l, p + n - 1), l, NesX(p + n - 1));
    }
  }

  /** The flag over the first p pixels: kept but for the start of a frame, and set by a count of eight. */
  lemma {:induction false} FlagFollows(u: Unit, l: Inputs, p: nat, top: nat)
    requires u.Valid() && u.cnt == 0 && p <= WIDTH
    requires forall k :: 0 <= k < p ==> Scan(u, l, k).cnt <= top
    ensures var w := Scan(u, l, p);
      (top < 8 ==> w.overflow == (u.overflow && !(l.yNext == 0 && p > 32))) &&
      (l.yNext != 0 && u.overflow ==> w.overflow) &&
      (forall k :: 33 <= k < p && Scan(u, l, k).cnt >= 8 ==> w.overflow)
    decreases p
  {
    hide Pixel;
    if p == 0 {
    } else {
      FlagFollows(u, l, p - 1, top);
      PixelFlags(Scan(u, l, p - 1), l, NesX(p - 1));
    }
  }

  /** The flag says that eight or more objects cross some line since the start of the frame. */
  lemma OverflowAtEight(u: Unit, l: Inputs)
    requires u.Valid() && u.cnt == 0 && Evaluates(l)
    ensures Scan(u, l, WIDTH).overflow <==> (l.yNext != 0 && u.overflow) || |Crossing(l, 64)| >= 8
  {
    hide Scan, Evaluates, Crossing;
    LinePrepares(u, l);
    var top := |Chosen(l, 64)|;
    forall k | 0 <= k < WIDTH
      ensures Scan(u, l, k).cnt <= top
    {
      CountBounded(u, l, k);
    }
    FlagFollows(u, l, WIDTH, top);
    assert Scan(u, l, 288).cnt == top;
  }

  lemma CountBounded(u: Unit, l: Inputs, k: nat)
    requires u.Valid() && u.cnt == 0 && Evaluates(l) && k <= WIDTH
    ensures Scan(u, l, k).cnt <= |Chosen(l, 64)|
  {
    hide Scan, Evaluates, Pixel, Chosen, InRange;
    LinePrepares(u, l);
    if k <= 288 {
      CountGrows(u, l, k, 288 - k);
    } else if k <= 352 {
      CountGrows(u, l, k, 352 - k);
      FetchesFirst(u, l, 8);
    } else {
      var w := Scan(u, l, 352);
      ScanStep(u, l, 352);
      PixelCounts(w, l, 320);
      Clears(w, l);
      Idle(u, l, 353, k - 353);
    }
  }

  /** A line that does not evaluate neither counts nor sets the flag. */
  lemma OverflowKept(u: Unit, l: Inputs)
    requires u.Valid() && u.cnt == 0 && !Evaluates(l)
    ensures Scan(u, l, WIDTH).overflow <==> l.yNext != 0 && u.overflow
  {
    hide Scan, Evaluates;
    forall k | 0 <= k < WIDTH
      ensures Scan(u, l, k).cnt == 0
    {
      LineSkips(u, l, k);
    }
    FlagFollows(u, l, WIDTH, 0);
  }

  // The flag is meant to report more than eight objects; with exactly eight it is raised too early.

  /** Eight objects on line 1 and all the others far below. */
  function EightObjects(): Inputs {
    Inputs(seq(0x100, i => if i < 32 then 0 else 0xC0), seq(0x2000, _ => 0), true, false, false, false, 0, 1)
  }

  lemma {:induction false} EightCross(n: nat)
    requires n <= 64
    ensures |Crossing(EightObjects(), n)| == if n < 8 then n else 8
    decreases n
  {
    hide EightObjects;
    if n == 0 {
    } else {
      EightCross(n - 1);
      EightObjectsCross(n - 1);
    }
  }

  lemma EightObjectsCross(i: nat)
    requires i < 64
    ensures Crosses(EightObjects(), i) <==> i < 8
  {
  }

  lemma OverflowIsEarly(u: Unit)
    requires u.Valid() && u.cnt == 0
    ensures var l := EightObjects();
      |Crossing(l, 64)| == 8 && Scan(u, l, WIDTH).overflow
  {
    hide Scan, Crossing;
    EightCross(64);
    OverflowAtEight(u, EightObjects());
  }

  // ---------------------------------------------------------------------------------------------
  // Whole frames
  // ---------------------------------------------------------------------------------------------

  /** What a line sees besides its own position. */
  datatype Settings = Settings(oam: Oam, patterns: PatternMemory, en: bool, clip: bool, tall: bool, table: bool)

  function LineInputs(v: nat, s: Settings): Inputs {
    Inputs(s.oam, s.patterns, s.en, s.clip, s.tall, s.table, LineY(v), LineY(NextLine(v)))
  }

  /** Whole VGA lines from line v on. */
  function Lines(u: Unit, v: nat, ss: seq<Settings>): (r: Unit)
    requires u.Valid()
    ensures r.Valid()
    decreases |ss|
  {
    if ss == [] then u else Lines(Scan(u, LineInputs(v, ss[0]), WIDTH), NextLine(v), ss[1..])
  }

  /** Line j is evaluated and none of the lines behind it is. */
  predicate LastEvaluated(v: nat, ss: seq<Settings>, j: nat) {
    j < |ss| && Evaluates(LineInputs(LineAfter(v, j), ss[j])) &&
    forall i :: j < i < |ss| ==> !Evaluates(LineInputs(LineAfter(v, i), ss[i]))
  }

  lemma LastRest(v: nat, ss: seq<Settings>, j: nat)
    requires LastEvaluated(v, ss, j) && j > 0
    ensures LastEvaluated(NextLine(v), ss[1..], j - 1) && LineAfter(v, j) == LineAfter(NextLine(v), j - 1)
  {
    hide Evaluates, LineInputs, NextLine;
    forall i | j - 1 < i < |ss[1..]|
      ensures !Evaluates(LineInputs(LineAfter(NextLine(v), i), ss[1..][i]))
    {
      assert LineAfter(v, i + 1) == LineAfter(NextLine(v), i) && ss[1..][i] == ss[i + 1];
    }
  }

  /** Lines that are not evaluated keep what is prepared. */
  lemma {:induction false} KeepsPrepared(u: Unit, v: nat, ss: seq<Settings>, a: Inputs)
    requires Resting(u) && Prepared(u, a)
    requires forall i :: 0 <= i < |ss| ==> !Evaluates(LineInputs(LineAfter(v, i), ss[i]))
    ensures Resting(Lines(u, v, ss)) && Prepared(Lines(u, v, ss), a)
    decreases |ss|
  {
    hide Scan, Wanted, Evaluates, LineInputs, NextLine;
    if ss == [] {
    } else {
      var l := LineInputs(v, ss[0]);
      assert !Evaluates(LineInputs(LineAfter(v, 0), ss[0]));
      LineRests(u, l);
      LineSkips(u, l, WIDTH);
      forall i | 0 <= i < |ss[1..]|
        ensures !Evaluates(LineInputs(LineAfter(NextLine(v), i), ss[1..][i]))
      {
        assert LineAfter(v, i + 1) == LineAfter(NextLine(v), i) && ss[1..][i] == ss[i + 1];
      }
      KeepsPrepared(Scan(u, l, WIDTH), NextLine(v), ss[1..], a);
    }
  }

  lemma {:induction false} LinesPrepare(u: Unit, v: nat, ss: seq<Settings>, j: nat)
    requires Resting(u) && LastEvaluated(v, ss, j)
    ensures Resting(Lines(u, v, ss)) && Prepared(Lines(u, v, ss), LineInputs(LineAfter(v, j), ss[j]))
    decreases |ss|
  {
    hide Scan, Wanted, Evaluates, LineInputs, NextLine;
    var l := LineInputs(v, ss[0]);
    LineRests(u, l);
    if j == 0 {
      LinePrepares(u, l);
      forall i | 0 <= i < |ss[1..]|
        ensures !Evaluates(LineInputs(LineAfter(NextLine(v), i), ss[1..][i]))
      {
        assert LineAfter(v, i + 1) == LineAfter(NextLine(v), i) && ss[1..][i] == ss[i + 1];
      }
      KeepsPrepared(Scan(u, l, WIDTH), NextLine(v), ss[1..], l);
    } else {
      LastRest(v, ss, j);
      LinesPrepare(Scan(u, l, WIDTH), NextLine(v), ss[1..], j - 1);
    }
  }

  /** Over any number of lines with any settings, from any line at rest: every pixel of any line after them shows
      the objects that the last line on which objects were evaluated has chosen for the line behind it. */
  lemma FramesMatch(u: Unit, v: nat, ss: seq<Settings>, j: nat, b: Inputs, x: nat)
    requires Resting(u) && LastEvaluated(v, ss, j) && x < 256
    ensures Output(Scan(Lines(u, v, ss), b, 32 + x), b, x) == Shown(LineInputs(LineAfter(v, j), ss[j]), b, x)
  {
    hide Scan, Output, Shown, Lines, Evaluates, Wanted, LineInputs;
    LinesPrepare(u, v, ss, j);
    PreparedShows(Lines(u, v, ss), LineInputs(LineAfter(v, j), ss[j]), b, x);
  }

  // ---------------------------------------------------------------------------------------------
  // The overflow flag over a frame
  // ---------------------------------------------------------------------------------------------

  /** VGA line v is evaluated and n or more objects cross the line it prepares. */
  predicate Crowded(v: nat, s: Settings, n: nat) {
    var l := LineInputs(v, s);
    Evaluates(l) && |Crossing(l, 64)| >= n
  }

  predicate SomeCrowded(v: nat, ss: seq<Settings>, n: nat) { exists i :: 0 <= i < |ss| && Crowded(v + i, ss[i], n) }

  lemma LineFlag(u: Unit, v: nat, s: Settings)
    requires Resting(u)
    ensures var l := LineInputs(v, s); Scan(u, l, WIDTH).overflow <==> (l.yNext != 0 && u.overflow) || Crowded(v, s, 8)
  {
    hide Scan, Crossing, Evaluates;
    var l := LineInputs(v, s);
    if Evaluates(l) {
      OverflowAtEight(u, l);
    } else {
      OverflowKept(u, l);
    }
  }

  lemma SomeFirst(v: nat, ss: seq<Settings>, n: nat)
    requires ss != []
    ensures SomeCrowded(v, ss, n) <==> Crowded(v, ss[0], n) || SomeCrowded(v + 1, ss[1..], n)
  {
    hide Crowded;
    if i :| 0 < i < |ss| && Crowded(v + i, ss[i], n) {
      assert Crowded(v + 1 + (i - 1), ss[1..][i - 1], n);
    }
    if i :| 0 <= i < |ss| - 1 && Crowded(v + 1 + i, ss[1..][i], n) {
      assert Crowded(v + (i + 1), ss[i + 1], n);
    }
  }

  /** Within a frame the flag is kept and set. */
  lemma {:induction false} FlagWithin(u: Unit, v: nat, ss: seq<Settings>)
    requires Resting(u) && 1 <= v && v + |ss| <= 520
    ensures Lines(u, v, ss).overflow <==> u.overflow || SomeCrowded(v, ss, 8)
    decreases |ss|
  {
    hide Scan, Crowded, SomeCrowded;
    if ss == [] {
      assert !SomeCrowded(v, [], 8) by { NoneCrowded(v, 8); }
    } else {
      var l := LineInputs(v, ss[0]);
      LineRests(u, l);
      LineFlag(u, v, ss[0]);
      SomeFirst(v, ss, 8);
      FlagWithin(Scan(u, l, WIDTH), v + 1, ss[1..]);
    }
  }

  lemma NoneCrowded(v: nat, n: nat)
    ensures !SomeCrowded(v, [], n)
  {
  }

  /** From the start of a frame on, the flag is up if and only if eight or more objects cross some line that
      has been evaluated. */
  lemma OverflowInFrame(u: Unit, ss: seq<Settings>)
    requires Resting(u) && 0 < |ss| <= 520
    ensures Lines(u, 0, ss).overflow <==> SomeCrowded(0, ss, 8)
  {
    hide Scan, Crowded, SomeCrowded;
    var l := LineInputs(0, ss[0]);
    LineRests(u, l);
    LineFlag(u, 0, ss[0]);
    SomeFirst(0, ss, 8);
    FlagWithin(Scan(u, l, WIDTH), 1, ss[1..]);
  }

  /** So over a frame it tells of more than eight objects on some line exactly unless some line has eight and
      none has more. */
  lemma OverflowExactUnlessEight(u: Unit, ss: seq<Settings>)
    requires Resting(u) && 0 < |ss| <= 520
    ensures (Lines(u, 0, ss).overflow <==> SomeCrowded(0, ss, 9)) <==> !(SomeCrowded(0, ss, 8) && !SomeCrowded(0, ss, 9))
  {
    hide Lines;
    OverflowInFrame(u, ss);
    if i :| 0 <= i < |ss| && Crowded(0 + i, ss[i], 9) {
      assert Crowded(0 + i, ss[i], 8);
    }
  }
}
