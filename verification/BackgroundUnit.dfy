/** The background unit with its counters and shift registers updated in place. */
module BackgroundUnit {
  import opened Bytes
  import opened Raster
  import opened Background

  class Generator {
    var vc: nat
    var vtc: nat
    var fvc: nat
    var col: nat
    var par: Byte
    var ar: nat
    var pd1: Byte
    var pd0: Byte
    var bit3: seq<bool>
    var bit2: seq<bool>
    var bit1: seq<bool>
    var bit0: seq<bool>

    ghost predicate Valid()
      reads this
    {
      Value().Valid()
    }

    ghost function Value(): Unit
      reads this
    {
      Unit(Row(vc, vtc, fvc), col, par, ar, pd1, pd0, bit3, bit2, bit1, bit0)
    }

    constructor ()
      ensures Valid()
    {
      vc, vtc, fvc, col, par, ar, pd1, pd0 := 0, 0, 0, 0, 0, 0, 0, 0;
      bit3, bit2 := seq(9, _ => false), seq(9, _ => false);
      bit1, bit0 := seq(16, _ => false), seq(16, _ => false);
    }

    /** The access of one pixel. */
    method Fetch(l: Inputs, x: nat)
      requires Valid()
      modifies this`par, this`ar, this`pd0, this`pd1
      ensures Value() == Fetched(old(Value()), l, x)
    {
      hide AttributeBits;
      if Active(l) && FetchPixel(x) {
        var row := Row(vc, vtc, fvc);
        var cycle := x % 8;
        if cycle == 0 {
          par := l.vram[NameAddress(row, col)];
        } else if cycle == 1 {
          ar := AttributeBits(l.vram[AttributeAddress(row, col)], row, col);
        } else if cycle == 2 {
          pd0 := l.vram[PatternAddress(l.table, par, 0, fvc)];
        } else if cycle == 3 {
          pd1 := l.vram[PatternAddress(l.table, par, 1, fvc)];
        }
      }
    }

    /** The counters at x 319. */
    method Turn(l: Inputs)
      requires Valid() && l.scroll.Valid()
      modifies this`vc, this`vtc, this`fvc, this`col
      ensures Value() == Turned(old(Value()), l)
    {
      col := ColumnOf(l.scroll);
      if l.yNext != l.y {
        if l.yNext == 0 {
          vc, vtc, fvc := l.scroll.v, l.scroll.vt, l.scroll.fv;
        } else {
          var next := NextRow(Row(vc, vtc, fvc));
          vc, vtc, fvc := next.vc, next.vtc, next.fvc;
        }
      }
    }

    method Shift()
      requires Valid()
      modifies this`bit3, this`bit2, this`bit1, this`bit0
      ensures Value() == ShiftTiles(old(Value()))
    {
      bit3 := bit3[1..] + [bit3[8]];
      bit2 := bit2[1..] + [bit2[8]];
      bit1 := bit1[1..] + [false];
      bit0 := bit0[1..] + [false];
    }

    method Load()
      requires Valid()
      modifies this`bit3, this`bit2, this`bit1, this`bit0, this`col
      ensures Value() == NextTile(old(Value()))
    {
      hide Pixels;
      col := (col + 1) % 64;
      bit3 := bit3[..8] + [ar / 2 == 1];
      bit2 := bit2[..8] + [ar % 2 == 1];
      bit1 := bit1[..8] + Pixels(pd1);
      bit0 := bit0[..8] + Pixels(pd0);
    }

    /** The eight clocks of one pixel. */
    method Step(l: Inputs, x: nat) returns (index: nat)
      requires Valid() && l.scroll.Valid()
      modifies this
      ensures Valid() && Value() == Pixel(old(Value()), l, x) && index == Output(old(Value()), l, x)
    {
      hide Fetched, ShiftTiles, NextTile, Turned;
      index := 0;
      if l.en && !(l.clip && x < 8) {
        var f := l.scroll.fh;
        index := 8 * B(bit3[f]) + 4 * B(bit2[f]) + 2 * B(bit1[f]) + B(bit0[f]);
      }
      Fetch(l, x);
      if Active(l) {
        if x == 319 {
          Turn(l);
        } else if FetchPixel(x) {
          Shift();
          if x % 8 == 7 {
            Load();
          }
        }
      }
    }

    /** One VGA line; indices are the outputs of the 256 visible pixels. */
    method Line(l: Inputs) returns (indices: seq<nat>)
      requires Valid() && l.scroll.Valid()
      modifies this
      ensures Valid() && Value() == Scan(old(Value()), l, WIDTH) && |indices| == 256
      ensures forall x :: 0 <= x < 256 ==> indices[x] == Output(Scan(old(Value()), l, 32 + x), l, x)
    {
      hide Output, Pixel;
      ghost var u := Value();
      indices := [];
      for p := 0 to WIDTH
        invariant Valid() && Value() == Scan(u, l, p)
        invariant |indices| == if p < 32 then 0 else if p < 288 then p - 32 else 256
        invariant forall x :: 0 <= x < |indices| ==> indices[x] == Output(Scan(u, l, 32 + x), l, x)
      {
        var index := Step(l, NesX(p));
        if 32 <= p < 288 {
          indices := indices + [index];
        }
      }
    }
  }
}
