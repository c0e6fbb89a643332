/** The sprite unit with its memories and registers updated in place. */
module SpriteUnit {
  import opened Bytes
  import opened Raster
  import opened Sprites

  class Generator {
    const stm: array<Slot>
    const sbm: array<Buffer>
    const shift: array<Shift>
    var cnt: nat
    var overflow: bool
    var pd1: Bits
    var pd0: Bits

    ghost predicate Valid()
      reads this
    {
      stm.Length == 8 && sbm.Length == 8 && shift.Length == 8 && cnt <= 8
    }

    ghost function Value(): (u: Unit)
      reads this, stm, sbm, shift
      requires Valid()
      ensures u.Valid()
    {
      Unit(stm[..], sbm[..], cnt, overflow, pd1, pd0, shift[..])
    }

    /** Reset: registers are cleared, the memories are not. */
    constructor ()
      ensures Valid() && fresh(stm) && fresh(sbm) && fresh(shift)
      ensures Value() == Value().(cnt := 0, overflow := false, pd1 := BLANK, pd0 := BLANK)
      ensures forall j :: 0 <= j < 8 ==> shift[j] == Shift(BLANK, BLANK)
    {
      stm := new Slot[8](_ => Slot(false, 0, 0, 0, false, false, 0));
      sbm := new Buffer[8](_ => EMPTY);
      shift := new Shift[8](_ => Shift(BLANK, BLANK));
      cnt, overflow, pd1, pd0 := 0, false, BLANK, BLANK;
    }

    method Load(l: Inputs, x: nat)
      requires Valid()
      modifies shift
      ensures Valid() && Value() == Loaded(old(Value()), l, x)
    {
      ghost var u := Value();
      if Displays(l) {
        for j := 0 to 8
          invariant Valid() && Value() == u.(shift := shift[..])
          invariant forall k :: 0 <= k < j ==> shift[k] == Reloaded(u, x, k)
          invariant forall k :: j <= k < 8 ==> shift[k] == u.shift[k]
        {
          if sbm[j].x == x {
            shift[j] := Shift(sbm[j].pd1, sbm[j].pd0);
          }
        }
        assert shift[..] == ReloadedAll(u, x);
      }
    }

    method Fetch(l: Inputs, x: nat)
      requires Valid()
      modifies this`pd1, this`pd0, sbm
      ensures Valid() && Value() == Fetched(old(Value()), l, x)
    {
      ghost var u := Value();
      if Evaluates(l) && FetchPixel(x) {
        var j := FetchIndex(x);
        if j >= cnt {
          sbm[j] := EMPTY;
        } else {
          var s, pair := stm[j], x / 2 % 4;
          if pair == 0 {
            pd0 := Pattern(l, s, 0);
          } else if pair == 1 {
            pd1 := Pattern(l, s, 1);
          } else if pair == 2 {
            sbm[j] := Buffer(s.primary, s.behind, s.palette, pd1, pd0, s.x);
          }
        }
      }
    }

    /** The priority chain as the output of the settled state. */
    method Show() returns (dot: Dot)
      requires Valid()
      ensures dot == Chain(Value(), 0)
    {
      var j := 0;
      while j < 8 && Colour(shift[j]) == 0
        invariant 0 <= j <= 8
        invariant Chain(Value(), 0) == Chain(Value(), j)
      {
        j := j + 1;
      }
      if j == 8 {
        dot := NOTHING;
      } else {
        dot := Dot(sbm[j].primary, sbm[j].behind, sbm[j].palette, Colour(shift[j]));
      }
    }

    method ShiftOut(l: Inputs)
      requires Valid()
      modifies shift
      ensures Valid() && Value() == ShiftedOut(old(Value()), l)
    {
      ghost var u := Value();
      if Displays(l) {
        for j := 0 to 8
          invariant Valid() && Value() == u.(shift := shift[..])
          invariant forall k :: 0 <= k < j ==> shift[k] == ShiftBy(u.shift[k], 1)
          invariant forall k :: j <= k < 8 ==> shift[k] == u.shift[k]
        {
          shift[j] := ShiftBy(shift[j], 1);
        }
        assert shift[..] == ShiftAll(u.shift);
      }
    }

    method Count(l: Inputs, x: nat)
      requires Valid()
      modifies this`cnt, stm
      ensures Valid() && Value() == Counted(old(Value()), l, x)
    {
      if Evaluates(l) {
        if x == 320 {
          cnt := 0;
        } else if x < 256 && x % 4 == 0 && InRange(l, x / 4) && cnt < 8 {
          stm[cnt] := Evaluated(l, x / 4);
          cnt := cnt + 1;
        }
      }
    }

    /** The eight clocks of one pixel, with the output before the pulse. */
    method Step(l: Inputs, x: nat) returns (dot: Dot)
      requires Valid()
      modifies this, stm, sbm, shift
      ensures Valid() && Value() == Pixel(old(Value()), l, x) && dot == Output(old(Value()), l, x)
    {
      Load(l, x);
      Fetch(l, x);
      overflow := !(l.yNext == 0 && x == 0) && (overflow || cnt >= 8);
      dot := Show();
      if !l.en || (l.clip && x < 8) {
        dot := NOTHING;
      }
      ShiftOut(l);
      Count(l, x);
    }

    /** One VGA line; dots are the outputs of the 256 visible pixels. */
    method Line(l: Inputs) returns (dots: seq<Dot>)
      requires Valid()
      modifies this, stm, sbm, shift
      ensures Valid() && Value() == Scan(old(Value()), l, WIDTH) && |dots| == 256
      ensures forall x :: 0 <= x < 256 ==> dots[x] == Output(Scan(old(Value()), l, 32 + x), l, x)
    {
      hide Output, Pixel;
      ghost var u := Value();
      dots := [];
      for p := 0 to WIDTH
        invariant Valid() && Value() == Scan(u, l, p)
        invariant |dots| == if p < 32 then 0 else if p < 288 then p - 32 else 256
        invariant forall x :: 0 <= x < |dots| ==> dots[x] == Output(Scan(u, l, 32 + x), l, x)
      {
        var dot := Step(l, NesX(p));
        if 32 <= p < 288 {
          dots := dots + [dot];
        }
      }
    }
  }
}
