/** The PPU register port with its registers updated in place. */
module PpuPortUnit {
  import opened Bytes
  import opened Background
  import opened PpuPort
  import Hci

  class RegisterPort {
    var scroll: Scroll
    var counter: nat
    var second: bool
    var by32: bool
    var update: bool
    var buffer: Byte
    var ready: bool
    var output: Byte
    var idle: bool
    var vram: Hci.PpuCells
    var palette: seq<Byte>
    var latch: nat
    const cfg: Hci.Config

    ghost function Value(): Port
      reads this
    {
      Port(scroll, counter, second, by32, update, buffer, ready, output, idle, vram, palette, latch, cfg)
    }

    ghost predicate Valid()
      reads this
    {
      Value().Valid()
    }

    constructor (config: Hci.Config, cells: Hci.PpuCells)
      ensures Settled(Value()) && !second && Value().vram == cells && Value().cfg == config
    {
      cfg, vram := config, cells;
      scroll := Scroll(0, 0, 0, 0, 0, 0);
      counter, second, by32, update, buffer, ready, output, idle := 0, false, false, false, 0, false, 0, true;
      palette := seq(32, _ => 0);
      latch := 0;
    }

    /** A register write at the moment the port is selected; a is on the video bus. */
    method TakeWrite(sel: nat, d: Byte, a: Word)
      requires Valid()
      modifies this`scroll, this`second, this`by32, this`update, this`vram, this`palette
      ensures Value() == Taken(old(Value()), Write(sel, d), a)
    {
      hide Hci.PpuCell, PaletteCell;
      if sel == 0 {
        scroll := scroll.(v := d / 2 % 2, h := d % 2);
        by32 := d / 4 % 2 == 1;
      } else if sel == 5 {
        scroll := if second then scroll.(fv := d % 8, vt := d / 8) else scroll.(fh := d % 8, ht := d / 8);
        second := !second;
      } else if sel == 6 {
        if second {
          scroll := scroll.(vt := scroll.vt / 8 * 8 + d / 32, ht := d % 32);
          update := true;
        } else {
          scroll := scroll.(fv := d / 16 % 4, v := d / 8 % 2, h := d / 4 % 2, vt := d % 4 * 8 + scroll.vt % 8);
        }
        second := !second;
      } else if sel == 7 {
        if InPalette(a) {
          palette := palette[PaletteCell(a) := d % 64];
        } else {
          vram := vram[Hci.PpuCell(cfg, a) := d];
        }
      }
    }

    /** A register read. */
    method TakeRead(sel: nat, shown: Byte, a: Word)
      requires Valid()
      modifies this`output, this`second, this`ready
      ensures Value() == Taken(old(Value()), Read(sel, shown), a)
    {
      hide Hci.PpuCell, PaletteCell;
      if sel == 2 {
        output, second := shown, false;
      } else if sel == 4 {
        output := shown;
      } else if sel == 7 {
        output := if InPalette(a) then palette[PaletteCell(a)] else buffer;
        ready := true;
      }
    }

    /** The pulses end, and an access acts if the port has just been selected. */
    method Act(x: Access, edge: bool, a: Word)
      requires Valid() && (edge ==> !x.NoAccess?)
      modifies this`ready, this`update, this`output, this`second, this`scroll, this`by32, this`vram, this`palette
      ensures var d := old(Value()).(ready := false, update := false); Value() == if edge then Taken(d, x, a) else d
    {
      hide Taken;
      ready, update := false, false;
      if edge {
        if x.Write? {
          TakeWrite(x.sel, x.d, a);
        } else {
          TakeRead(x.sel, x.shown, a);
        }
      }
    }

    /** One clock; f is what the sprite unit does with the video bus. */
    method Clock(x: Access, f: Fetch)
      requires Valid()
      modifies this
      ensures Valid() && Value() == Step(old(Value()), x, f)
    {
      hide Hci.PpuCell, ShownCell, Taken, Joined;
      ghost var z := Step(Value(), x, f);
      var edge := idle && !x.NoAccess?;
      var a := if f.Fetch? then f.a else counter % 0x4000;
      var shown := if ready then vram[ShownCell(cfg, latch, a)] else buffer;
      var next := if edge && IsData(x) then (counter + if by32 then 32 else 1) % 0x8000
        else if update then Joined(scroll) else counter;
      Act(x, edge, a);
      buffer, counter, idle, latch := shown, next, x.NoAccess?, a;
      assert Value() == z;
    }
  }
}
