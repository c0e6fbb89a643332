/** What a picture line with sprites does to accesses of the PPU register port: when the sprite unit is on the
    video bus, with which address, and where a data access then goes. */
module StrayAccess {
  import opened Bytes
  import opened Sprites
  import opened SpriteLines
  import Hci
  import PpuPort

  /** The sprite unit on the video bus in pixel x, from its state at the start of the pixel. */
  function OnBus(u: Unit, l: Inputs, x: nat): PpuPort.Fetch
    requires u.Valid()
  {
    var j, plane := FetchIndex(x), x / 2 % 4;
    if Evaluates(l) && FetchPixel(x) && j < u.cnt && plane < 2 then
      PpuPort.Fetch(PatternAddress(l, u.stm[j], plane) % 0x2000)
    else PpuPort.NoFetch
  }

  /** While entry j is fetched, counter and temporary memory are as after the evaluation. */
  lemma {:induction false} SlotSteady(u: Unit, l: Inputs, j: nat, k: nat)
    requires u.Valid() && Evaluates(l) && j < 8 && k < 8
    ensures var v, w := Scan(u, l, 288), Scan(u, l, 288 + 8 * j + k); w.cnt == v.cnt && w.stm == v.stm
    decreases k
  {
    hide Scan, Evaluates, Fetching, FetchPair;
    if k == 0 {
      FetchesFirst(u, l, j);
    } else {
      SlotSteady(u, l, j, k - 1);
      FetchesAt(u, l, j, k - 1, 288 + 8 * j + (k - 1));
    }
  }

  /** Pixels 256 to 319 belong to the eight entries, eight to each.  In the first four of them the unit is on the
      bus if an object was chosen for the entry, with the address of the direct lookup. */
  lemma BusInLine(u: Unit, l: Inputs, j: nat, k: nat)
    requires u.Valid() && u.cnt == 0 && Evaluates(l) && j < 8 && k < 8
    ensures var s := Chosen(l, 64);
      OnBus(Scan(u, l, 288 + 8 * j + k), l, 256 + 8 * j + k) ==
        if j < |s| && k < 4 then PpuPort.Fetch(LookupAddress(l, s[j]) + 8 * (k / 2)) else PpuPort.NoFetch
  {
    hide Scan, Evaluates, Chosen, Evaluated, PatternAddress, LookupAddress, FetchPixel, FetchIndex;
    var s := Chosen(l, 64);
    EvaluatesFirst(u, l, 64);
    SlotSteady(u, l, j, k);
    FetchTimes(j, k);
    if j < |s| && k < 4 {
      AddressMatches(l, s[j], k / 2);
    }
  }

  /** Everywhere else the bus is free. */
  lemma BusElsewhere(u: Unit, l: Inputs, x: nat)
    requires u.Valid() && !(Evaluates(l) && 256 <= x < 320)
    ensures OnBus(u, l, x) == PpuPort.NoFetch
  {
    hide FetchIndex, PatternAddress;
  }

  /** A data write of a program to the name tables, in the first clocks of pixel 256 of a line before one that an
      object crosses, goes to that object's pattern instead. */
  lemma WriteGoesAstray(u: Unit, l: Inputs, q: PpuPort.Port, d: Byte, g: PpuPort.Fetch)
    requires u.Valid() && u.cnt == 0 && Evaluates(l) && Chosen(l, 64) != []
    requires PpuPort.Settled(q) && 0x2000 <= PpuPort.Address(q) < 0x3F00
    ensures var a, own := LookupAddress(l, Chosen(l, 64)[0]), Hci.PpuCell(q.cfg, PpuPort.Address(q));
      var r := PpuPort.EffectUnder(q, PpuPort.Write(7, d), OnBus(Scan(u, l, 288), l, 256), g);
      r.vram == q.vram[a := d] && r.vram[own] == q.vram[own]
  {
    hide Scan, Evaluates, Chosen, LookupAddress, OnBus, Bit, PpuPort.Address;
    BusInLine(u, l, 0, 0);
    var a := LookupAddress(l, Chosen(l, 64)[0]);
    assert Hci.PpuCell(q.cfg, a) == a;
  }

  /** A data read from the name tables in that pixel fetches the object's pattern byte instead. */
  lemma ReadGoesAstray(u: Unit, l: Inputs, q: PpuPort.Port, shown: Byte)
    requires u.Valid() && u.cnt == 0 && Evaluates(l) && Chosen(l, 64) != []
    requires PpuPort.Settled(q) && 0x2000 <= PpuPort.Address(q) < 0x3F00
    ensures var a, f := LookupAddress(l, Chosen(l, 64)[0]), OnBus(Scan(u, l, 288), l, 256);
      var r := PpuPort.EffectUnder(q, PpuPort.Read(7, shown), f, f);
      r.buffer == q.vram[a] && PpuPort.ReadCell(q, f, f) == a != Hci.PpuCell(q.cfg, PpuPort.Address(q)) && r.vram == q.vram
  {
    hide Scan, Evaluates, Chosen, LookupAddress, OnBus, Bit, PpuPort.Address, PpuPort.Stepped;
    BusInLine(u, l, 0, 0);
    var a := LookupAddress(l, Chosen(l, 64)[0]);
    assert Hci.PpuCell(q.cfg, a) == a;
  }
}
