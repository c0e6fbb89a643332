/** Loading a ROM over the debug link, from the bytes of the file to what the CPU and the PPU then read. */
module RomLoad {
  import opened Bytes
  import opened RegisterFile
  import opened Isa
  import opened CpuCore
  import opened CpuFinish
  import opened CpuSteps
  import opened DebugPort
  import opened Hci
  import opened Packets
  import opened HciFraming

  const BLOCK: nat := 0x400

  /** The buffer a file is read into. */
  type File = f: seq<Byte> | |f| == 0x10_0000 witness seq(0x10_0000, _ => 0)

  /** The host's checks: the signature, at most two program and one character bank, no four-screen mirroring,
      mapper 0. */
  predicate Accepted(f: File) {
    f[0] == 0x4E && f[1] == 0x45 && f[2] == 0x53 && f[3] == 0x1A && f[4] <= 2 && f[5] <= 1 && !Bit(f[6], 3) &&
    f[6] / 16 == 0 && f[7] / 16 == 0
  }

  function PrgSize(f: File): nat { var banks: int := f[4]; banks * 0x4000 }

  function ChrSize(f: File): nat { var banks: int := f[5]; banks * 0x2000 }

  // ---------------------------------------------------------------------------------------------
  // The packets
  // ---------------------------------------------------------------------------------------------

  /** Program blocks n and up of a total, at 0x8000 and on. */
  function PrgPackets(f: File, n: nat, total: nat): (ps: seq<Packet>)
    requires n <= total <= 32
    ensures forall i :: 0 <= i < |ps| ==> ps[i].Valid() && ps[i].CpuMemWr?
    decreases total - n
  {
    if n == total then []
    else [CpuMemWr(0x8000 + BLOCK * n, PrgData(f, n))] + PrgPackets(f, n + 1, total)
  }

  /** Character blocks, taken from the file at start. */
  function ChrPackets(f: File, start: nat, n: nat, total: nat): (ps: seq<Packet>)
    requires n <= total <= 8 && start <= 0x10000
    ensures forall i :: 0 <= i < |ps| ==> ps[i].Valid() && ps[i].PpuMemWr?
    decreases total - n
  {
    if n == total then []
    else [PpuMemWr(BLOCK * n, f[start + BLOCK * n..start + BLOCK * n + BLOCK])] + ChrPackets(f, start, n + 1, total)
  }

  function Setup(f: File): (ps: seq<Packet>)
    ensures forall i :: 0 <= i < |ps| ==> ps[i].Valid() && !ps[i].DbgRun?
  {
    [DbgHlt, PpuDisable, CartSetCfg(f[4..9])]
  }

  /** PC is taken from the last words of the program. */
  function Finish(f: File): (ps: seq<Packet>)
    requires f[4] <= 2
    ensures |ps| == 3 && ps[0].Valid() && ps[1].Valid() && ps[2] == DbgRun && !ps[0].DbgRun? && !ps[1].DbgRun?
  {
    [CpuRegWr(0, f[16 + PrgSize(f) - 4]), CpuRegWr(1, f[16 + PrgSize(f) - 3]), DbgRun]
  }

  function LoadPackets(f: File): (ps: seq<Packet>)
    requires f[4] <= 2 && f[5] <= 1
    ensures Session(ps) && EndsRunning(ps)
  {
    Setup(f) + (PrgPackets(f, 0, PrgSize(f) / BLOCK) + (ChrPackets(f, 16 + PrgSize(f), 0, ChrSize(f) / BLOCK) + Finish(f)))
  }

  // ---------------------------------------------------------------------------------------------
  // Effects
  // ---------------------------------------------------------------------------------------------

  lemma {:induction false} EffectAdds(w: World, ps: seq<Packet>, qs: seq<Packet>)
    requires Session(ps + qs) && Session(ps) && Session(qs)
    ensures EffectAll(w, ps + qs) == EffectAll(EffectAll(w, ps), qs)
    decreases |ps|
  {
    hide Effect;
    if ps == [] {
      assert ps + qs == qs;
    } else {
      assert (ps + qs)[1..] == ps[1..] + qs;
      forall i | 0 <= i < |ps[1..] + qs|
        ensures (ps[1..] + qs)[i] == (ps + qs)[i + 1]
      {
      }
      EffectAdds(Effect(w, ps[0]), ps[1..], qs);
    }
  }

  /** A block written where addresses are their own cells. */
  lemma {:induction false} WritesBlock(w: World, addr: Word, data: seq<Byte>)
    requires 0x8000 <= addr && addr + |data| <= 0x1_0000
    requires forall a: Word :: addr <= a < addr + |data| ==> CpuCell(w.cfg, a) == a
    ensures var r := WriteCpu(w, addr, data);
      r == w.(cpu := r.cpu) &&
      forall c: Word :: r.cpu[c] == if addr <= c < addr + |data| then data[c - addr] else w.cpu[c]
    decreases |data|
  {
    hide CpuCell;
    if |data| > 1 {
      assert Add16(addr, 1) == addr + 1;
      WritesBlock(CpuWrite(w, addr, data[0]), addr + 1, data[1..]);
    } else if |data| == 1 {
      assert WriteCpu(CpuWrite(w, addr, data[0]), Add16(addr, 1), data[1..]) == CpuWrite(w, addr, data[0]);
    }
  }

  lemma {:induction false} WritesPattern(w: World, addr: Word, data: seq<Byte>)
    requires addr + |data| <= 0x2000
    ensures var r := WritePpu(w, addr, data);
      r == w.(ppu := r.ppu) &&
      forall c :: 0 <= c < 0x4000 ==> r.ppu[c] == if addr <= c < addr + |data| then data[c - addr] else w.ppu[c]
    decreases |data|
  {
    if |data| > 0 {
      assert Add16(addr, 1) == addr + 1 && PpuCell(w.cfg, addr) == addr;
      WritesPattern(PpuWrite(w, addr, data[0]), addr + 1, data[1..]);
    }
  }

  /** Program bytes are their own cells below the end of the program. */
  lemma ProgramCell(cfg: Config, banks: nat, a: Word)
    requires (banks == 1 || banks == 2) && cfg[0] == banks && a >= 0x8000
    ensures CpuCell(cfg, a) == 0x8000 + (a - 0x8000) % (banks * 0x4000)
    ensures a < 0x8000 + banks * 0x4000 ==> CpuCell(cfg, a) == a
  {
    assert Bit(1, 1) == false && Bit(2, 1) == true;
    assert 0x8000 + (a - 0x8000) == a;
  }

  /** Program blocks n and up put their part of the file where it belongs. */
  /** The bytes of program block n. */
  function PrgData(f: File, n: nat): seq<Byte>
    requires n < 32
  {
    f[16 + BLOCK * n..16 + BLOCK * n + BLOCK]
  }

  lemma PrgBlockLoads(w: World, f: File, n: nat)
    requires (f[4] == 1 || f[4] == 2) && w.cfg[0] == f[4] && BLOCK * n + BLOCK <= PrgSize(f)
    ensures var r := WriteCpu(w, 0x8000 + BLOCK * n, PrgData(f, n));
      r == w.(cpu := r.cpu) &&
      forall c: Word :: c >= 0x8000 ==>
        r.cpu[c] == if BLOCK * n <= c - 0x8000 < BLOCK * n + BLOCK then f[16 + (c - 0x8000)] else w.cpu[c]
  {
    hide CpuCell, WriteCpu;
    var addr, data := 0x8000 + BLOCK * n, PrgData(f, n);
    forall a: Word | addr <= a < addr + |data|
      ensures CpuCell(w.cfg, a) == a
    {
      ProgramCell(w.cfg, f[4], a);
    }
    WritesBlock(w, addr, data);
  }

  lemma {:induction false} PrgLoads(w: World, f: File, n: nat)
    requires (f[4] == 1 || f[4] == 2) && w.cfg[0] == f[4] && n <= PrgSize(f) / BLOCK
    ensures var r := EffectAll(w, PrgPackets(f, n, PrgSize(f) / BLOCK));
      r == w.(cpu := r.cpu) &&
      forall c: Word :: c >= 0x8000 ==>
        r.cpu[c] == if BLOCK * n <= c - 0x8000 < PrgSize(f) then f[16 + (c - 0x8000)] else w.cpu[c]
    decreases PrgSize(f) / BLOCK - n
  {
    hide CpuCell, WriteCpu, PrgData;
    var total := PrgSize(f) / BLOCK;
    assert BLOCK * total == PrgSize(f);
    if n < total {
      var ps, next := PrgPackets(f, n, total), WriteCpu(w, 0x8000 + BLOCK * n, PrgData(f, n));
      PrgBlockLoads(w, f, n);
      assert ps[1..] == PrgPackets(f, n + 1, total);
      PrgLoads(next, f, n + 1);
      assert EffectAll(w, ps) == EffectAll(next, ps[1..]);
    }
  }

  lemma {:induction false} ChrLoads(w: World, f: File, start: nat, n: nat, total: nat)
    requires n <= total <= 8 && start <= 0x10000
    ensures var r := EffectAll(w, ChrPackets(f, start, n, total));
      r == w.(ppu := r.ppu) &&
      forall c :: 0 <= c < 0x2000 ==> r.ppu[c] == if BLOCK * n <= c < BLOCK * total then f[start + c] else w.ppu[c]
    decreases total - n
  {
    hide WritePpu;
    if n < total {
      var ps := ChrPackets(f, start, n, total);
      var addr, data := BLOCK * n, f[start + BLOCK * n..start + BLOCK * n + BLOCK];
      WritesPattern(w, addr, data);
      assert ps[1..] == ChrPackets(f, start, n + 1, total);
      ChrLoads(WritePpu(w, addr, data), f, start, n + 1, total);
    }
  }

  lemma EffectCons(w: World, p: Packet, qs: seq<Packet>)
    requires Session([p] + qs) && Session(qs)
    ensures EffectAll(w, [p] + qs) == EffectAll(Effect(w, p), qs)
  {
    hide Effect;
    assert ([p] + qs)[1..] == qs;
  }

  lemma EffectThree(w: World, a: Packet, b: Packet, c: Packet)
    requires a.Valid() && b.Valid() && c.Valid() && !a.DbgRun? && !b.DbgRun?
    ensures Session([a, b, c]) && EffectAll(w, [a, b, c]) == Effect(Effect(Effect(w, a), b), c)
  {
    hide Effect;
    assert Session([b, c]) && Session([c]);
    assert [a, b, c] == [a] + [b, c] && [b, c] == [b] + [c] && [c] == [c] + [];
    EffectCons(w, a, [b, c]);
    EffectCons(Effect(w, a), b, [c]);
    EffectCons(Effect(Effect(w, a), b), c, []);
  }

  lemma SetupSets(w: World, f: File)
    requires Session(Setup(f))
    ensures var r := EffectAll(w, Setup(f)); r.cfg == f[4..9] && r.core == w.core && r.ppu == w.ppu
  {
    hide CpuCell, EffectAll;
    EffectThree(w, DbgHlt, PpuDisable, CartSetCfg(f[4..9]));
  }

  lemma FinishSets(w: World, f: File)
    requires f[4] <= 2 && Session(Finish(f))
    ensures var lo, hi := f[16 + PrgSize(f) - 4], f[16 + PrgSize(f) - 3];
      EffectAll(w, Finish(f)) == w.(core := DebugWrite(DebugWrite(w.core, 0, lo), 1, hi))
  {
    hide DebugWrite, EffectAll;
    var lo, hi := f[16 + PrgSize(f) - 4], f[16 + PrgSize(f) - 3];
    EffectThree(w, CpuRegWr(0, lo), CpuRegWr(1, hi), DbgRun);
  }

  /** What a loaded ROM looks like to the CPU and the PPU, and the CPU about to fetch from its reset vector. */
  predicate InPlace(w: World, f: File)
    requires f[4] == 1 || f[4] == 2
  {
    (forall a: Word :: a >= 0x8000 ==> CpuRead(w, a) == f[16 + (a - 0x8000) % PrgSize(f)]) &&
    (f[5] == 1 ==> forall b: Word :: b < 0x2000 ==> PpuRead(w, b) == f[16 + PrgSize(f) + b]) &&
    AtFetch(w.core, Arch(w.core.r, ToWord(CpuRead(w, 0xFFFD), CpuRead(w, 0xFFFC)), w.core.mem))
  }

  lemma BlocksFill(f: File)
    requires f[4] <= 2 && f[5] <= 1
    ensures BLOCK * (PrgSize(f) / BLOCK) == PrgSize(f) && BLOCK * (ChrSize(f) / BLOCK) == ChrSize(f)
  {
  }

  /** From any state of memories, registers and configuration. */
  lemma PacketsLoad(w: World, f: File)
    requires Accepted(f) && f[4] >= 1
    ensures InPlace(EffectAll(w, LoadPackets(f)), f)
  {
    hide EffectAll, Setup, PrgPackets, ChrPackets, Finish, CpuCell, PpuCell, DebugWrite, Bit, AtFetch;
    var prg, chr := PrgPackets(f, 0, PrgSize(f) / BLOCK), ChrPackets(f, 16 + PrgSize(f), 0, ChrSize(f) / BLOCK);
    BlocksFill(f);
    var w1 := EffectAll(w, Setup(f));
    SetupSets(w, f);
    var w2 := EffectAll(w1, prg);
    PrgLoads(w1, f, 0);
    var w3 := EffectAll(w2, chr);
    ChrLoads(w2, f, 16 + PrgSize(f), 0, ChrSize(f) / BLOCK);
    var w4 := EffectAll(w3, Finish(f));
    FinishSets(w3, f);
    EffectAdds(w2, chr, Finish(f));
    EffectAdds(w1, prg, chr + Finish(f));
    EffectAdds(w, Setup(f), prg + (chr + Finish(f)));
    assert EffectAll(w, LoadPackets(f)) == w4;
    forall a: Word | a >= 0x8000
      ensures CpuRead(w4, a) == f[16 + (a - 0x8000) % PrgSize(f)]
    {
      ProgramCell(w4.cfg, f[4], a);
    }
    forall b: Word | b < 0x2000
      ensures PpuCell(w4.cfg, b) == b
    {
      PatternCell(w4.cfg, b);
    }
    VectorPlace(f);
    PcWritten(w3.core, f[16 + PrgSize(f) - 4], f[16 + PrgSize(f) - 3]);
    assert w4.core.r == w3.core.r && w4.core.mem == w3.core.mem by { PcOnly(w3.core, f[16 + PrgSize(f) - 4], f[16 + PrgSize(f) - 3]); }
  }

  lemma PatternCell(cfg: Config, b: Word)
    requires b < 0x2000
    ensures PpuCell(cfg, b) == b
  {
  }

  lemma VectorPlace(f: File)
    requires f[4] == 1 || f[4] == 2
    ensures 0x7FFC % PrgSize(f) == PrgSize(f) - 4 && 0x7FFD % PrgSize(f) == PrgSize(f) - 3
  {
  }

  lemma PcOnly(q: Core, lo: Byte, hi: Byte)
    ensures var p := DebugWrite(DebugWrite(q, 0, lo), 1, hi); p.r == q.r && p.mem == q.mem
  {
  }

  // ---------------------------------------------------------------------------------------------
  // Main result
  // ---------------------------------------------------------------------------------------------

  /** Loading an accepted file of one or two program banks and none or one character bank over the link, from
      the running or the stopped state, whatever the memories held and whatever the gaps: the unit ends with
      the CPU running and the ROM in place.  From the running state the memories are those at the moment the
      first byte stops the CPU. */
  lemma RomLoads(m: Machine, f: File, cs: seq<Clk>)
    requires Accepted(f) && f[4] >= 1 && m.Valid() && (m.k.ctl.Decode? || m.k.ctl.Disabled?)
    requires m.k.rx == EncodeAll(LoadPackets(f)) && Open(cs) >= WorkAll(LoadPackets(f))
    ensures var e := HciFraming.Run(m, cs).k;
      e.ctl.Disabled? && e.rx == [] && e.out == m.k.out + ResponseAll(m.k.w, LoadPackets(f)) && InPlace(e.w, f)
  {
    hide EffectAll, LoadPackets, EncodeAll, FastN, Fast, InPlace, ResponseAll, WorkAll, Open, HciFraming.Run, Bit;
    var ps := LoadPackets(f);
    PacketsLoad(m.k.w, f);
    if m.k.ctl.Decode? {
      SessionCompletes(m, ps, cs);
    } else {
      Stops(m.k, f);
      FromStopped(m, ps, cs);
    }
  }

  /** The first packet takes the running state where it leaves the stopped one. */
  lemma Stops(k: Engine, f: File)
    requires f[4] <= 2 && f[5] <= 1 && k.ctl.Disabled? && k.rx == EncodeAll(LoadPackets(f))
    ensures LoadPackets(f)[0] == DbgHlt
  {
    hide EncodeAll, PrgPackets, ChrPackets;
  }

  lemma FromStopped(m: Machine, ps: seq<Packet>, cs: seq<Clk>)
    requires m.Valid() && m.k.ctl.Disabled? && Session(ps) && EndsRunning(ps) && ps[0] == DbgHlt
    requires m.k.rx == EncodeAll(ps) && Open(cs) >= WorkAll(ps)
    ensures var e := HciFraming.Run(m, cs).k;
      e.ctl.Disabled? && e.rx == [] && e.w == EffectAll(m.k.w, ps) && e.out == m.k.out + ResponseAll(m.k.w, ps)
  {
    hide FastN, Fast, Open, HciFraming.Run, EncodeAll, Effect, Response, EffectAll, ResponseAll, WorkAll;
    var k, qs := m.k, ps[1..];
    HaltStep(k, ps);
    assert EncodeAll(qs) + [] == EncodeAll(qs);
    SessionServed(Fast(k), qs, []);
    assert FastN(k, WorkAll(ps)) == FastN(Fast(k), WorkAll(qs)) by {
      OneStep(k);
      FastAdds(k, 1, WorkAll(qs));
    }
    RunCompletes(m, cs, WorkAll(ps));
  }

  /** The core then starts the ROM: with a memory that shows it what its bus does, one cycle later it is at the
      start of the instruction at the reset vector of the file, from where on it follows the instruction-level
      machine. */
  lemma StartsRom(w: World, f: File, mem: Memory)
    requires f[4] == 1 || f[4] == 2
    requires InPlace(w, f) && forall a: Word :: a >= 0x8000 ==> mem[a] == CpuRead(w, a)
    ensures var pc := ToWord(f[16 + PrgSize(f) - 3], f[16 + PrgSize(f) - 4]);
      Boundary(Cycle(w.core.(mem := mem), SOFT), Arch(w.core.r, pc, mem), SOFT) &&
      (pc >= 0x8000 ==> mem[pc] == f[16 + (pc - 0x8000) % PrgSize(f)])
  {
    hide Cycle, Boundary, InPlace, AtFetch, CpuRead;
    var pc := ToWord(f[16 + PrgSize(f) - 3], f[16 + PrgSize(f) - 4]);
    RomCell(w, f, 0xFFFC);
    RomCell(w, f, 0xFFFD);
    VectorPlace(f);
    FetchesVector(w, f);
    AnyMemory(w.core, pc, mem);
    FetchOpcode(w.core.(mem := mem), Arch(w.core.r, pc, mem), SOFT);
    if pc >= 0x8000 {
      RomCell(w, f, pc);
    }
  }

  lemma RomCell(w: World, f: File, a: Word)
    requires (f[4] == 1 || f[4] == 2) && InPlace(w, f) && a >= 0x8000
    ensures CpuRead(w, a) == f[16 + (a - 0x8000) % PrgSize(f)]
  {
    hide AtFetch, CpuRead, PpuRead;
  }

  lemma FetchesVector(w: World, f: File)
    requires (f[4] == 1 || f[4] == 2) && InPlace(w, f)
    ensures AtFetch(w.core, Arch(w.core.r, ToWord(CpuRead(w, 0xFFFD), CpuRead(w, 0xFFFC)), w.core.mem))
  {
    hide AtFetch, CpuRead, PpuRead;
  }

  /** About to fetch does not depend on the memory. */
  lemma AnyMemory(q: Core, pc: Word, mem: Memory)
    requires AtFetch(q, Arch(q.r, pc, q.mem))
    ensures AtFetch(q.(mem := mem), Arch(q.r, pc, mem))
  {
  }
}
