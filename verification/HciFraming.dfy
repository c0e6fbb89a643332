/** The debug unit over whole packets: whatever the gaps between bytes and however slowly replies drain, every
    packet is consumed to its last byte, has its effect, and gets its reply. */
module HciFraming {
  import opened Bytes
  import opened CpuCore
  import opened DebugPort
  import opened Hci
  import opened Packets

  // ---------------------------------------------------------------------------------------------
  // One clock
  // ---------------------------------------------------------------------------------------------

  /** A byte has arrived, and the transmit buffer does not claim to be full. */
  datatype Clk = Clk(available: bool, room: bool)

  /** The unit with what surrounds it: the memories answer one clock after the address, and a reply byte
      reaches the transmit buffer one clock late. */
  datatype Machine = Machine(k: Engine, cpuLatch: Word, ppuLatch: nat, wrEn: bool, txData: Byte)
  {
    predicate Valid() { ppuLatch < 0x4000 }
  }

  predicate Moves(k: Engine, c: Clk) {
    (WaitsForByte(k) ==> c.available && k.rx != []) && (WaitsForRoom(k) ==> c.room)
  }

  /** A step with the bytes the memories show. */
  function Stepped(k: Engine, cpuData: Byte, ppuData: Byte): Engine
    requires WaitsForByte(k) ==> k.rx != []
  {
    if WaitsForByte(k) then Advance(k.(rx := k.rx[1..]), k.rx[0], cpuData, ppuData)
    else Advance(k, 0, cpuData, ppuData)
  }

  function Clock(m: Machine, c: Clk): (r: Machine)
    requires m.Valid()
    ensures r.Valid()
  {
    var k := if Moves(m.k, c) then Stepped(m.k, CpuShown(m.k.w, m.cpuLatch, m.k.addr), m.k.w.ppu[m.ppuLatch]) else m.k;
    var replied := |k.out| > |m.k.out|;
    Machine(k, CpuCell(m.k.w.cfg, m.k.addr), PpuCell(m.k.w.cfg, m.k.addr), replied,
            if replied then k.out[|k.out| - 1] else 0)
  }

  function Run(m: Machine, cs: seq<Clk>): (r: Machine)
    requires m.Valid()
    ensures r.Valid()
    decreases |cs|
  {
    if cs == [] then m else Run(Clock(m, cs[0]), cs[1..])
  }

  // ---------------------------------------------------------------------------------------------
  // Without gaps
  // ---------------------------------------------------------------------------------------------

  predicate Stuck(k: Engine) { WaitsForByte(k) && k.rx == [] }

  /** A step that nothing holds up, with memories that answer at once. */
  function Fast(k: Engine): Engine {
    if Stuck(k) then k else Stepped(k, CpuRead(k.w, k.addr), PpuRead(k.w, k.addr))
  }

  function FastN(k: Engine, n: nat): Engine
    decreases n
  {
    if n == 0 then k else FastN(Fast(k), n - 1)
  }

  /** In the second clock of a read the memory shows the byte at the address. */
  predicate LatchReady(m: Machine) {
    m.k.executeCnt % 2 == 1 ==>
      (m.k.ctl.CpuRd? ==> m.cpuLatch == CpuCell(m.k.w.cfg, m.k.addr)) &&
      (m.k.ctl.PpuRd? ==> m.ppuLatch == PpuCell(m.k.w.cfg, m.k.addr))
  }

  predicate Reading(k: Engine) { k.ctl.CpuRd? || k.ctl.PpuRd? }

  lemma DecodedCtl(k: Engine, op: Byte)
    requires !Reading(k)
    ensures !Reading(Decoded(k, op))
  {
  }

  lemma HeaderCtl(k: Engine, b: Byte, next: Ctl, perByte: nat)
    requires !Reading(k)
    ensures var h := Header(k, b, next, perByte);
      Reading(h) ==> h.ctl == next && (perByte == 2 ==> h.executeCnt % 2 == 0)
  {
    hide ToWord;
  }

  /** An odd count in a read state is reached only from the even count before it, at the same address. */
  lemma OddAfterEven(k: Engine, b: Byte, cpuData: Byte, ppuData: Byte)
    ensures var a := Advance(k, b, cpuData, ppuData);
      Reading(a) && a.executeCnt % 2 == 1 ==> a.ctl == k.ctl && a.addr == k.addr && a.w == k.w
  {
    hide DebugRead, DebugWrite, CpuCell, PpuCell, ToWord, Decoded, Header;
    match k.ctl {
      case Decode => DecodedCtl(k.(decodeCnt := 0), b);
      case CpuRdHeader => HeaderCtl(k, b, CpuRd, 2);
      case PpuRdHeader => HeaderCtl(k, b, PpuRd, 2);
      case CpuWrHeader => HeaderCtl(k, b, CpuWr, 1);
      case PpuWrHeader => HeaderCtl(k, b, PpuWr, 1);
      case _ =>
    }
  }

  lemma DataUsed(k: Engine, b: Byte, cpuData: Byte, ppuData: Byte, cpuTrue: Byte, ppuTrue: Byte)
    requires k.executeCnt % 2 == 1 ==> (k.ctl.CpuRd? ==> cpuData == cpuTrue) && (k.ctl.PpuRd? ==> ppuData == ppuTrue)
    ensures Advance(k, b, cpuData, ppuData) == Advance(k, b, cpuTrue, ppuTrue)
  {
    hide DebugRead, DebugWrite, CpuCell, PpuCell, ToWord, Decoded, Header, PpuOffStep;
  }

  /** Every clock either changes nothing or takes the step it would take without gaps. */
  lemma ClockIsFast(m: Machine, c: Clk)
    requires m.Valid() && LatchReady(m)
    ensures LatchReady(Clock(m, c))
    ensures Clock(m, c).k == if Moves(m.k, c) then Fast(m.k) else m.k
  {
    hide Advance, CpuCell, PpuCell;
    var w := m.k.w;
    var k, b := if WaitsForByte(m.k) && m.k.rx != [] then m.k.(rx := m.k.rx[1..]) else m.k,
      if WaitsForByte(m.k) && m.k.rx != [] then m.k.rx[0] else 0;
    OddAfterEven(k, b, CpuShown(w, m.cpuLatch, m.k.addr), w.ppu[m.ppuLatch]);
    DataUsed(k, b, CpuShown(w, m.cpuLatch, m.k.addr), w.ppu[m.ppuLatch], CpuRead(w, m.k.addr), PpuRead(w, m.k.addr));
  }

  // ---------------------------------------------------------------------------------------------
  // What a packet means
  // ---------------------------------------------------------------------------------------------

  /** Bytes to consecutive addresses, wrapping at 16 bits. */
  function WriteCpu(w: World, addr: Word, data: seq<Byte>): World
    decreases |data|
  {
    if data == [] then w else WriteCpu(CpuWrite(w, addr, data[0]), Add16(addr, 1), data[1..])
  }

  function WritePpu(w: World, addr: Word, data: seq<Byte>): World
    decreases |data|
  {
    if data == [] then w else WritePpu(PpuWrite(w, addr, data[0]), Add16(addr, 1), data[1..])
  }

  function ReadCpu(w: World, addr: Word, n: nat): (s: seq<Byte>)
    ensures |s| == n
    decreases n
  {
    if n == 0 then [] else [CpuRead(w, addr)] + ReadCpu(w, Add16(addr, 1), n - 1)
  }

  function ReadPpu(w: World, addr: Word, n: nat): (s: seq<Byte>)
    ensures |s| == n
    decreases n
  {
    if n == 0 then [] else [PpuRead(w, addr)] + ReadPpu(w, Add16(addr, 1), n - 1)
  }

  function Effect(w: World, p: Packet): World
    requires p.Valid()
  {
    match p
    case CpuMemWr(addr, data) => WriteCpu(w, addr, data)
    case PpuMemWr(addr, data) => WritePpu(w, addr, data)
    case CpuRegWr(reg, val) => w.(core := DebugWrite(w.core, reg, val))
    case PpuDisable => CpuWrite(CpuWrite(w, 0x2000, 0), 0x2001, 0)
    case CartSetCfg(header) => w.(cfg := header)
    case _ => w
  }

  function Response(w: World, p: Packet): seq<Byte>
    requires p.Valid()
  {
    match p
    case Echo(data) => data
    case CpuMemRd(addr, count) => ReadCpu(w, addr, count)
    case PpuMemRd(addr, count) => ReadPpu(w, addr, count)
    case CpuRegRd(reg) => [DebugRead(w.core, reg)]
    case QueryHlt => [1]
    case _ => []
  }

  /** The host waits for exactly the bytes of the reply. */
  lemma ExpectedIsReply(w: World, p: Packet)
    requires p.Valid()
    ensures var s := Encode(p); (s[0] == 0x00 ==> |s| >= 3) && (s[0] in [0x01, 0x02, 0x09, 0x0A] ==> |s| >= 5)
    ensures ReturnBytesExpected(Encode(p)) == |Response(w, p)|
  {
    hide Hi, Lo, ToWord, DebugRead;
    match p {
      case Echo(data) => Halves(|data|);
      case CpuMemRd(_, count) => Halves(count);
      case PpuMemRd(_, count) => Halves(count);
      case _ =>
    }
  }

  /** How many steps a packet takes. */
  function Work(p: Packet): (n: nat)
    ensures n > 0
  {
    match p
    case Echo(data) => 3 + |data|
    case CpuMemRd(_, count) => 5 + 2 * count
    case PpuMemRd(_, count) => 5 + 2 * count
    case CpuMemWr(_, data) => 5 + |data|
    case PpuMemWr(_, data) => 5 + |data|
    case CpuRegRd(_) => 2
    case CpuRegWr(_, _) => 3
    case PpuDisable => 7
    case CartSetCfg(_) => 7
    case _ => 1
  }

  predicate Between(k: Engine) { k.ctl.Decode? || k.ctl.Disabled? }

  /** n steps, none of them held up for ever, lead from inside a packet to its end and not before. */
  predicate Unbroken(k: Engine, n: nat)
    decreases n
  {
    n > 0 && !Stuck(k) && if n == 1 then Between(Fast(k)) else !Between(Fast(k)) && Unbroken(Fast(k), n - 1)
  }

  /** e is at the end of something that has left world w and added out to the reply. */
  predicate At(k: Engine, e: Engine, ctl: Ctl, w: World, rx: seq<Byte>, out: seq<Byte>) {
    e.ctl == ctl && e.w == w && e.rx == rx && e.out == k.out + out && e.parity == k.parity && e.unknown == k.unknown
  }

  // ---------------------------------------------------------------------------------------------
  // Data bytes
  // ---------------------------------------------------------------------------------------------

  /** One data byte, or the two clocks of one byte read. */
  lemma DataStep(k: Engine)
    requires 0 < k.executeCnt < 0x2_0000 && k.rx != []
    ensures var e, f := k.(executeCnt := k.executeCnt - 1, rx := k.rx[1..]), Fast(k);
      var last := e.(ctl := if k.executeCnt == 1 then Decode else k.ctl);
      (k.ctl.CpuWr? ==> f == last.(w := CpuWrite(k.w, k.addr, k.rx[0]), addr := Add16(k.addr, 1))) &&
      (k.ctl.PpuWr? ==> f == last.(w := PpuWrite(k.w, k.addr, k.rx[0]), addr := Add16(k.addr, 1))) &&
      (k.ctl.EchoData? ==> f == Reply(last, k.rx[0]))
  {
    hide CpuCell, PpuCell, Add16, Decoded, Header, PpuOffStep, DebugRead, DebugWrite;
  }

  lemma ReadStep(k: Engine)
    requires 0 < k.executeCnt < 0x2_0000 && Reading(k)
    ensures var e, f := k.(executeCnt := k.executeCnt - 1), Fast(k);
      f == if k.executeCnt % 2 == 0 then e
           else
             Reply(e.(ctl := if k.executeCnt == 1 then Decode else k.ctl, addr := Add16(k.addr, 1)),
                   if k.ctl.CpuRd? then CpuRead(k.w, k.addr) else PpuRead(k.w, k.addr))
  {
    hide CpuCell, PpuCell, Add16, Decoded, Header, PpuOffStep, DebugRead, DebugWrite;
  }

  lemma {:induction false} CpuWrites(k: Engine, data: seq<Byte>, rest: seq<Byte>)
    requires k.ctl.CpuWr? && 0 < k.executeCnt == |data| < 0x1_0000 && k.rx == data + rest
    ensures Unbroken(k, |data|)
    ensures At(k, FastN(k, |data|), Decode, WriteCpu(k.w, k.addr, data), rest, [])
    decreases |data|
  {
    hide Fast, CpuWrite, Add16;
    DataStep(k);
    assert k.rx[1..] == data[1..] + rest;
    if |data| > 1 {
      CpuWrites(Fast(k), data[1..], rest);
    } else {
      assert data[1..] + rest == rest;
    }
  }

  lemma {:induction false} PpuWrites(k: Engine, data: seq<Byte>, rest: seq<Byte>)
    requires k.ctl.PpuWr? && 0 < k.executeCnt == |data| < 0x1_0000 && k.rx == data + rest
    ensures Unbroken(k, |data|)
    ensures At(k, FastN(k, |data|), Decode, WritePpu(k.w, k.addr, data), rest, [])
    decreases |data|
  {
    hide Fast, PpuWrite, Add16;
    DataStep(k);
    assert k.rx[1..] == data[1..] + rest;
    if |data| > 1 {
      PpuWrites(Fast(k), data[1..], rest);
    } else {
      assert data[1..] + rest == rest;
    }
  }

  lemma {:induction false} Echoes(k: Engine, data: seq<Byte>, rest: seq<Byte>)
    requires k.ctl.EchoData? && 0 < k.executeCnt == |data| < 0x1_0000 && k.rx == data + rest
    ensures Unbroken(k, |data|)
    ensures At(k, FastN(k, |data|), Decode, k.w, rest, data)
    decreases |data|
  {
    hide Fast;
    DataStep(k);
    assert k.rx[1..] == data[1..] + rest;
    assert data == [data[0]] + data[1..];
    if |data| > 1 {
      Echoes(Fast(k), data[1..], rest);
      assert k.out + [data[0]] + data[1..] == k.out + data;
    } else {
      assert data[1..] + rest == rest;
    }
  }

  lemma {:induction false} CpuReads(k: Engine, n: nat)
    requires k.ctl.CpuRd? && 0 < n < 0x1_0000 && k.executeCnt == 2 * n
    ensures Unbroken(k, 2 * n)
    ensures At(k, FastN(k, 2 * n), Decode, k.w, k.rx, ReadCpu(k.w, k.addr, n))
    decreases n
  {
    hide Fast, Add16, CpuRead;
    ReadStep(k);
    ReadStep(Fast(k));
    if n > 1 {
      CpuReads(Fast(Fast(k)), n - 1);
    }
  }

  lemma {:induction false} PpuReads(k: Engine, n: nat)
    requires k.ctl.PpuRd? && 0 < n < 0x1_0000 && k.executeCnt == 2 * n
    ensures Unbroken(k, 2 * n)
    ensures At(k, FastN(k, 2 * n), Decode, k.w, k.rx, ReadPpu(k.w, k.addr, n))
    decreases n
  {
    hide Fast, Add16, PpuRead;
    ReadStep(k);
    ReadStep(Fast(k));
    if n > 1 {
      PpuReads(Fast(Fast(k)), n - 1);
    }
  }

  // ---------------------------------------------------------------------------------------------
  // Opcodes and headers
  // ---------------------------------------------------------------------------------------------

  /** n steps inside a packet. */
  predicate Onward(k: Engine, n: nat)
    decreases n
  {
    n == 0 || (!Stuck(k) && !Between(Fast(k)) && Onward(Fast(k), n - 1))
  }

  lemma {:induction false} OnwardThen(k: Engine, m: nat, n: nat)
    requires Onward(k, m) && n > 0 && Unbroken(FastN(k, m), n)
    ensures Unbroken(k, m + n) && FastN(k, m + n) == FastN(FastN(k, m), n)
    decreases m
  {
    hide Fast;
    if m == 0 {
    } else {
      OnwardThen(Fast(k), m - 1, n);
    }
  }

  lemma OpcodeStep(k: Engine)
    requires k.ctl.Decode? && k.rx != []
    ensures Fast(k) == Decoded(k.(decodeCnt := 0, rx := k.rx[1..]), k.rx[0])
  {
    hide Decoded, CpuCell, PpuCell;
  }

  predicate MemoryHeader(c: Ctl) { c.CpuRdHeader? || c.CpuWrHeader? || c.PpuRdHeader? || c.PpuWrHeader? }

  function Body(c: Ctl): Ctl
    requires MemoryHeader(c)
  {
    match c
    case CpuRdHeader => CpuRd
    case CpuWrHeader => CpuWr
    case PpuRdHeader => PpuRd
    case _ => PpuWr
  }

  function PerByte(c: Ctl): nat { if c.CpuRdHeader? || c.PpuRdHeader? then 2 else 1 }

  lemma HeaderStep(k: Engine)
    requires MemoryHeader(k.ctl) && k.rx != []
    ensures !Stuck(k) && Fast(k) == Header(k.(rx := k.rx[1..]), k.rx[0], Body(k.ctl), PerByte(k.ctl))
  {
    hide Header, CpuCell, PpuCell;
  }

  /** The engine at the end of a header. */
  function Opened(k: Engine, addr: Word, count: Word, rest: seq<Byte>): Engine
    requires MemoryHeader(k.ctl)
  {
    k.(decodeCnt := 4, addr := addr, executeCnt := PerByte(k.ctl) * count, rx := rest,
       ctl := if count > 0 then Body(k.ctl) else Decode)
  }

  /** The wire one byte at a time. */
  lemma FourBytes(s: seq<Byte>, addr: Word, count: Word, rest: seq<Byte>)
    requires s == Pair(addr) + Pair(count) + rest
    ensures |s| >= 4 && s[0] == Lo(addr) && s[1..][0] == Hi(addr) && s[1..][1..][0] == Lo(count) &&
      s[1..][1..][1..][0] == Hi(count) && s[1..][1..][1..][1..] == rest
  {
    hide Hi, Lo;
  }

  lemma HeaderAddress(k: Engine, addr: Word)
    requires MemoryHeader(k.ctl) && k.decodeCnt == 0 && |k.rx| >= 2 && k.rx[0] == Lo(addr) && k.rx[1..][0] == Hi(addr)
    ensures Fast(Fast(k)) == k.(decodeCnt := 2, addr := addr, rx := k.rx[1..][1..])
    ensures !Stuck(k) && !Stuck(Fast(k)) && Fast(k).ctl == k.ctl
  {
    hide Fast, Hi, Lo, ToWord, Stuck;
    Halves(addr);
    LowBytes(addr, 0);
    HeaderStep(k);
    HeaderStep(Fast(k));
  }

  lemma HeaderCount(k: Engine, count: Word)
    requires MemoryHeader(k.ctl) && k.decodeCnt == 2 && |k.rx| >= 2 && k.rx[0] == Lo(count) && k.rx[1..][0] == Hi(count)
    ensures Fast(Fast(k)) == Opened(k, k.addr, count, k.rx[1..][1..])
    ensures !Stuck(k) && !Stuck(Fast(k)) && Fast(k).ctl == k.ctl
  {
    hide Fast, Hi, Lo, ToWord, Stuck;
    Halves(count);
    LowBytes(0, count);
    HeaderStep(k);
    HeaderStep(Fast(k));
  }

  lemma HeaderRun(k: Engine, addr: Word, count: Word, rest: seq<Byte>)
    requires MemoryHeader(k.ctl) && k.decodeCnt == 0 && k.rx == Pair(addr) + Pair(count) + rest
    ensures FastN(k, 4) == Opened(k, addr, count, rest)
    ensures if count > 0 then Onward(k, 4) else Unbroken(k, 4)
  {
    hide Fast, Hi, Lo, Stuck, Pair, FastN, Onward, Unbroken;
    FourBytes(k.rx, addr, count, rest);
    HeaderAddress(k, addr);
    HeaderCount(Fast(Fast(k)), count);
    FourSteps(k);
  }

  lemma LowBytes(addr: Word, count: Word)
    ensures Lo(Lo(addr)) == Lo(addr) && Lo(count) % 0x100 == Lo(count)
  {
  }

  lemma FourSteps(k: Engine)
    requires var k1 := Fast(k); var k2 := Fast(k1); var k3 := Fast(k2);
      !Stuck(k) && !Stuck(k1) && !Stuck(k2) && !Stuck(k3) && !Between(k1) && !Between(k2) && !Between(k3)
    ensures var k4 := Fast(Fast(Fast(Fast(k))));
      FastN(k, 4) == k4 && if Between(k4) then Unbroken(k, 4) else Onward(k, 4)
  {
    hide Fast, Stuck;
    var k3 := Fast(Fast(Fast(k)));
    assert FastN(k3, 1) == FastN(Fast(k3), 0);
    assert FastN(Fast(Fast(k)), 2) == FastN(k3, 1);
    assert FastN(Fast(k), 3) == FastN(Fast(Fast(k)), 2);
    if Between(Fast(k3)) {
      assert Unbroken(k3, 1);
    } else {
      assert Onward(Fast(k3), 0) && Onward(k3, 1);
    }
  }

  // ---------------------------------------------------------------------------------------------
  // Packets
  // ---------------------------------------------------------------------------------------------

  /** The end of packet p: back to decoding, or disabled after a run packet. */
  predicate Served(k: Engine, e: Engine, p: Packet, rest: seq<Byte>)
    requires p.Valid()
  {
    At(k, e, if p.DbgRun? then Disabled else Decode, Effect(k.w, p), rest, Response(k.w, p))
  }

  predicate MemoryAccess(p: Packet) { p.CpuMemRd? || p.CpuMemWr? || p.PpuMemRd? || p.PpuMemWr? }

  function CountOf(p: Packet): Word
    requires p.Valid() && MemoryAccess(p)
  {
    if p.CpuMemRd? || p.PpuMemRd? then p.count else |p.data|
  }

  function DataOf(p: Packet): seq<Byte>
    requires MemoryAccess(p)
  {
    if p.CpuMemRd? || p.PpuMemRd? then [] else p.data
  }

  /** The engine after the opcode. */
  function Chosen(k: Engine, p: Packet, rx: seq<Byte>): Engine
    requires MemoryAccess(p)
  {
    k.(decodeCnt := 0, rx := rx,
       ctl := match p
         case CpuMemRd(_, _) => CpuRdHeader
         case CpuMemWr(_, _) => CpuWrHeader
         case PpuMemRd(_, _) => PpuRdHeader
         case _ => PpuWrHeader)
  }

  /** What the wire carries after the opcode. */
  lemma MemoryBytes(p: Packet, rest: seq<Byte>)
    requires p.Valid() && MemoryAccess(p)
    ensures var s := Encode(p) + rest;
      s[1..] == Pair(p.addr) + Pair(CountOf(p)) + (DataOf(p) + rest) &&
      s[0] == if p.CpuMemRd? then 0x01 else if p.CpuMemWr? then 0x02 else if p.PpuMemRd? then 0x09 else 0x0A
  {
    hide Hi, Lo;
    var s := Encode(p);
    assert s[1..] == Pair(p.addr) + Pair(CountOf(p)) + DataOf(p);
    assert (s + rest)[1..] == s[1..] + rest;
  }

  lemma MemoryOpcode(k: Engine, p: Packet, rest: seq<Byte>)
    requires p.Valid() && MemoryAccess(p) && k.ctl.Decode? && k.rx == Encode(p) + rest
    ensures Fast(k) == Chosen(k, p, Pair(p.addr) + Pair(CountOf(p)) + (DataOf(p) + rest)) && Onward(k, 1) && FastN(k, 1) == Fast(k)
  {
    hide Fast, Pair, FastN, Onward, Encode, CountOf, DataOf;
    OpcodeStep(k);
    MemoryBytes(p, rest);
    OneStep(k);
  }

  lemma MemoryPacket(k: Engine, p: Packet, rest: seq<Byte>)
    requires p.Valid() && MemoryAccess(p) && k.ctl.Decode? && k.rx == Encode(p) + rest
    ensures Unbroken(k, Work(p)) && Served(k, FastN(k, Work(p)), p, rest)
  {
    hide Fast, Unbroken, Onward, FastN, WriteCpu, WritePpu, ReadCpu, ReadPpu, Pair, Encode;
    var count, k1 := CountOf(p), Fast(k);
    MemoryOpcode(k, p, rest);
    HeaderRun(k1, p.addr, count, DataOf(p) + rest);
    var k5 := FastN(k1, 4);
    if count == 0 {
      OnwardThen(k, 1, 4);
      NothingToDo(k.w, p.addr);
      assert DataOf(p) + rest == rest;
    } else {
      var n := Work(p) - 5;
      assert [] + rest == rest;
      if p.CpuMemRd? {
        CpuReads(k5, count);
      } else if p.PpuMemRd? {
        PpuReads(k5, count);
      } else if p.CpuMemWr? {
        CpuWrites(k5, p.data, rest);
      } else {
        PpuWrites(k5, p.data, rest);
      }
      OnwardThen(k1, 4, n);
      OnwardThen(k, 1, 4 + n);
    }
  }

  lemma NothingToDo(w: World, addr: Word)
    ensures WriteCpu(w, addr, []) == w && WritePpu(w, addr, []) == w && ReadCpu(w, addr, 0) == [] && ReadPpu(w, addr, 0) == []
  {
  }

  lemma OneStep(k: Engine)
    ensures FastN(k, 1) == Fast(k) && (!Stuck(k) && !Between(Fast(k)) ==> Onward(k, 1))
    ensures !Stuck(k) && Between(Fast(k)) ==> Unbroken(k, 1)
  {
    hide Fast, Stuck;
    assert FastN(Fast(k), 0) == Fast(k);
    assert Onward(Fast(k), 0);
  }

  lemma EchoStep(k: Engine)
    requires k.ctl.EchoHeader? && k.rx != []
    ensures var e, b := k.(rx := k.rx[1..]), k.rx[0];
      Fast(k) == if k.decodeCnt == 0 then e.(decodeCnt := 1, executeCnt := b)
        else
          var count := ToWord(b, k.executeCnt % 0x100);
          e.(decodeCnt := (k.decodeCnt + 1) % 8, executeCnt := count, ctl := if count > 0 then EchoData else Decode)
  {
    hide Decoded, Header, PpuOffStep, CpuCell, PpuCell, ToWord;
  }

  lemma ThreeBytes(s: seq<Byte>, data: seq<Byte>, rest: seq<Byte>)
    requires |data| < 0x1_0000 && s == Encode(Echo(data)) + rest
    ensures |s| >= 3 && s[0] == 0x00 && s[1..][0] == Lo(|data|) && s[1..][1..][0] == Hi(|data|) &&
      s[1..][1..][1..] == data + rest
  {
    hide Hi, Lo;
  }

  lemma EchoOpens(k: Engine, data: seq<Byte>, rest: seq<Byte>)
    requires |data| < 0x1_0000 && k.ctl.Decode? && k.rx == Encode(Echo(data)) + rest
    ensures var e := FastN(k, 3);
      e.rx == data + rest && e.executeCnt == |data| && e.ctl == (if |data| > 0 then EchoData else Decode) &&
      At(k, e, e.ctl, k.w, data + rest, []) && if |data| > 0 then Onward(k, 3) else Unbroken(k, 3)
  {
    hide Fast, Hi, Lo, ToWord, Stuck, Encode, FastN, Onward, Unbroken;
    var n: Word := |data|;
    Halves(n);
    LowBytes(n, n);
    ThreeBytes(k.rx, data, rest);
    OpcodeStep(k);
    var k1 := Fast(k);
    EchoStep(k1);
    var k2 := Fast(k1);
    EchoStep(k2);
    Fed(k);
    Fed(k1);
    Fed(k2);
    ThreeSteps(k);
  }

  lemma Fed(k: Engine)
    requires k.rx != []
    ensures !Stuck(k)
  {
  }

  lemma ThreeSteps(k: Engine)
    requires var k1 := Fast(k); var k2 := Fast(k1);
      !Stuck(k) && !Stuck(k1) && !Stuck(k2) && !Between(k1) && !Between(k2)
    ensures var k3 := Fast(Fast(Fast(k))); FastN(k, 3) == k3 && if Between(k3) then Unbroken(k, 3) else Onward(k, 3)
  {
    hide Fast, Stuck;
    var k2 := Fast(Fast(k));
    assert FastN(k2, 1) == FastN(Fast(k2), 0);
    assert FastN(Fast(k), 2) == FastN(k2, 1);
    if Between(Fast(k2)) {
      assert Unbroken(k2, 1);
    } else {
      assert Onward(Fast(k2), 0) && Onward(k2, 1);
    }
  }

  lemma EchoPacket(k: Engine, p: Packet, rest: seq<Byte>)
    requires p.Valid() && p.Echo? && k.ctl.Decode? && k.rx == Encode(p) + rest
    ensures Unbroken(k, Work(p)) && Served(k, FastN(k, Work(p)), p, rest)
  {
    hide Fast, Unbroken, Onward, FastN, Encode;
    EchoOpens(k, p.data, rest);
    if |p.data| == 0 {
      assert p.data + rest == rest;
    } else {
      Echoes(FastN(k, 3), p.data, rest);
      OnwardThen(k, 3, |p.data|);
    }
  }

  lemma RegisterStep(k: Engine)
    requires k.rx != []
    ensures var e, b, f := k.(rx := k.rx[1..]), k.rx[0], Fast(k);
      (k.ctl.RegRd? ==> f == Reply(e, DebugRead(k.w.core, b % 16)).(ctl := Decode)) &&
      (k.ctl.RegWrSel? ==> f == e.(addr := b, ctl := RegWr)) &&
      (k.ctl.RegWr? ==> f == e.(w := k.w.(core := DebugWrite(k.w.core, k.addr % 16, b)), ctl := Decode))
  {
    hide Decoded, Header, PpuOffStep, CpuCell, PpuCell, DebugRead, DebugWrite;
  }

  lemma RegisterPacket(k: Engine, p: Packet, rest: seq<Byte>)
    requires p.Valid() && (p.CpuRegRd? || p.CpuRegWr?) && k.ctl.Decode? && k.rx == Encode(p) + rest
    ensures Unbroken(k, Work(p)) && Served(k, FastN(k, Work(p)), p, rest)
  {
    hide Fast, Unbroken, Onward, FastN, DebugRead, DebugWrite;
    OpcodeStep(k);
    assert k.rx[1..] == Encode(p)[1..] + rest;
    OneStep(k);
    var k1 := Fast(k);
    RegisterStep(k1);
    OneStep(k1);
    assert k1.rx[1..] == Encode(p)[2..] + rest;
    if p.CpuRegRd? {
      assert Fast(k1).rx == rest;
      OnwardThen(k, 1, 1);
    } else {
      var k2 := Fast(k1);
      RegisterStep(k2);
      OneStep(k2);
      assert k2.rx[1..] == rest;
      OnwardThen(k1, 1, 1);
      OnwardThen(k, 1, 2);
    }
  }

  lemma ShortPacket(k: Engine, p: Packet, rest: seq<Byte>)
    requires p.Valid() && (p.DbgHlt? || p.DbgRun? || p.QueryHlt?)
    requires k.ctl.Decode? && k.rx == Encode(p) + rest
    ensures Unbroken(k, Work(p)) && Served(k, FastN(k, Work(p)), p, rest)
  {
    hide Fast, Unbroken, FastN;
    OpcodeStep(k);
    OneStep(k);
    assert k.rx[1..] == rest;
  }

  lemma OffStep(k: Engine)
    requires k.ctl.PpuOff?
    ensures !Stuck(k) && Fast(k) == PpuOffStep(k)
  {
    hide Decoded, Header, PpuOffStep, CpuCell, PpuCell;
  }

  lemma {:induction false} PpuOffRun(k: Engine, n: nat)
    requires k.ctl.PpuOff? && k.decodeCnt + n == 6 && n > 0
    requires k.decodeCnt == 1 ==> k.addr == 0x2000
    requires k.decodeCnt == 3 ==> k.addr == 0x2001
    ensures Unbroken(k, n)
    ensures At(k, FastN(k, n), Decode,
               if n >= 5 then CpuWrite(CpuWrite(k.w, 0x2000, 0), 0x2001, 0)
               else if n >= 3 then CpuWrite(k.w, 0x2001, 0) else k.w, k.rx, [])
    decreases n
  {
    hide CpuWrite, Fast, Stuck;
    OffStep(k);
    if n > 1 {
      PpuOffRun(Fast(k), n - 1);
    }
  }

  lemma CfgStep(k: Engine)
    ensures k.ctl.CfgBegin? ==> Fast(k) == k.(executeCnt := 4, ctl := Cfg)
    ensures k.ctl.Cfg? && k.rx != [] ==>
      Fast(k) == k.(rx := k.rx[1..], w := k.w.(cfg := k.w.cfg[1..] + [k.rx[0]]),
                    executeCnt := (k.executeCnt - 1) % 0x2_0000, ctl := if k.executeCnt == 0 then Decode else Cfg)
  {
    hide Decoded, Header, PpuOffStep, CpuCell, PpuCell, DebugRead, DebugWrite;
  }

  lemma {:induction false} CfgRun(k: Engine, data: seq<Byte>, rest: seq<Byte>)
    requires k.ctl.Cfg? && k.executeCnt == |data| - 1 && 0 < |data| <= 5 && k.rx == data + rest
    ensures Unbroken(k, |data|)
    ensures At(k, FastN(k, |data|), Decode, k.w.(cfg := k.w.cfg[|data|..] + data), rest, [])
    decreases |data|
  {
    hide Fast;
    CfgStep(k);
    assert k.rx[1..] == data[1..] + rest;
    if |data| > 1 {
      CfgRun(Fast(k), data[1..], rest);
      assert (k.w.cfg[1..] + [data[0]])[|data| - 1..] + data[1..] == k.w.cfg[|data|..] + data;
    } else {
      assert data[1..] + rest == rest && data == [data[0]];
    }
  }

  lemma SetupPacket(k: Engine, p: Packet, rest: seq<Byte>)
    requires p.Valid() && (p.PpuDisable? || p.CartSetCfg?) && k.ctl.Decode? && k.rx == Encode(p) + rest
    ensures Unbroken(k, Work(p)) && Served(k, FastN(k, Work(p)), p, rest)
  {
    hide Fast, Unbroken, Onward, FastN, CpuWrite, PpuWrite;
    var k1 := Fast(k);
    OpcodeStep(k);
    OneStep(k);
    if p.PpuDisable? {
      assert k1.rx == rest;
      PpuOffRun(k1, 6);
      OnwardThen(k, 1, 6);
    } else {
      assert k1.rx == p.header + rest;
      var k2 := Fast(k1);
      CfgStep(k1);
      OneStep(k1);
      CfgRun(k2, p.header, rest);
      assert k.w.cfg[5..] + p.header == p.header;
      OnwardThen(k1, 1, 5);
      OnwardThen(k, 1, 6);
    }
  }

  // ---------------------------------------------------------------------------------------------
  // Main results
  // ---------------------------------------------------------------------------------------------

  /** From decoding, every well-formed packet is consumed to its last byte and not further, has its effect on
      memory, registers or configuration, and is answered; only then is the unit back between packets. */
  lemma PacketServed(k: Engine, p: Packet, rest: seq<Byte>)
    requires p.Valid() && k.ctl.Decode? && k.rx == Encode(p) + rest
    ensures Unbroken(k, Work(p)) && Served(k, FastN(k, Work(p)), p, rest)
  {
    hide Unbroken, FastN, Served, Work, Encode;
    if MemoryAccess(p) {
      MemoryPacket(k, p, rest);
    } else if p.Echo? {
      EchoPacket(k, p, rest);
    } else if p.PpuDisable? || p.CartSetCfg? {
      SetupPacket(k, p, rest);
    } else if p.CpuRegRd? || p.CpuRegWr? {
      RegisterPacket(k, p, rest);
    } else {
      ShortPacket(k, p, rest);
    }
  }

  /** A sequence of packets; a run packet can only be the last, because after it the unit no longer decodes. */
  predicate Session(ps: seq<Packet>) {
    forall i :: 0 <= i < |ps| ==> ps[i].Valid() && (ps[i].DbgRun? ==> i == |ps| - 1)
  }

  function EncodeAll(ps: seq<Packet>): seq<Byte>
    requires Session(ps)
    decreases |ps|
  {
    if ps == [] then [] else Encode(ps[0]) + EncodeAll(ps[1..])
  }

  lemma {:induction false} EncodeAdds(ps: seq<Packet>, qs: seq<Packet>)
    requires Session(ps + qs) && Session(ps) && Session(qs)
    ensures EncodeAll(ps + qs) == EncodeAll(ps) + EncodeAll(qs)
    decreases |ps|
  {
    hide Encode;
    if ps == [] {
      assert ps + qs == qs;
    } else {
      assert (ps + qs)[1..] == ps[1..] + qs;
      forall i | 0 <= i < |ps[1..] + qs|
        ensures (ps[1..] + qs)[i] == (ps + qs)[i + 1]
      {
      }
      EncodeAdds(ps[1..], qs);
    }
  }

  function EffectAll(w: World, ps: seq<Packet>): World
    requires Session(ps)
    decreases |ps|
  {
    if ps == [] then w else EffectAll(Effect(w, ps[0]), ps[1..])
  }

  function ResponseAll(w: World, ps: seq<Packet>): seq<Byte>
    requires Session(ps)
    decreases |ps|
  {
    if ps == [] then [] else Response(w, ps[0]) + ResponseAll(Effect(w, ps[0]), ps[1..])
  }

  function WorkAll(ps: seq<Packet>): nat
    decreases |ps|
  {
    if ps == [] then 0 else Work(ps[0]) + WorkAll(ps[1..])
  }

  predicate EndsRunning(ps: seq<Packet>) { ps != [] && ps[|ps| - 1].DbgRun? }

  lemma {:induction false} FastAdds(k: Engine, m: nat, n: nat)
    ensures FastN(k, m + n) == FastN(FastN(k, m), n)
    decreases m
  {
    hide Fast;
    if m == 0 {
    } else {
      FastAdds(Fast(k), m - 1, n);
    }
  }

  lemma {:induction false} SessionServed(k: Engine, ps: seq<Packet>, rest: seq<Byte>)
    requires Session(ps) && k.ctl.Decode? && k.rx == EncodeAll(ps) + rest
    ensures At(k, FastN(k, WorkAll(ps)), if EndsRunning(ps) then Disabled else Decode, EffectAll(k.w, ps), rest,
               ResponseAll(k.w, ps))
    decreases |ps|
  {
    hide Fast, Work, Encode, Effect, Response;
    if ps == [] {
      assert [] + rest == rest;
    } else {
      var p, more := ps[0], EncodeAll(ps[1..]) + rest;
      assert k.rx == Encode(p) + more;
      PacketServed(k, p, more);
      FastAdds(k, Work(p), WorkAll(ps[1..]));
      if |ps| > 1 {
        SessionServed(FastN(k, Work(p)), ps[1..], rest);
      } else {
        assert more == rest && Response(k.w, p) + [] == Response(k.w, p);
      }
    }
  }

  /** Clocks in which a byte has arrived and there is room. */
  function Open(cs: seq<Clk>): nat
    decreases |cs|
  {
    if cs == [] then 0 else B(cs[0].available && cs[0].room) + Open(cs[1..])
  }

  /** Any run is, at every clock, somewhere on the run without gaps. */
  lemma {:induction false} GapsDoNotMatter(m: Machine, cs: seq<Clk>) returns (n: nat)
    requires m.Valid() && LatchReady(m)
    ensures n <= |cs| && Run(m, cs).k == FastN(m.k, n)
    decreases |cs|
  {
    hide Fast, Clock, LatchReady, Moves;
    if cs == [] {
      n := 0;
    } else {
      ClockIsFast(m, cs[0]);
      n := GapsDoNotMatter(Clock(m, cs[0]), cs[1..]);
      if Moves(m.k, cs[0]) {
        n := n + 1;
      }
    }
  }

  /** Enough clocks with a byte and room bring it to where it waits for more bytes. */
  lemma {:induction false} RunCompletes(m: Machine, cs: seq<Clk>, n: nat)
    requires m.Valid() && LatchReady(m) && Stuck(FastN(m.k, n)) && Open(cs) >= n
    ensures Run(m, cs).k == FastN(m.k, n)
    decreases |cs|
  {
    hide Clock, LatchReady, WaitsForByte, WaitsForRoom, Stepped;
    if cs == [] {
    } else {
      var m' := Clock(m, cs[0]);
      ClockIsFast(m, cs[0]);
      if n > 0 && Moves(m.k, cs[0]) {
        RunCompletes(m', cs[1..], n - 1);
      } else if n > 0 && Stuck(m.k) {
        StaysStuck(m.k, n);
        RunCompletes(m', cs[1..], 0);
      } else {
        RunCompletes(m', cs[1..], n);
      }
    }
  }

  lemma {:induction false} StaysStuck(k: Engine, n: nat)
    requires Stuck(k)
    ensures FastN(k, n) == k
    decreases n
  {
    if n == 0 {
    } else {
      StaysStuck(k, n - 1);
    }
  }

  /** A halt packet brings the unit of a running CPU to where the packets behind it are decoded. */
  lemma HaltStep(k: Engine, ps: seq<Packet>)
    requires Session(ps) && ps != [] && ps[0].DbgHlt? && k.ctl.Disabled? && k.rx == EncodeAll(ps)
    ensures var qs := ps[1..];
      Session(qs) && (EndsRunning(ps) <==> EndsRunning(qs)) && WorkAll(ps) == 1 + WorkAll(qs) &&
      Fast(k) == k.(ctl := Decode, rx := EncodeAll(qs)) &&
      EffectAll(k.w, ps) == EffectAll(k.w, qs) && ResponseAll(k.w, ps) == ResponseAll(k.w, qs)
  {
    assert EncodeAll(ps)[1..] == EncodeAll(ps[1..]);
    assert [] + ResponseAll(k.w, ps[1..]) == ResponseAll(k.w, ps[1..]);
  }

  /** Framing end to end: from decoding, for any sequence of packets and any gaps, once there have been enough
      clocks with a byte and room the unit has consumed exactly the packets, is between packets, and memory,
      registers, configuration and replies are what the packets mean one after the other. */
  lemma SessionCompletes(m: Machine, ps: seq<Packet>, cs: seq<Clk>)
    requires m.Valid() && Session(ps) && m.k.ctl.Decode? && m.k.rx == EncodeAll(ps) && Open(cs) >= WorkAll(ps)
    ensures At(m.k, Run(m, cs).k, if EndsRunning(ps) then Disabled else Decode, EffectAll(m.k.w, ps), [],
               ResponseAll(m.k.w, ps))
  {
    hide FastN, Fast, WorkAll, Open, Run, EffectAll, ResponseAll, EncodeAll;
    assert EncodeAll(ps) + [] == EncodeAll(ps);
    SessionServed(m.k, ps, []);
    RunCompletes(m, cs, WorkAll(ps));
  }
}
