/** The debug unit on the FPGA side of the link: a state machine that takes packet bytes and reads and writes
    CPU memory, PPU memory, CPU registers and the cartridge configuration. */
module Hci {
  import opened Bytes
  import opened CpuCore
  import opened DebugPort

  datatype Ctl =
    | Disabled | Decode | EchoHeader | EchoData | CpuRdHeader | CpuRd | CpuWrHeader | CpuWr | RegRd | RegWrSel | RegWr
    | QueryErr | PpuRdHeader | PpuRd | PpuWrHeader | PpuWr | PpuOff | CfgBegin | Cfg

  type CpuCells = m: seq<Byte> | |m| == 0x1_0000 witness seq(0x1_0000, _ => 0)

  type PpuCells = m: seq<Byte> | |m| == 0x4000 witness seq(0x4000, _ => 0)

  type Config = c: seq<Byte> | |c| == 5 witness seq(5, _ => 0)

  /** What the unit reads and writes.  Memory is kept as the cells behind the addresses. */
  datatype World = World(cpu: CpuCells, ppu: PpuCells, core: Core, cfg: Config)

  // ---------------------------------------------------------------------------------------------
  // Address maps
  // ---------------------------------------------------------------------------------------------

  /** Nothing is selected at these addresses: reads give zero and writes are lost. */
  predicate Unmapped(a: Word) { 0x4000 <= a < 0x8000 }

  /** Program memory is 32 KB if bit 1 of the bank count is set, else 16 KB that appear twice; work memory is
      2 KB that appear four times.  Other addresses stand for themselves. */
  function CpuCell(cfg: Config, a: Word): Word {
    if a >= 0x8000 then (if Bit(cfg[0], 1) then a else 0x8000 + a % 0x4000)
    else if a < 0x2000 then a % 0x800
    else a
  }

  /** Pattern memory is 8 KB; above it are 2 KB of name tables, mirrored vertically if bit 0 of the control
      byte is set and horizontally otherwise. */
  function PpuCell(cfg: Config, a: Word): (c: nat)
    ensures c < 0x4000
  {
    var b := a % 0x4000;
    if b < 0x2000 then b
    else 0x2000 + (if Bit(cfg[2], 0) then b / 0x400 % 2 else b / 0x800 % 2) * 0x400 + b % 0x400
  }

  /** What the CPU data bus shows with address now on it if the memories have latched the cell of an earlier
      clock. */
  function CpuShown(w: World, latch: Word, now: Word): Byte { if Unmapped(now) then 0 else w.cpu[latch] }

  function CpuRead(w: World, a: Word): Byte { CpuShown(w, CpuCell(w.cfg, a), a) }

  function PpuRead(w: World, a: Word): Byte { w.ppu[PpuCell(w.cfg, a)] }

  function CpuWrite(w: World, a: Word, b: Byte): World {
    if Unmapped(a) then w else w.(cpu := w.cpu[CpuCell(w.cfg, a) := b])
  }

  function PpuWrite(w: World, a: Word, b: Byte): World { w.(ppu := w.ppu[PpuCell(w.cfg, a) := b]) }

  // ---------------------------------------------------------------------------------------------
  // The state machine
  // ---------------------------------------------------------------------------------------------

  /** rx is everything still to come from the host; out is everything handed to the transmit buffer. */
  datatype Engine = Engine(ctl: Ctl, decodeCnt: nat, executeCnt: nat, addr: Word, parity: bool, unknown: bool,
                           w: World, rx: seq<Byte>, out: seq<Byte>)

  /** States that wait for a byte, and states that wait for room in the transmit buffer. */
  predicate WaitsForByte(k: Engine) {
    match k.ctl
    case CpuRd | PpuRd | QueryErr | PpuOff | CfgBegin => false
    case _ => true
  }

  predicate WaitsForRoom(k: Engine) {
    match k.ctl
    case CpuRd | PpuRd => k.executeCnt % 2 == 1
    case RegRd | QueryErr => true
    case _ => false
  }

  function Reply(k: Engine, b: Byte): Engine { k.(out := k.out + [b]) }

  /** An opcode in the active state. */
  function Decoded(k: Engine, op: Byte): Engine {
    match op
    case 0x00 => k.(ctl := EchoHeader)
    case 0x01 => k.(ctl := CpuRdHeader)
    case 0x02 => k.(ctl := CpuWrHeader)
    case 0x03 => k
    case 0x04 => k.(ctl := Disabled)
    case 0x05 => k.(ctl := RegRd)
    case 0x06 => k.(ctl := RegWrSel)
    case 0x07 => Reply(k, 1)
    case 0x08 => k.(ctl := QueryErr)
    case 0x09 => k.(ctl := PpuRdHeader)
    case 0x0A => k.(ctl := PpuWrHeader)
    case 0x0B => k.(ctl := PpuOff)
    case 0x0C => k.(ctl := CfgBegin)
    case _ => k.(unknown := true)
  }

  /** A header byte: address low and high, then count low and high.  Reads count two clocks for a byte. */
  function Header(k: Engine, b: Byte, next: Ctl, perByte: nat): Engine {
    var d := k.(decodeCnt := (k.decodeCnt + 1) % 8);
    match k.decodeCnt
    case 0 => d.(addr := b)
    case 1 => d.(addr := ToWord(b, Lo(k.addr)))
    case 2 => d.(executeCnt := b)
    case _ =>
      var count := perByte * ToWord(b, k.executeCnt % 0x100);
      d.(executeCnt := count, ctl := if count > 0 then next else Decode)
  }

  /** The last of executeCnt steps returns to decoding. */
  function CountDown(k: Engine): Engine {
    var left := (k.executeCnt - 1) % 0x2_0000;
    k.(executeCnt := left, ctl := if left == 0 then Decode else k.ctl)
  }

  /** Clearing the two PPU control registers takes the address bus to each and away again. */
  function PpuOffStep(k: Engine): Engine {
    var d := k.(decodeCnt := (k.decodeCnt + 1) % 8);
    match k.decodeCnt
    case 0 => d.(addr := 0x2000)
    case 1 => d.(addr := 0, w := CpuWrite(k.w, k.addr, 0))
    case 2 => d.(addr := 0x2001)
    case 3 => d.(addr := 0, w := CpuWrite(k.w, k.addr, 0))
    case 4 => d.(addr := 0x2002)
    case 5 => d.(addr := 0, ctl := Decode)
    case _ => d
  }

  /** A step that is not held up.  b is the byte from the host, cpuData and ppuData what the memories show. */
  function Advance(k: Engine, b: Byte, cpuData: Byte, ppuData: Byte): Engine {
    match k.ctl
    case Disabled =>
      if b == 0x03 then k.(ctl := Decode) else if b == 0x07 then Reply(k, 0) else k
    case Decode => Decoded(k.(decodeCnt := 0), b)
    case EchoHeader =>
      if k.decodeCnt == 0 then k.(decodeCnt := 1, executeCnt := b)
      else
        var count := ToWord(b, k.executeCnt % 0x100);
        k.(decodeCnt := (k.decodeCnt + 1) % 8, executeCnt := count, ctl := if count > 0 then EchoData else Decode)
    case EchoData => Reply(CountDown(k), b)
    case CpuRdHeader => Header(k, b, CpuRd, 2)
    case PpuRdHeader => Header(k, b, PpuRd, 2)
    case CpuWrHeader => Header(k, b, CpuWr, 1)
    case PpuWrHeader => Header(k, b, PpuWr, 1)
    case CpuRd =>
      if k.executeCnt % 2 == 0 then k.(executeCnt := (k.executeCnt - 1) % 0x2_0000)
      else Reply(CountDown(k), cpuData).(addr := Add16(k.addr, 1))
    case PpuRd =>
      if k.executeCnt % 2 == 0 then k.(executeCnt := (k.executeCnt - 1) % 0x2_0000)
      else Reply(CountDown(k), ppuData).(addr := Add16(k.addr, 1))
    case CpuWr => CountDown(k).(w := CpuWrite(k.w, k.addr, b), addr := Add16(k.addr, 1))
    case PpuWr => CountDown(k).(w := PpuWrite(k.w, k.addr, b), addr := Add16(k.addr, 1))
    case RegRd => Reply(k, DebugRead(k.w.core, b % 16)).(ctl := Decode)
    case RegWrSel => k.(addr := b, ctl := RegWr)
    case RegWr => k.(w := k.w.(core := DebugWrite(k.w.core, k.addr % 16, b)), ctl := Decode)
    case QueryErr => Reply(k, B(k.parity) + 2 * B(k.unknown)).(ctl := Decode)
    case PpuOff => PpuOffStep(k)
    case CfgBegin => k.(executeCnt := 4, ctl := Cfg)
    case Cfg =>
      k.(w := k.w.(cfg := k.w.cfg[1..] + [b]), executeCnt := (k.executeCnt - 1) % 0x2_0000,
         ctl := if k.executeCnt == 0 then Decode else Cfg)
  }
}
