/** The packets the host sends over the debug link, and the buffers it builds them in. */
module Packets {
  import opened Bytes

  datatype Packet =
    | Echo(data: seq<Byte>)
    | CpuMemRd(addr: Word, count: Word)
    | CpuMemWr(addr: Word, data: seq<Byte>)
    | DbgHlt
    | DbgRun
    | CpuRegRd(reg: Byte)
    | CpuRegWr(reg: Byte, val: Byte)
    | QueryHlt
    | PpuMemRd(addr: Word, count: Word)
    | PpuMemWr(addr: Word, data: seq<Byte>)
    | PpuDisable
    | CartSetCfg(header: seq<Byte>)
  {
    /** Lengths fit the 16 bits the packet has for them; the header is five bytes of the iNES header; register
        numbers are those the host has names for. */
    predicate Valid() {
      match this
      case Echo(data) => |data| < 0x1_0000
      case CpuMemWr(_, data) => |data| < 0x1_0000
      case PpuMemWr(_, data) => |data| < 0x1_0000
      case CartSetCfg(header) => |header| == 5
      case CpuRegRd(reg) => reg <= 6
      case CpuRegWr(reg, _) => reg <= 6
      case _ => true
    }
  }

  /** Packets that only ask; all others are not answered. */
  predicate Asks(p: Packet) { p.Echo? || p.CpuMemRd? || p.PpuMemRd? || p.CpuRegRd? || p.QueryHlt? }

  function Pair(w: Word): seq<Byte> { [Lo(w), Hi(w)] }

  /** The bytes on the wire. */
  function Encode(p: Packet): (s: seq<Byte>)
    requires p.Valid()
    ensures |s| > 0
  {
    match p
    case Echo(data) => [0x00] + Pair(|data|) + data
    case CpuMemRd(addr, count) => [0x01] + Pair(addr) + Pair(count)
    case CpuMemWr(addr, data) => [0x02] + Pair(addr) + Pair(|data|) + data
    case DbgHlt => [0x03]
    case DbgRun => [0x04]
    case CpuRegRd(reg) => [0x05, reg]
    case CpuRegWr(reg, val) => [0x06, reg, val]
    case QueryHlt => [0x07]
    case PpuMemRd(addr, count) => [0x09] + Pair(addr) + Pair(count)
    case PpuMemWr(addr, data) => [0x0A] + Pair(addr) + Pair(|data|) + data
    case PpuDisable => [0x0B]
    case CartSetCfg(header) => [0x0C] + header
  }

  /** The little-endian 16-bit number at k. */
  function WordAt(s: seq<Byte>, k: nat): Word
    requires k + 1 < |s|
  {
    ToWord(s[k + 1], s[k])
  }

  /** What the host computes from a packet's own bytes: how many to send. */
  function SizeInBytes(s: seq<Byte>): nat
    requires |s| > 0 && (s[0] == 0x00 ==> |s| >= 3) && (s[0] in [0x01, 0x02, 0x09, 0x0A] ==> |s| >= 5)
  {
    match s[0]
    case 0x00 => 3 + WordAt(s, 1)
    case 0x01 | 0x09 => 5
    case 0x02 | 0x0A => 5 + WordAt(s, 3)
    case 0x05 => 2
    case 0x06 => 3
    case 0x0C => 6
    case _ => 1
  }

  /** How many bytes the host then waits for. */
  function ReturnBytesExpected(s: seq<Byte>): nat
    requires |s| > 0 && (s[0] == 0x00 ==> |s| >= 3) && (s[0] in [0x01, 0x02, 0x09, 0x0A] ==> |s| >= 5)
  {
    match s[0]
    case 0x00 => WordAt(s, 1)
    case 0x01 | 0x09 => WordAt(s, 3)
    case 0x05 | 0x07 => 1
    case _ => 0
  }

  /** The host sends exactly the bytes of the packet. */
  lemma SizeIsLength(p: Packet)
    requires p.Valid()
    ensures var s := Encode(p); (s[0] == 0x00 ==> |s| >= 3) && (s[0] in [0x01, 0x02, 0x09, 0x0A] ==> |s| >= 5)
    ensures SizeInBytes(Encode(p)) == |Encode(p)|
  {
    hide Hi, Lo, ToWord;
    if p.Echo? || p.CpuMemWr? || p.PpuMemWr? {
      Halves(|p.data|);
    }
  }

  // ---------------------------------------------------------------------------------------------
  // The constructors that fill a buffer
  // ---------------------------------------------------------------------------------------------

  /** A memory write packet; opcode tells CPU from PPU memory. */
  method BuildMemWr(opcode: Byte, addr: Word, data: array<Byte>, offset: nat, count: Word) returns (buffer: array<Byte>)
    requires offset + count <= data.Length
    ensures fresh(buffer)
    ensures buffer[..] == [opcode] + Pair(addr) + Pair(count) + data[offset..offset + count]
  {
    buffer := new Byte[5 + count];
    buffer[0] := opcode;
    buffer[1], buffer[2] := Lo(addr), Hi(addr);
    buffer[3], buffer[4] := Lo(count), Hi(count);
    for i := 0 to count
      invariant buffer[..5] == [opcode] + Pair(addr) + Pair(count)
      invariant buffer[5..5 + i] == data[offset..offset + i]
    {
      buffer[5 + i] := data[offset + i];
      assert buffer[5..5 + i + 1] == buffer[5..5 + i] + [data[offset + i]];
    }
    assert buffer[..] == buffer[..5] + buffer[5..];
  }

  method BuildEcho(data: array<Byte>, count: Word) returns (buffer: array<Byte>)
    requires count <= data.Length
    ensures fresh(buffer) && buffer[..] == Encode(Echo(data[..count]))
  {
    buffer := new Byte[3 + count];
    buffer[0] := 0x00;
    for i := 0 to count
      invariant buffer[0] == 0x00 && buffer[3..3 + i] == data[..i]
    {
      buffer[3 + i] := data[i];
      assert buffer[3..3 + i + 1] == buffer[3..3 + i] + [data[i]];
    }
    buffer[1], buffer[2] := Lo(count), Hi(count);
    assert buffer[..] == [buffer[0], buffer[1], buffer[2]] + buffer[3..];
  }
}
