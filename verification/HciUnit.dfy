/** The debug unit with its registers updated in place. */
module HciUnit {
  import opened Bytes
  import opened CpuCore
  import opened DebugPort
  import opened Hci
  import opened HciFraming

  class DebugUnit {
    var ctl: Ctl
    var decodeCnt: nat
    var executeCnt: nat
    var addr: Word
    var parity: bool
    var unknown: bool
    var w: World
    var rx: seq<Byte>
    var out: seq<Byte>
    var cpuLatch: Word
    var ppuLatch: nat
    var wrEn: bool
    var txData: Byte

    ghost function Value(): Machine
      reads this
    {
      Machine(Engine(ctl, decodeCnt, executeCnt, addr, parity, unknown, w, rx, out), cpuLatch, ppuLatch, wrEn, txData)
    }

    ghost predicate Valid()
      reads this
    {
      Value().Valid()
    }

    /** Reset: the unit starts by decoding. */
    constructor (world: World, host: seq<Byte>)
      ensures Valid() && Value().k.ctl == Decode && Value().k.rx == host && Value().k.w == world && LatchReady(Value())
    {
      ctl, decodeCnt, executeCnt, addr, parity, unknown := Decode, 0, 0, 0, false, false;
      w, rx, out, cpuLatch, ppuLatch, wrEn, txData := world, host, [], 0, 0, false, 0;
    }

    method Reply(b: Byte)
      modifies this`out
      ensures Value().k == Hci.Reply(old(Value().k), b)
    {
      out := out + [b];
    }

    method CountDown()
      modifies this`executeCnt, this`ctl
      ensures Value().k == Hci.CountDown(old(Value().k))
    {
      executeCnt := (executeCnt - 1) % 0x2_0000;
      if executeCnt == 0 {
        ctl := Decode;
      }
    }

    method TakeOpcode(op: Byte)
      modifies this`ctl, this`out, this`unknown
      ensures Value().k == Decoded(old(Value().k), op)
    {
      match op {
        case 0x00 => ctl := EchoHeader;
        case 0x01 => ctl := CpuRdHeader;
        case 0x02 => ctl := CpuWrHeader;
        case 0x03 =>
        case 0x04 => ctl := Disabled;
        case 0x05 => ctl := RegRd;
        case 0x06 => ctl := RegWrSel;
        case 0x07 => out := out + [1];
        case 0x08 => ctl := QueryErr;
        case 0x09 => ctl := PpuRdHeader;
        case 0x0A => ctl := PpuWrHeader;
        case 0x0B => ctl := PpuOff;
        case 0x0C => ctl := CfgBegin;
        case _ => unknown := true;
      }
    }

    method TakeHeader(b: Byte, next: Ctl, perByte: nat)
      modifies this`ctl, this`decodeCnt, this`executeCnt, this`addr
      ensures Value().k == Header(old(Value().k), b, next, perByte)
    {
      hide ToWord, Lo;
      var stage := decodeCnt;
      decodeCnt := (decodeCnt + 1) % 8;
      if stage == 0 {
        addr := b;
      } else if stage == 1 {
        addr := ToWord(b, Lo(addr));
      } else if stage == 2 {
        executeCnt := b;
      } else {
        executeCnt := perByte * ToWord(b, executeCnt % 0x100);
        ctl := if executeCnt > 0 then next else Decode;
      }
    }

    method TakeEchoHeader(b: Byte)
      requires ctl.EchoHeader?
      modifies this`ctl, this`decodeCnt, this`executeCnt
      ensures forall d, e :: Value().k == Advance(old(Value().k), b, d, e)
    {
      hide ToWord, Decoded, Header, PpuOffStep, DebugRead, DebugWrite, CpuWrite, PpuWrite;
      if decodeCnt == 0 {
        decodeCnt, executeCnt := 1, b;
      } else {
        executeCnt := ToWord(b, executeCnt % 0x100);
        decodeCnt := (decodeCnt + 1) % 8;
        ctl := if executeCnt > 0 then EchoData else Decode;
      }
    }

    method ClearPpu()
      modifies this`ctl, this`decodeCnt, this`addr, this`w
      ensures Value().k == PpuOffStep(old(Value().k))
    {
      hide CpuCell;
      var stage := decodeCnt;
      decodeCnt := (decodeCnt + 1) % 8;
      if stage == 0 {
        addr := 0x2000;
      } else if stage == 1 || stage == 3 {
        w := CpuWrite(w, addr, 0);
        addr := 0;
      } else if stage == 2 {
        addr := 0x2001;
      } else if stage == 4 {
        addr := 0x2002;
      } else if stage == 5 {
        addr, ctl := 0, Decode;
      }
    }

    /** States that move memory bytes. */
    method Transfer(b: Byte, cpuData: Byte, ppuData: Byte)
      requires ctl.EchoData? || ctl.CpuRd? || ctl.PpuRd? || ctl.CpuWr? || ctl.PpuWr?
      modifies this`ctl, this`executeCnt, this`addr, this`w, this`out
      ensures Value().k == Advance(old(Value().k), b, cpuData, ppuData)
    {
      hide Decoded, Header, PpuOffStep, DebugRead, DebugWrite, CpuWrite, PpuWrite, ToWord, Add16;
      var c := ctl;
      if (c.CpuRd? || c.PpuRd?) && executeCnt % 2 == 0 {
        executeCnt := (executeCnt - 1) % 0x2_0000;
      } else {
        CountDown();
        if c.EchoData? {
          Reply(b);
        } else {
          if c.CpuRd? {
            Reply(cpuData);
          } else if c.PpuRd? {
            Reply(ppuData);
          } else if c.CpuWr? {
            w := CpuWrite(w, addr, b);
          } else {
            w := PpuWrite(w, addr, b);
          }
          addr := Add16(addr, 1);
        }
      }
    }

    /** Register and configuration packets, and the answer to an error query. */
    method Single(b: Byte)
      requires ctl.RegRd? || ctl.RegWrSel? || ctl.RegWr? || ctl.QueryErr? || ctl.CfgBegin? || ctl.Cfg?
      modifies this`ctl, this`executeCnt, this`addr, this`w, this`out
      ensures forall d, e :: Value().k == Advance(old(Value().k), b, d, e)
    {
      hide Decoded, Header, PpuOffStep, DebugRead, DebugWrite, CpuWrite, PpuWrite, ToWord, Add16;
      if ctl.RegRd? {
        Reply(DebugRead(w.core, b % 16));
        ctl := Decode;
      } else if ctl.RegWrSel? {
        addr, ctl := b, RegWr;
      } else if ctl.RegWr? {
        w := w.(core := DebugWrite(w.core, addr % 16, b));
        ctl := Decode;
      } else if ctl.QueryErr? {
        Reply(B(parity) + 2 * B(unknown));
        ctl := Decode;
      } else if ctl.CfgBegin? {
        executeCnt, ctl := 4, Cfg;
      } else {
        w := w.(cfg := w.cfg[1..] + [b]);
        ctl := if executeCnt == 0 then Decode else Cfg;
        executeCnt := (executeCnt - 1) % 0x2_0000;
      }
    }

    /** One step that nothing holds up. */
    method Move(b: Byte, cpuData: Byte, ppuData: Byte)
      modifies this`ctl, this`decodeCnt, this`executeCnt, this`addr, this`w, this`out, this`unknown
      ensures Value().k == Advance(old(Value().k), b, cpuData, ppuData)
    {
      hide Decoded, Header, PpuOffStep, DebugRead, DebugWrite, CpuWrite, PpuWrite, ToWord, Add16, Hci.CountDown;
      if ctl.Disabled? {
        if b == 0x03 {
          ctl := Decode;
        } else if b == 0x07 {
          Reply(0);
        }
      } else if ctl.Decode? {
        decodeCnt := 0;
        TakeOpcode(b);
      } else if ctl.EchoHeader? {
        TakeEchoHeader(b);
      } else if ctl.CpuRdHeader? {
        TakeHeader(b, CpuRd, 2);
      } else if ctl.PpuRdHeader? {
        TakeHeader(b, PpuRd, 2);
      } else if ctl.CpuWrHeader? {
        TakeHeader(b, CpuWr, 1);
      } else if ctl.PpuWrHeader? {
        TakeHeader(b, PpuWr, 1);
      } else if ctl.PpuOff? {
        ClearPpu();
      } else if ctl.EchoData? || ctl.CpuRd? || ctl.PpuRd? || ctl.CpuWr? || ctl.PpuWr? {
        Transfer(b, cpuData, ppuData);
      } else {
        Single(b);
      }
    }

    /** One clock. */
    method Clock(c: Clk)
      requires Valid()
      modifies this
      ensures Valid() && Value() == HciFraming.Clock(old(Value()), c)
    {
      hide Advance, CpuCell, PpuCell, WaitsForByte, WaitsForRoom;
      ghost var k := Value().k;
      var cpuAddress, ppuAddress := CpuCell(w.cfg, addr), PpuCell(w.cfg, addr);
      var cpuData, ppuData := CpuShown(w, cpuLatch, addr), w.ppu[ppuLatch];
      assert ppuAddress < 0x4000 by { PpuCellRange(w.cfg, addr); }
      var replies := |out|;
      if Waits() {
        if c.available && rx != [] && (!NeedsRoom() || c.room) {
          var b := rx[0];
          rx := rx[1..];
          Move(b, cpuData, ppuData);
        }
      } else if !NeedsRoom() || c.room {
        Move(0, cpuData, ppuData);
      }
      cpuLatch, ppuLatch := cpuAddress, ppuAddress;
      wrEn := |out| > replies;
      txData := if wrEn then out[|out| - 1] else 0;
    }

    predicate Waits()
      reads this
      ensures Waits() == WaitsForByte(Value().k)
    {
      !(ctl.CpuRd? || ctl.PpuRd? || ctl.QueryErr? || ctl.PpuOff? || ctl.CfgBegin?)
    }

    predicate NeedsRoom()
      reads this
      ensures NeedsRoom() == WaitsForRoom(Value().k)
    {
      ((ctl.CpuRd? || ctl.PpuRd?) && executeCnt % 2 == 1) || ctl.RegRd? || ctl.QueryErr?
    }
  }

  lemma PpuCellRange(cfg: Config, a: Word)
    ensures PpuCell(cfg, a) < 0x4000
  {
  }
}
