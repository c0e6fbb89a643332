/** The core with its registers updated in place, phase by phase. */
module CpuUnit {
  import opened Bytes
  import opened Opcodes
  import opened RegisterFile
  import opened CpuCore
  import opened CpuRefinement

  /** The next values of the ALU inputs. */
  function NextAi(k: Control, ai: Byte, sb: Byte): Byte {
    if k.ai.NoAi? then ai else if k.ai.ZeroToAi? then 0 else sb
  }

  function NextBi(k: Control, bi: Byte, db: Byte, adl: Byte): Byte {
    if k.bi.NoBi? then bi
    else if k.bi.InvdlToBi? then 0xFF - db
    else if k.bi.AluincToBi? || k.bi.AlusumToBi? || k.bi.PclToBi? || k.bi.SToBi? then adl
    else db
  }

  predicate LoadsPc(k: Control) { k.pc.LoadPrgByte? || k.pc.LoadPrgByteNoinc? }

  class Cpu {
    var r: Registers
    var abh: Byte
    var abl: Byte
    var pch: Byte
    var pcl: Byte
    var pchs: Byte
    var pcls: Byte
    var acr: bool
    var add: Byte
    var ai: Byte
    var bi: Byte
    var dl: Byte
    var dor: Byte
    var pd: Byte
    var ir: Opcode
    var t: nat
    var service: Service
    const mem: array<Byte>

    ghost predicate Valid()
      reads this
    {
      mem.Length == 0x1_0000
    }

    /** The state the combinational logic sees. */
    function Value(): Core
      reads this, mem
      requires Valid()
    {
      Core(r, abh, abl, pch, pcl, pchs, pcls, acr, add, ai, bi, dl, dor, pd, ir, t, service, mem[..])
    }

    /** Reset: the core starts in T1 of a NOP at 0x8000. */
    constructor (memory: array<Byte>)
      requires memory.Length == 0x1_0000
      ensures Valid() && mem == memory && t == 1 && ir == Opcode(NOP, IMP) && service == RST && r.s == 0xFF
      ensures ToWord(pchs, pcls) == 0x8000 == ToWord(abh, abl)
    {
      mem := memory;
      r := Registers(0, 0, 0, 0xFF, false, false, false, false, false, false);
      abh, abl, pch, pcl, pchs, pcls := 0x80, 0, 0x80, 0, 0x80, 0;
      acr, add, ai, bi, dl, dor, pd := false, 0, 0, 0, 0, 0, 0;
      ir, t, service := Opcode(NOP, IMP), 1, RST;
    }

    /** Phase 2: the program counter, the data latch and the adder hold register; on a write cycle the data
        output register goes to memory. */
    method LatchPhase2(k: Control, inhibitInc: bool)
      requires Valid()
      modifies this`pch, this`pcl, this`dl, this`pd, this`add, mem
      ensures Valid() && Value() == Phase2(k, inhibitInc, old(Value()))
    {
      hide Alu, Add16, Hi, Lo, ToWord;
      var sum := Alu(k, Value()).out;
      var address := Address(Value());
      var pc := ToWord(pchs, pcls);
      if (k.pc.IncpcNoload? || k.pc.LoadPrgByte?) && !inhibitInc {
        pc := Add16(pc, 1);
      }
      pch, pcl, add := Hi(pc), Lo(pc), sum;
      if k.write {
        mem[address] := dor;
      } else {
        dl, pd := mem[address], mem[address];
      }
    }

    /** Phase 1, the address registers and the program counter select registers. */
    method LatchAddress(k: Control, adh: Byte, adl: Byte)
      modifies this`abh, this`abl, this`pchs, this`pcls
      ensures abh == if LoadsPc(k) || !k.abh.NoAbh? then adh else old(abh)
      ensures abl == if LoadsPc(k) || !k.abl.NoAbl? then adl else old(abl)
      ensures pchs == (if k.pch.NoPch? then pch else adh) && pcls == if k.pcl.NoPcl? then pcl else adl
    {
      if LoadsPc(k) || !k.abh.NoAbh? {
        abh := adh;
      }
      if LoadsPc(k) || !k.abl.NoAbl? {
        abl := adl;
      }
      pchs := if k.pch.NoPch? then pch else adh;
      pcls := if k.pcl.NoPcl? then pcl else adl;
    }

    /** Phase 1, the inputs of the ALU. */
    method LatchInputs(k: Control, db: Byte, sb: Byte, adl: Byte)
      modifies this`ai, this`bi
      ensures ai == NextAi(k, old(ai), sb) && bi == NextBi(k, old(bi), db, adl)
    {
      if !k.ai.NoAi? {
        ai := if k.ai.ZeroToAi? then 0 else sb;
      }
      if k.bi.InvdlToBi? {
        bi := 0xFF - db;
      } else if k.bi.AluincToBi? || k.bi.AlusumToBi? || k.bi.PclToBi? || k.bi.SToBi? {
        bi := adl;
      } else if !k.bi.NoBi? {
        bi := db;
      }
    }

    /** Phase 1, the timing state and, when an instruction starts, what it is. */
    method LatchControl(next: nat, request: Service)
      modifies this`ir, this`service, this`t
      ensures t == next && service == (if next != 1 then old(service) else request)
      ensures ir == if next != 1 then old(ir) else if request.SOFT? then OpcodeOf(pd) else Opcode(BRK, IMP)
    {
      hide OpcodeOf;
      if next == 1 {
        ir := if request.SOFT? then OpcodeOf(pd) else Opcode(BRK, IMP);
        service := request;
      }
      t := next;
    }

    /** Phase 1, the registers a program sees, the carry out and the data output. */
    method LatchRegisters(k: Control, alu: AluResult, sb: Byte, db: Byte)
      modifies this`r, this`acr, this`dor
      ensures r == (if RegistersIdle(k) then old(r) else NextRegisters(k, alu, sb, db, old(r)))
      ensures acr == alu.carry && dor == db
    {
      hide NextRegisters, RegistersIdle;
      if !RegistersIdle(k) {
        r := NextRegisters(k, alu, sb, db, r);
      }
      acr, dor := alu.carry, db;
    }

    /** Phase 1: every register that phase 2 does not latch, from the internal buses. */
    method LatchPhase1(k: Control, next: nat, request: Service)
      requires Valid()
      modifies this
      ensures Valid() && Value() == Phase1(k, next, request, old(Value()))
    {
      hide Alu, DbOut, SbOut, AdhOut, Adl, NextRegisters, OpcodeOf, RegistersIdle, Phase1, LoadsPc, NextAi, NextBi;
      var q := Value();
      Phase1Fields(k, next, request, q);
      var db, sb, adh, adl, alu := DbOut(k, q), SbOut(k, q), AdhOut(k, q), Adl(k, q), Alu(k, q);
      LatchRegisters(k, alu, sb, db);
      LatchAddress(k, adh, adl);
      LatchInputs(k, db, sb, adl);
      LatchControl(next, request);
    }

    method Clock(request: Service)
      requires Valid()
      modifies this, mem
      ensures Valid() && Value() == Cycle(old(Value()), request)
    {
      hide DecodeRom, NextT, Alu, Phase1, Phase2;
      var k := DecodeRom(Value());
      var next := NextT(Value(), Alu(k, Value()).carry);
      LatchPhase2(k, next == 1 && !request.SOFT?);
      LatchPhase1(k, next, request);
    }

    /** One cycle for each request of a stream. */
    method Run(requests: seq<Service>)
      requires Valid()
      modifies this, mem
      ensures Valid() && Value() == Cycles(old(Value()), requests)
    {
      hide Cycle;
      ghost var q := Value();
      for i := 0 to |requests|
        invariant Valid() && Cycles(Value(), requests[i..]) == Cycles(q, requests)
      {
        assert requests[i..][1..] == requests[i + 1..];
        Clock(requests[i]);
      }
    }
  }

  /** Phase 1 register by register. */
  lemma Phase1Fields(k: Control, t: nat, request: Service, q: Core)
    ensures var db, sb, adh, adl, p := DbOut(k, q), SbOut(k, q), AdhOut(k, q), Adl(k, q), Phase1(k, t, request, q);
      p.r == (if RegistersIdle(k) then q.r else NextRegisters(k, Alu(k, q), sb, db, q.r)) &&
      p.abh == (if LoadsPc(k) || !k.abh.NoAbh? then adh else q.abh) &&
      p.abl == (if LoadsPc(k) || !k.abl.NoAbl? then adl else q.abl) &&
      p.pchs == (if k.pch.NoPch? then q.pch else adh) && p.pcls == (if k.pcl.NoPcl? then q.pcl else adl) &&
      p.ai == NextAi(k, q.ai, sb) && p.bi == NextBi(k, q.bi, db, adl) &&
      p.ir == (if t != 1 then q.ir else if request.SOFT? then OpcodeOf(q.pd) else Opcode(BRK, IMP)) &&
      p.service == (if t != 1 then q.service else request) &&
      p == Core(p.r, p.abh, p.abl, q.pch, q.pcl, p.pchs, p.pcls, Alu(k, q).carry, q.add, p.ai, p.bi, q.dl, db, q.pd,
                p.ir, t, p.service, q.mem)
  {
    hide Alu, DbOut, SbOut, AdhOut, Adl, NextRegisters, OpcodeOf, RegistersIdle;
  }
}
