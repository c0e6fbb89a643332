/** The effect of single core cycles on the way from an opcode fetch to the operand of the
    instruction and on to its result, one lemma a timing state. */
module CpuSteps {
  import opened Bytes
  import opened Opcodes
  import opened RegisterFile
  import opened Isa
  import opened CpuCore
  import D = CpuDecode

  function Pc(q: Core): Word { ToWord(q.pchs, q.pcls) }

  /** In the middle of instruction o: nothing visible has changed yet. */
  predicate Mid(q: Core, a: Arch, o: Opcode, t: nat, pc: Word, addr: Word) {
    q.t == t && q.r == a.r && q.mem == a.mem && q.ir == o && q.service.SOFT? && Pc(q) == pc && Address(q) == addr
  }

  /** About to fetch an opcode with everything before it finished. */
  predicate AtFetch(q: Core, a: Arch) {
    q.t == 0 && q.r == a.r && q.mem == a.mem && Pc(q) == a.pc == Address(q)
  }

  /** An instruction (SOFT) or an interrupt sequence is about to start. */
  predicate Boundary(q: Core, a: Arch, service: Service) {
    q.t == 1 && q.r == a.r && q.mem == a.mem && q.service == service &&
    if service.SOFT? then
      Pc(q) == Add16(a.pc, 1) == Address(q) && q.ir == OpcodeOf(a.mem[a.pc])
    else
      Pc(q) == a.pc && q.ir == Opcode(BRK, IMP)
  }

  /** The address k bytes after the opcode. */
  function At(a: Arch, k: nat): Word { Add16(a.pc, k) }

  function Index(a: Arch, mode: Mode): Byte {
    match mode
    case ABSX | ZPX | INDX => a.r.x
    case ABSY | ZPY | INDY => a.r.y
    case _ => 0
  }

  /** Stores have their value in the data output register when the address is ready. */
  predicate StoreReady(q: Core, a: Arch, op: Op) { IsStore(op) ==> q.dor == StoreValue(a.r, op) }

  /** The effective address is on the bus and the operand cycle begins. */
  predicate OperandReady(q: Core, a: Arch, o: Opcode) {
    Mid(q, a, o, D.OperandT(o.mode), At(a, Length(o.mode) - 1), EffectiveAddress(a, o.mode)) &&
    StoreReady(q, a, o.op)
  }

  /** The next program byte after the one k bytes past the opcode. */
  lemma NextByte(a: Arch, k: nat)
    ensures Add16(At(a, k), 1) == At(a, k + 1)
    ensures ToWord(Hi(At(a, k + 1)), Lo(At(a, k + 1))) == At(a, k + 1)
    ensures ToWord(Hi(At(a, k)), Lo(At(a, k))) == At(a, k)
  {
    hide Add16, ToWord, Hi, Lo;
    Add16Adds(a.pc, k, 1);
    Halves(At(a, k));
    Halves(At(a, k + 1));
  }

  /** Adding an index byte carries at most one into the high byte. */
  lemma IndexWord(hi: Byte, lo: Byte, index: Byte)
    ensures Add16(ToWord(hi, lo), index) ==
            ToWord(if lo + index >= 0x100 then Add8(hi, 1) else hi, Add8(lo, index))
  {
    if lo + index < 0x100 {
    } else if hi < 0xFF {
      assert hi * 0x100 + lo + index == (hi + 1) * 0x100 + (lo + index - 0x100);
    } else {
      assert hi * 0x100 + lo + index == 0x1_0000 + (lo + index - 0x100);
    }
  }

  lemma DorLoaded(q: Core, r: Service, op: Op, k: Control)
    requires IsStore(op) && DecodeRom(q) == k
    requires k == Control(dor := StoreSource(op), abh := k.abh, abl := k.abl)
    requires !k.abh.AlusumToAbh? && !k.abh.AluincToAbh?
    ensures Cycle(q, r).dor == StoreValue(q.r, op)
  {
    hide OpcodeOf, DecodeRom, NextT, And8, Alu, Adl, NextRegisters;
  }

  /** A store drives its register, or for SAX the AND of two, into the data output register in the
      cycle that computes its address. */
  lemma StoreDriven(q: Core, r: Service)
    requires Legal(q.ir) && IsStore(q.ir.op)
    requires match q.ir.mode
      case ZP => q.t == 1
      case ABS | ZPX | ZPY => q.t == 2
      case INDX => q.t == 4
      case _ => false
    ensures Cycle(q, r).dor == StoreValue(q.r, q.ir.op)
  {
    hide Cycle, DecodeRom, NextT, And8, Legal, StoreSource, StoreValue;
    match q.ir.mode {
      case ZP => D.ZeroPageT1(q, false);
      case ABS => D.AbsoluteT2(q, false);
      case INDX => D.IndirectXT34(q, false);
      case _ => D.ZeroPageIndexT2(q, false);
    }
    DorLoaded(q, r, q.ir.op, DecodeRom(q));
  }

  // ---------------------------------------------------------------------------------------------
  // Absolute and absolute indexed addresses
  // ---------------------------------------------------------------------------------------------

  lemma AbsoluteT1(q: Core, a: Arch, o: Opcode, r: Service)
    requires Legal(o) && D.AbsoluteMode(o.mode) && Mid(q, a, o, 1, At(a, 1), At(a, 1))
    ensures var p := Cycle(q, r);
      Mid(p, a, o, 2, At(a, 2), At(a, 2)) && p.ai == Index(a, o.mode) && p.bi == Fetch(a, 1)
  {
    hide OpcodeOf, DecodeRom, NextT, Add16, Hi, Lo, ToWord;
    D.AbsoluteT1(q, Alu(DecodeRom(q), q).carry);
    NextByte(a, 1);
  }

  lemma AbsoluteT2(q: Core, a: Arch, o: Opcode, r: Service)
    requires Legal(o) && (o.mode.ABS? || o.mode.IND?) && o != Opcode(JMP, ABS)
    requires Mid(q, a, o, 2, At(a, 2), At(a, 2)) && q.ai == 0 && q.bi == Fetch(a, 1)
    ensures var p := Cycle(q, r);
      Mid(p, a, o, 3, At(a, 2), ToWord(Fetch(a, 2), Fetch(a, 1))) && p.ai == 0 && p.bi == Fetch(a, 1)
  {
    hide OpcodeOf, DecodeRom, NextT, Add16, Hi, Lo, ToWord, StoreSource, Legal, DbOut, SbOut;
    D.AbsoluteT2(q, Alu(DecodeRom(q), q).carry);
    Halves(At(a, 2));
  }

  lemma IndexedT2(q: Core, a: Arch, o: Opcode, r: Service)
    requires Legal(o) && (o.mode.ABSX? || o.mode.ABSY?)
    requires Mid(q, a, o, 2, At(a, 2), At(a, 2)) && q.ai == Index(a, o.mode) && q.bi == Fetch(a, 1)
    ensures var p := Cycle(q, r);
      Mid(p, a, o, if !p.acr && D.SkipsFixup(o) then 4 else 3, At(a, 2),
          ToWord(Fetch(a, 2), Add8(Fetch(a, 1), Index(a, o.mode)))) &&
      p.acr == (Fetch(a, 1) + Index(a, o.mode) >= 0x100) && p.ai == 0 && p.bi == Fetch(a, 2)
  {
    hide OpcodeOf, DecodeRom, NextT, Add, Add8, Add16, Hi, Lo, ToWord, And8, Index, Fetch, D.SkipsFixup;
    D.IndexedT2(q, Alu(DecodeRom(q), q).carry);
    Halves(At(a, 2));
    ByteAt(a, 2);
    AddIndexes(q.ai, q.bi);
  }

  lemma AddIndexes(x: Byte, y: Byte)
    ensures Add(x, y, false).out == Add8(y, x) && Add(x, y, false).carry == (y + x >= 0x100)
  {
  }

  lemma IndexedT3(q: Core, a: Arch, o: Opcode, r: Service)
    requires Legal(o) && (o.mode.ABSX? || o.mode.ABSY?)
    requires Mid(q, a, o, 3, At(a, 2), ToWord(Fetch(a, 2), Add8(Fetch(a, 1), Index(a, o.mode))))
    requires q.acr == (Fetch(a, 1) + Index(a, o.mode) >= 0x100) && q.ai == 0 && q.bi == Fetch(a, 2)
    ensures var p := Cycle(q, r);
      Mid(p, a, o, 4, At(a, 2), EffectiveAddress(a, o.mode)) && StoreReady(p, a, o.op)
  {
    hide OpcodeOf, DecodeRom, NextT, Add16, Hi, Lo, ToWord, And8, Legal;
    D.IndexedT3(q, Alu(DecodeRom(q), q).carry);
    Halves(At(a, 2));
    IndexWord(Fetch(a, 2), Fetch(a, 1), Index(a, o.mode));
  }

  lemma AbsoluteJump(q: Core, a: Arch, r: Service)
    requires Mid(q, a, Opcode(JMP, ABS), 2, At(a, 2), At(a, 2)) && q.ai == 0 && q.bi == Fetch(a, 1)
    ensures AtFetch(Cycle(q, r), a.(pc := EffectiveAddress(a, ABS)))
  {
    hide OpcodeOf, DecodeRom, NextT, Add16, Hi, Lo, ToWord, EffectiveAddress, Fetch, StoreSource, And8, At;
    D.AbsoluteT2(q, Alu(DecodeRom(q), q).carry);
    Halves(At(a, 2));
    AbsoluteAddress(a);
    assert Address(q) == At(a, 2);
    assert q.mem[At(a, 2)] == Fetch(a, 2) by { ByteAt(a, 2); }
  }

  lemma AbsoluteAddress(a: Arch)
    ensures EffectiveAddress(a, ABS) == ToWord(Fetch(a, 2), Fetch(a, 1))
  {
  }

  lemma ByteAt(a: Arch, k: nat)
    ensures a.mem[At(a, k)] == Fetch(a, k)
  {
    hide Add16;
  }

  lemma IndirectJumpT3(q: Core, a: Arch, r: Service)
    requires Mid(q, a, Opcode(JMP, IND), 3, At(a, 2), ToWord(Fetch(a, 2), Fetch(a, 1)))
    requires q.ai == 0 && q.bi == Fetch(a, 1)
    ensures var p := Cycle(q, r);
      Mid(p, a, Opcode(JMP, IND), 4, At(a, 2), ToWord(Fetch(a, 2), Add8(Fetch(a, 1), 1))) &&
      p.ai == 0 && p.bi == a.mem[ToWord(Fetch(a, 2), Fetch(a, 1))]
  {
    hide OpcodeOf, DecodeRom, NextT, Add16, Hi, Lo, ToWord;
    D.IndirectJump(q, Alu(DecodeRom(q), q).carry);
    Halves(At(a, 2));
  }

  lemma IndirectJumpT4(q: Core, a: Arch, r: Service)
    requires Mid(q, a, Opcode(JMP, IND), 4, At(a, 2), ToWord(Fetch(a, 2), Add8(Fetch(a, 1), 1)))
    requires q.ai == 0 && q.bi == a.mem[ToWord(Fetch(a, 2), Fetch(a, 1))]
    ensures AtFetch(Cycle(q, r), a.(pc := IndirectTarget(a)))
  {
    hide OpcodeOf, DecodeRom, NextT, Add16, Hi, Lo, ToWord;
    D.IndirectJump(q, Alu(DecodeRom(q), q).carry);
    Halves(At(a, 2));
  }

  // ---------------------------------------------------------------------------------------------
  // Zero-page and indirect addresses
  // ---------------------------------------------------------------------------------------------

  lemma ZeroPageIndexT1(q: Core, a: Arch, o: Opcode, r: Service)
    requires Legal(o) && D.ZeroPageIndexMode(o.mode) && Mid(q, a, o, 1, At(a, 1), At(a, 1))
    ensures var p := Cycle(q, r);
      Mid(p, a, o, 2, At(a, 1), At(a, 1)) && p.ai == Index(a, o.mode) && p.bi == Fetch(a, 1)
  {
    hide OpcodeOf, DecodeRom, NextT, Add16, Hi, Lo, ToWord, Legal;
    D.ZeroPageIndexT1(q, Alu(DecodeRom(q), q).carry);
    Halves(At(a, 1));
  }

  lemma ZeroPageIndexT2(q: Core, a: Arch, o: Opcode, r: Service)
    requires Legal(o) && D.ZeroPageIndexMode(o.mode) && Mid(q, a, o, 2, At(a, 1), At(a, 1))
    requires q.ai == Index(a, o.mode) && q.bi == Fetch(a, 1)
    ensures var p := Cycle(q, r);
      Mid(p, a, o, 3, At(a, 1), Add8(Fetch(a, 1), Index(a, o.mode))) &&
      p.ai == Index(a, o.mode) && p.bi == Fetch(a, 1)
  {
    hide OpcodeOf, DecodeRom, NextT, Add16, Hi, Lo, Legal, StoreSource, Index, DbOut, SbOut;
    D.ZeroPageIndexT2(q, Alu(DecodeRom(q), q).carry);
    Halves(At(a, 1));
  }

  lemma IndirectXT3(q: Core, a: Arch, o: Opcode, r: Service)
    requires Legal(o) && o.mode.INDX? && Mid(q, a, o, 3, At(a, 1), Add8(Fetch(a, 1), a.r.x))
    requires q.ai == a.r.x && q.bi == Fetch(a, 1)
    ensures var p := Cycle(q, r);
      Mid(p, a, o, 4, At(a, 1), Add8(Add8(Fetch(a, 1), a.r.x), 1)) &&
      p.ai == 0 && p.bi == a.mem[Add8(Fetch(a, 1), a.r.x)]
  {
    hide OpcodeOf, DecodeRom, NextT, Add16, Hi, Lo, Legal;
    D.IndirectXT34(q, Alu(DecodeRom(q), q).carry);
    Halves(At(a, 1));
  }

  lemma IndirectXT4(q: Core, a: Arch, o: Opcode, r: Service)
    requires Legal(o) && o.mode.INDX? && Mid(q, a, o, 4, At(a, 1), Add8(Add8(Fetch(a, 1), a.r.x), 1))
    requires q.ai == 0 && q.bi == a.mem[Add8(Fetch(a, 1), a.r.x)]
    ensures Mid(Cycle(q, r), a, o, 5, At(a, 1), EffectiveAddress(a, INDX))
  {
    hide OpcodeOf, DecodeRom, NextT, Add16, Hi, Lo, ToWord, Legal, StoreSource, DbOut, SbOut;
    D.IndirectXT34(q, Alu(DecodeRom(q), q).carry);
    Halves(At(a, 1));
  }

  lemma IndirectYT1(q: Core, a: Arch, o: Opcode, r: Service)
    requires Legal(o) && o.mode.INDY? && Mid(q, a, o, 1, At(a, 1), At(a, 1))
    ensures var p := Cycle(q, r);
      Mid(p, a, o, 2, At(a, 1), Fetch(a, 1)) && p.ai == 0 && p.bi == Fetch(a, 1)
  {
    hide OpcodeOf, DecodeRom, NextT, Add16, Hi, Lo, Legal;
    D.IndirectYT12(q, Alu(DecodeRom(q), q).carry);
    Halves(At(a, 1));
  }

  lemma IndirectYT2(q: Core, a: Arch, o: Opcode, r: Service)
    requires Legal(o) && o.mode.INDY? && Mid(q, a, o, 2, At(a, 1), Fetch(a, 1))
    requires q.ai == 0 && q.bi == Fetch(a, 1)
    ensures var p := Cycle(q, r);
      Mid(p, a, o, 3, At(a, 1), Add8(Fetch(a, 1), 1)) && p.ai == a.r.y && p.bi == a.mem[Fetch(a, 1)]
  {
    hide OpcodeOf, DecodeRom, NextT, Add16, Hi, Lo, Legal;
    D.IndirectYT12(q, Alu(DecodeRom(q), q).carry);
    Halves(At(a, 1));
  }

  /** The low byte of an indirect indexed address, before and after indexing. */
  function PointerLow(a: Arch): Byte { a.mem[Fetch(a, 1)] }

  function PointerHigh(a: Arch): Byte { a.mem[Add8(Fetch(a, 1), 1)] }

  lemma IndirectYT3(q: Core, a: Arch, o: Opcode, r: Service)
    requires Legal(o) && o.mode.INDY? && Mid(q, a, o, 3, At(a, 1), Add8(Fetch(a, 1), 1))
    requires q.ai == a.r.y && q.bi == PointerLow(a)
    ensures var p := Cycle(q, r);
      Mid(p, a, o, if !p.acr && D.SkipsFixup(o) then 5 else 4, At(a, 1),
          ToWord(PointerHigh(a), Add8(PointerLow(a), a.r.y))) &&
      p.acr == (PointerLow(a) + a.r.y >= 0x100) && p.ai == 0 && p.bi == PointerHigh(a)
  {
    hide OpcodeOf, DecodeRom, NextT, Add16, Hi, Lo, ToWord, Legal;
    D.IndirectYT34(q, Alu(DecodeRom(q), q).carry);
    Halves(At(a, 1));
  }

  lemma IndirectYT4(q: Core, a: Arch, o: Opcode, r: Service)
    requires Legal(o) && o.mode.INDY?
    requires Mid(q, a, o, 4, At(a, 1), ToWord(PointerHigh(a), Add8(PointerLow(a), a.r.y)))
    requires q.acr == (PointerLow(a) + a.r.y >= 0x100) && q.ai == 0 && q.bi == PointerHigh(a)
    ensures var p := Cycle(q, r);
      Mid(p, a, o, 5, At(a, 1), EffectiveAddress(a, INDY)) && StoreReady(p, a, o.op)
  {
    hide OpcodeOf, DecodeRom, NextT, Add16, Hi, Lo, ToWord, Legal, And8, Bit;
    D.IndirectYT34(q, Alu(DecodeRom(q), q).carry);
    Halves(At(a, 1));
    IndexWord(PointerHigh(a), PointerLow(a), a.r.y);
  }

  lemma ZeroPageT1(q: Core, a: Arch, o: Opcode, r: Service)
    requires Legal(o) && o.mode.ZP? && Mid(q, a, o, 1, At(a, 1), At(a, 1))
    ensures Mid(Cycle(q, r), a, o, 2, At(a, 1), Fetch(a, 1))
  {
    hide OpcodeOf, DecodeRom, NextT, Add16, Hi, Lo, Legal, StoreSource, DbOut, SbOut;
    D.ZeroPageT1(q, Alu(DecodeRom(q), q).carry);
    Halves(At(a, 1));
  }
}
