/** Facts about the decode ROM and the timing generator, one addressing mode at a time. */
module CpuDecode {
  import opened Bytes
  import opened Opcodes
  import opened RegisterFile
  import opened CpuCore

  predicate AbsoluteMode(mode: Mode) { mode.ABS? || mode.ABSX? || mode.ABSY? || mode.IND? }

  predicate ZeroPageIndexMode(mode: Mode) { mode.INDX? || mode.ZPX? || mode.ZPY? }

  /** Modes with a memory operand. */
  predicate MemoryMode(mode: Mode) { !(mode.ACC? || mode.REL? || mode.IND? || mode.IMP?) }

  /** Instructions with a memory operand. */
  predicate MemoryOpcode(o: Opcode) { Legal(o) && MemoryMode(o.mode) && !o.op.JMP? }

  /** The timing state in which the effective address is on the bus. */
  function OperandT(mode: Mode): nat {
    match mode
    case IMM => 1
    case ZP => 2
    case ABS | ZPX | ZPY => 3
    case ABSX | ABSY => 4
    case _ => 5
  }

  function IndexControl(mode: Mode): AiControl {
    match mode
    case ABSX | ZPX | INDX => XToAi
    case ABSY | ZPY | INDY => YToAi
    case _ => ZeroToAi
  }

  function CarryToAbh(q: Core): AbhControl { if q.acr then AluincToAbh else NoAbh }

  /** Reads through an indexed address skip the fix-up cycle when no page is crossed. */
  predicate SkipsFixup(o: Opcode) { IsIndexableAlu(o.op) || o.op.LDA? }

  lemma MemoryClasses(o: Opcode)
    requires MemoryOpcode(o)
    ensures IsAlu(o.op) || IsLoad(o.op) || IsStore(o.op) || IsRmw(o.op)
    ensures o.mode.IMM? ==> !IsStore(o.op) && !IsRmw(o.op)
  {
  }

  /** STA is the only store with a fix-up cycle. */
  function FixupStore(o: Opcode): DorControl { if o.op.STA? then AcToDor else NoDor }

  lemma AbsoluteT1(q: Core, carry: bool)
    requires Legal(q.ir) && AbsoluteMode(q.ir.mode) && q.t == 1
    ensures DecodeRom(q) == Control(pc := LoadPrgByte, ai := IndexControl(q.ir.mode), bi := DlToBi)
    ensures NextT(q, carry) == 2
  {
  }

  lemma AbsoluteT2(q: Core, carry: bool)
    requires Legal(q.ir) && (q.ir.mode.ABS? || q.ir.mode.IND?) && q.t == 2
    ensures DecodeRom(q) ==
      if q.ir == Opcode(JMP, ABS) then
        Control(pch := DlToPch, pcl := AlusumToPcl, abh := DlToAbh, abl := AlusumToAbl)
      else Control(dor := StoreSource(q.ir.op), abh := DlToAbh, abl := AlusumToAbl)
    ensures NextT(q, carry) == if q.ir == Opcode(JMP, ABS) then 0 else 3
  {
  }

  lemma IndexedT2(q: Core, carry: bool)
    requires Legal(q.ir) && (q.ir.mode.ABSX? || q.ir.mode.ABSY?) && q.t == 2
    ensures DecodeRom(q) == Control(abh := DlToAbh, abl := AlusumToAbl, ai := ZeroToAi, bi := DlToBi)
    ensures NextT(q, carry) == if !carry && SkipsFixup(q.ir) then 4 else 3
  {
  }

  lemma IndexedT3(q: Core, carry: bool)
    requires Legal(q.ir) && (q.ir.mode.ABSX? || q.ir.mode.ABSY?) && q.t == 3
    ensures DecodeRom(q) == Control(dor := FixupStore(q.ir), abh := CarryToAbh(q))
    ensures IsStore(q.ir.op) ==> q.ir.op.STA?
    ensures NextT(q, carry) == 4
  {
  }

  lemma ZeroPageIndexT1(q: Core, carry: bool)
    requires Legal(q.ir) && ZeroPageIndexMode(q.ir.mode) && q.t == 1
    ensures DecodeRom(q) == Control(ai := IndexControl(q.ir.mode), bi := DlToBi)
    ensures NextT(q, carry) == 2
  {
  }

  lemma ZeroPageIndexT2(q: Core, carry: bool)
    requires Legal(q.ir) && ZeroPageIndexMode(q.ir.mode) && q.t == 2
    ensures DecodeRom(q) == Control(dor := if q.ir.mode.INDX? then NoDor else StoreSource(q.ir.op),
                                    abh := ZeroToAbh, abl := AlusumToAbl)
    ensures NextT(q, carry) == 3
  {
  }

  lemma IndirectXT34(q: Core, carry: bool)
    requires Legal(q.ir) && q.ir.mode.INDX? && (q.t == 3 || q.t == 4)
    ensures DecodeRom(q) ==
      if q.t == 3 then Control(abh := ZeroToAbh, abl := AluincToAbl, ai := ZeroToAi, bi := DlToBi)
      else Control(dor := StoreSource(q.ir.op), abh := DlToAbh, abl := AlusumToAbl)
    ensures NextT(q, carry) == q.t + 1
  {
  }

  lemma IndirectYT12(q: Core, carry: bool)
    requires Legal(q.ir) && q.ir.mode.INDY? && (q.t == 1 || q.t == 2)
    ensures DecodeRom(q) ==
      if q.t == 1 then Control(abh := ZeroToAbh, abl := DlToAbl, ai := ZeroToAi, bi := DlToBi)
      else Control(abh := ZeroToAbh, abl := AluincToAbl, ai := YToAi, bi := DlToBi)
    ensures NextT(q, carry) == q.t + 1
  {
  }

  lemma IndirectYT34(q: Core, carry: bool)
    requires Legal(q.ir) && q.ir.mode.INDY? && (q.t == 3 || q.t == 4)
    ensures DecodeRom(q) ==
      if q.t == 3 then Control(abh := DlToAbh, abl := AlusumToAbl, ai := ZeroToAi, bi := DlToBi)
      else Control(dor := FixupStore(q.ir), abh := CarryToAbh(q))
    ensures IsStore(q.ir.op) ==> q.ir.op.STA?
    ensures NextT(q, carry) == if q.t == 3 && (carry || !SkipsFixup(q.ir)) then 4 else 5
  {
  }

  lemma ZeroPageT1(q: Core, carry: bool)
    requires Legal(q.ir) && q.ir.mode.ZP? && q.t == 1
    ensures DecodeRom(q) == Control(dor := StoreSource(q.ir.op), abh := ZeroToAbh, abl := DlToAbl)
    ensures NextT(q, carry) == 2
  {
  }

  lemma Operand(q: Core, carry: bool)
    requires MemoryOpcode(q.ir) && q.t == OperandT(q.ir.mode)
    ensures DecodeRom(q) == OperandCycle(q.ir.op)
    ensures NextT(q, carry) == if IsLoad(q.ir.op) || IsStore(q.ir.op) then 0 else q.t + 1
  {
  }

  lemma Result(q: Core, carry: bool)
    requires MemoryOpcode(q.ir) && q.t == OperandT(q.ir.mode) + 1 && (IsAlu(q.ir.op) || IsRmw(q.ir.op))
    ensures DecodeRom(q) == ResultCycle(q.ir.op)
    ensures NextT(q, carry) == if IsAlu(q.ir.op) then 1 else q.t + 1
  {
  }

  lemma WriteBack(q: Core, carry: bool)
    requires MemoryOpcode(q.ir) && q.t == OperandT(q.ir.mode) + 2 && IsRmw(q.ir.op)
    ensures DecodeRom(q) == Control(pc := LoadPrgByte, write := true)
    ensures NextT(q, carry) == 0
  {
  }

  lemma IndirectJump(q: Core, carry: bool)
    requires q.ir == Opcode(JMP, IND) && (q.t == 3 || q.t == 4)
    ensures DecodeRom(q) ==
      if q.t == 3 then Control(abl := AluincToAbl, ai := ZeroToAi, bi := DlToBi)
      else Control(pch := DlToPch, pcl := AlusumToPcl, abh := DlToAbh, abl := AlusumToAbl)
    ensures NextT(q, carry) == if q.t == 3 then 4 else 0
  {
  }

  lemma BranchT1(q: Core, carry: bool)
    requires Legal(q.ir) && q.ir.mode.REL? && q.t == 1
    ensures DecodeRom(q) == Control(pc := LoadPrgByte, ai := DlToAi, bi := PclToBi)
    ensures NextT(q, carry) == if BranchNotTaken(q.ir.op, q.r) then 0 else 2
  {
  }

  lemma BranchT23(q: Core, carry: bool)
    requires Legal(q.ir) && q.ir.mode.REL? && (q.t == 2 || q.t == 3)
    ensures DecodeRom(q) ==
      if q.t == 3 then Control(pch := AlusumToPch, abh := AlusumToAbh)
      else Control(pcl := AlusumToPcl, abl := AlusumToAbl, bi := PchToBi,
                   ai := if q.ai >= 0x80 then Neg1ToAi else OneToAi)
    ensures NextT(q, carry) == if q.t == 3 || carry == (q.ai >= 0x80) then 0 else 3
  {
  }

  function StepFunction(op: Op): AluFunction {
    match op
    case DEX => Dex
    case DEY => Dey
    case INX => Inx
    case _ => Iny
  }

  lemma Step(q: Core, carry: bool)
    requires IsStep(q.ir.op) && q.ir.mode.IMP? && (q.t == 1 || q.t == 2)
    ensures DecodeRom(q) ==
      if q.t == 2 then Control(pc := LoadPrgByte, op := AluOp(StepFunction(q.ir.op)))
      else
        match q.ir.op
        case DEX => Control(ai := XToAi, bi := Neg1ToBi)
        case DEY => Control(ai := YToAi, bi := Neg1ToBi)
        case INX => Control(ai := ZeroToAi, bi := XToBi)
        case _ => Control(ai := ZeroToAi, bi := YToBi)
    ensures NextT(q, carry) == if q.t == 2 then 1 else 2
  {
  }

  lemma PushDecode(q: Core, carry: bool)
    requires (q.ir.op.PHA? || q.ir.op.PHP?) && q.ir.mode.IMP? && 1 <= q.t <= 3
    ensures DecodeRom(q) ==
      match q.t
      case 1 => Control(dor := if q.ir.op.PHA? then AcToDor else PToDor, abh := OneToAbh, abl := SToAbl)
      case 2 => Control(pc := LoadPrgByteNoinc, ai := SToAi, bi := Neg1ToBi, write := true)
      case _ => Control(pc := LoadPrgByte, s := AlusumToS)
    ensures NextT(q, carry) == if q.t == 3 then 1 else q.t + 1
  {
  }

  lemma PullDecode(q: Core, carry: bool)
    requires (q.ir.op.PLA? || q.ir.op.PLP?) && q.ir.mode.IMP? && 1 <= q.t <= 3
    ensures DecodeRom(q) ==
      match q.t
      case 1 => Control(ai := ZeroToAi, bi := SToBi)
      case 2 => Control(abh := OneToAbh, abl := AluincToAbl, s := AluincToS)
      case _ => if q.ir.op.PLA? then Control(pc := LoadPrgByteNoinc, op := LoadOp(A))
                else Control(pc := LoadPrgByteNoinc, p := DlToP)
    ensures NextT(q, carry) == if q.t == 3 then 0 else q.t + 1
  {
  }

  lemma RtsDecode(q: Core, carry: bool)
    requires q.ir == Opcode(RTS, IMP) && 1 <= q.t <= 5
    ensures DecodeRom(q) ==
      match q.t
      case 1 => Control(ai := ZeroToAi, bi := SToBi)
      case 2 => Control(abh := OneToAbh, abl := AluincToAbl, bi := AluincToBi)
      case 3 => Control(abl := AluincToAbl, s := DlToS)
      case 4 => Control(pch := DlToPch, pcl := SToPcl, s := AluincToS)
      case _ => Control(pc := LoadPrgByte)
    ensures NextT(q, carry) == if q.t == 5 then 0 else q.t + 1
  {
  }

  lemma RtiDecode(q: Core, carry: bool)
    requires q.ir == Opcode(RTI, IMP) && 1 <= q.t <= 5
    ensures DecodeRom(q) ==
      match q.t
      case 1 => Control(ai := ZeroToAi, bi := SToBi)
      case 2 => Control(abh := OneToAbh, abl := AluincToAbl, bi := AluincToBi)
      case 3 => Control(abl := AluincToAbl, bi := AluincToBi, p := DlToP)
      case 4 => Control(abl := AluincToAbl, s := DlToS)
      case _ => Control(pch := DlToPch, pcl := SToPcl, abh := DlToAbh, abl := SToAbl, s := AluincToS)
    ensures NextT(q, carry) == if q.t == 5 then 0 else q.t + 1
  {
  }

  lemma JsrDecode(q: Core, carry: bool)
    requires q.ir == Opcode(JSR, IMP) && 1 <= q.t <= 5
    ensures DecodeRom(q) ==
      match q.t
      case 1 => Control(pc := IncpcNoload, abh := OneToAbh, abl := SToAbl, bi := SToBi, s := DlToS)
      case 2 => Control(dor := PchToDor, ai := Neg1ToAi)
      case 3 => Control(dor := PclToDor, abl := AlusumToAbl, bi := AlusumToBi, write := true)
      case 4 => Control(pc := LoadPrgByteNoinc, write := true)
      case _ => Control(pch := DlToPch, pcl := SToPcl, abh := DlToAbh, abl := SToAbl, s := AlusumToS)
    ensures NextT(q, carry) == if q.t == 5 then 0 else q.t + 1
  {
  }

  lemma BrkDecode(q: Core, carry: bool)
    requires q.ir == Opcode(BRK, IMP) && 1 <= q.t <= 6
    ensures DecodeRom(q) ==
      match q.t
      case 1 => Control(pc := if q.service.SOFT? then IncpcNoload else NoPc,
                        dor := PchToDor, abh := OneToAbh, abl := SToAbl, ai := Neg1ToAi, bi := SToBi)
      case 2 => Control(dor := PclToDor, abl := AlusumToAbl, bi := AlusumToBi, write := true)
      case 3 => Control(dor := PToDor, abl := AlusumToAbl, bi := AlusumToBi, write := true)
      case 4 => Control(abh := FfToAbh, abl := VectorLow(q.service), p := OneToI, write := true)
      case 5 => Control(abh := FfToAbh, abl := VectorHigh(q.service), s := DlToS)
      case _ => Control(pch := DlToPch, pcl := SToPcl, abh := DlToAbh, abl := SToAbl, s := AlusumToS,
                        line := ServiceDone(q.service))
    ensures NextT(q, carry) == if q.t == 6 then 0 else q.t + 1
  {
  }
}
