/** The microcoded 6502 core: timing generator, decode ROM, ALU, internal buses and registers.

    One cycle of the core is a phase-2 latch (data latch, adder hold register, program counter)
    followed by a phase-1 latch (everything else).  The control lines depend only on registers
    that change at phase 1, so they are steady over the whole cycle. */
module CpuCore {
  import opened Bytes
  import opened Opcodes
  import opened RegisterFile

  /** What a BRK sequence services: a request line, or BRK when no request is pending. */
  datatype Service = RST | NMI | IRQ | SOFT

  datatype Register = A | X | Y | S

  datatype Flag = CarryFlag | DecimalFlag | InterruptFlag | OverflowFlag

  /** The ALU operations; the Acc forms load the accumulator, the Mem forms the data output register. */
  datatype AluFunction =
    | Adc | And | AslAcc | AslMem | BitTst | Cmp | Dec | Dex | Dey | Eor | Inc | Inx | Iny
    | LsrAcc | LsrMem | Ora | RolAcc | RolMem | RorAcc | RorMem

  // The outputs of the decode ROM, grouped: in no cycle are two lines of one group raised together,
  // except that SAX drives the data output register from the accumulator and X at once.  A flag
  // operation carries bit 5 of its opcode as the value.
  datatype PcControl = NoPc | LoadPrgByte | LoadPrgByteNoinc | IncpcNoload
  datatype PchControl = NoPch | AlusumToPch | DlToPch
  datatype PclControl = NoPcl | AlusumToPcl | SToPcl
  datatype OpControl =
    | NoOp
    | AluOp(f: AluFunction)
    | LoadOp(to: Register)
    | TransferOp(from: Register, to: Register)
    | FlagOp(flag: Flag, value: bool)
  datatype DorControl = NoDor | AcToDor | AcXToDor | PToDor | PchToDor | PclToDor | XToDor | YToDor
  datatype AbhControl = NoAbh | AluincToAbh | AlusumToAbh | DlToAbh | FfToAbh | OneToAbh | ZeroToAbh
  datatype AblControl = NoAbl | AluincToAbl | AlusumToAbl | DlToAbl | FaToAbl | FbToAbl | FcToAbl | FdToAbl
     | FeToAbl | FfToAbl | SToAbl
  datatype AiControl = NoAi | AcToAi | DlToAi | OneToAi | Neg1ToAi | SToAi | XToAi | YToAi | ZeroToAi
  datatype BiControl = NoBi | AcToBi | AluincToBi | AlusumToBi | DlToBi | InvdlToBi | Neg1ToBi | PchToBi
     | PclToBi | SToBi | XToBi | YToBi
  datatype StackControl = NoS | AluincToS | AlusumToS | DlToS
  datatype StatusControl = NoP | DlBits67ToP | DlToP | OneToI
  datatype LineControl = NoLine | Break | ClearRst | ClearNmi

  /** One control word; lines that are not named are low. */
  datatype Control = Control(
    nameonly pc: PcControl := NoPc,
    nameonly pch: PchControl := NoPch,
    nameonly pcl: PclControl := NoPcl,
    nameonly op: OpControl := NoOp,
    nameonly dor: DorControl := NoDor,
    nameonly abh: AbhControl := NoAbh,
    nameonly abl: AblControl := NoAbl,
    nameonly ai: AiControl := NoAi,
    nameonly bi: BiControl := NoBi,
    nameonly s: StackControl := NoS,
    nameonly p: StatusControl := NoP,
    nameonly line: LineControl := NoLine,
    nameonly write: bool := false)

  datatype Core = Core(
    r: Registers,
    abh: Byte, abl: Byte, pch: Byte, pcl: Byte, pchs: Byte, pcls: Byte,
    acr: bool, add: Byte, ai: Byte, bi: Byte, dl: Byte, dor: Byte, pd: Byte,
    ir: Opcode, t: nat, service: Service, mem: Memory)

  // ---------------------------------------------------------------------------------------------
  // Timing generation
  // ---------------------------------------------------------------------------------------------

  predicate BranchNotTaken(op: Op, r: Registers) {
    (op.BCC? && r.c) || (op.BCS? && !r.c) || (op.BPL? && r.n) || (op.BMI? && !r.n) ||
    (op.BVC? && r.v) || (op.BVS? && !r.v) || (op.BNE? && r.z) || (op.BEQ? && !r.z)
  }

  /** Single-cycle instructions that do not prefetch. */
  predicate EndsInT1(op: Op) {
    IsFlagOp(op) || IsTransfer(op) || op.HLT? || op.NOP?
  }

  /** The timing state after the current one; carry is the carry out of the ALU. */
  function NextT(q: Core, carry: bool): nat {
    var op, mode := q.ir.op, q.ir.mode;
    match q.t
    case 0 => 1
    case 1 =>
      if EndsInT1(op) || (mode.IMM? && IsLoad(op)) || BranchNotTaken(op, q.r) then 0 else 2
    case 2 =>
      if (mode.IMM? && IsAlu(op)) || mode.ACC? || op.DEX? || op.DEY? || op.INX? || op.INY? then 1
      else if (mode.ABS? && op.JMP?) || (mode.ZP? && (IsLoad(op) || IsStore(op))) then 0
      else if !carry && (mode.ABSX? || mode.ABSY?) && (IsIndexableAlu(op) || op.LDA?) then 4
      else if mode.REL? && carry == (q.ai >= 0x80) then 0
      else 3
    case 3 =>
      if (mode.ZP? && IsAlu(op)) || op.PHA? || op.PHP? then 1
      else if mode.REL? || op.PLA? || op.PLP? ||
              ((mode.ABS? || mode.ZPX? || mode.ZPY?) && (IsLoad(op) || IsStore(op))) then 0
      else if !carry && mode.INDY? && (IsIndexableAlu(op) || op.LDA?) then 5
      else 4
    case 4 =>
      if (mode.ABS? || mode.ZPX?) && IsAlu(op) then 1
      else if (mode.ZP? && IsRmw(op)) || mode.IND? ||
              ((mode.ABSX? || mode.ABSY?) && (IsLoad(op) || IsStore(op))) then 0
      else 5
    case 5 =>
      if (mode.ABSX? || mode.ABSY?) && IsAlu(op) then 1
      else if ((mode.ABS? || mode.ZPX?) && IsRmw(op)) || op.JSR? || op.RTI? || op.RTS? ||
              ((mode.INDX? || mode.INDY?) && (IsLoad(op) || IsStore(op))) then 0
      else 6
    case 6 => if (mode.INDX? || mode.INDY?) && IsAlu(op) then 1 else 0
    case _ => 0
  }

  // ---------------------------------------------------------------------------------------------
  // Decode ROM
  // ---------------------------------------------------------------------------------------------

  /** The cycle in which the effective address is on the address bus. */
  function OperandCycle(op: Op): Control {
    match op
    case ADC | AND | EOR | ORA => Control(pc := LoadPrgByte, ai := AcToAi, bi := DlToBi)
    case BIT => Control(pc := LoadPrgByte, ai := AcToAi, bi := DlToBi, p := DlBits67ToP)
    case CMP | SBC => Control(pc := LoadPrgByte, ai := AcToAi, bi := InvdlToBi)
    case CPX => Control(pc := LoadPrgByte, ai := XToAi, bi := InvdlToBi)
    case CPY => Control(pc := LoadPrgByte, ai := YToAi, bi := InvdlToBi)
    case ASL | LSR | ROL | ROR => Control(ai := DlToAi, bi := DlToBi)
    case DEC => Control(ai := Neg1ToAi, bi := DlToBi)
    case INC => Control(ai := ZeroToAi, bi := DlToBi)
    case LDA => Control(pc := LoadPrgByte, op := LoadOp(A))
    case LDX => Control(pc := LoadPrgByte, op := LoadOp(X))
    case LDY => Control(pc := LoadPrgByte, op := LoadOp(Y))
    case SAX | STA | STX | STY => Control(pc := LoadPrgByte, write := true)
    case _ => Control()
  }

  /** The cycle after the operand cycle: the ALU result is latched. */
  function ResultCycle(op: Op): Control {
    match op
    case ADC | SBC => Control(pc := LoadPrgByte, op := AluOp(Adc))
    case AND => Control(pc := LoadPrgByte, op := AluOp(And))
    case BIT => Control(pc := LoadPrgByte, op := AluOp(BitTst))
    case CMP | CPX | CPY => Control(pc := LoadPrgByte, op := AluOp(Cmp))
    case EOR => Control(pc := LoadPrgByte, op := AluOp(Eor))
    case ORA => Control(pc := LoadPrgByte, op := AluOp(Ora))
    case ASL => Control(op := AluOp(AslMem))
    case LSR => Control(op := AluOp(LsrMem))
    case ROL => Control(op := AluOp(RolMem))
    case ROR => Control(op := AluOp(RorMem))
    case DEC => Control(op := AluOp(Dec))
    case INC => Control(op := AluOp(Inc))
    case _ => Control()
  }

  /** The write-back cycle of the read-modify-write instructions. */
  function WriteBackCycle(op: Op): Control {
    if IsRmw(op) then Control(pc := LoadPrgByte, write := true) else Control()
  }

  /** What a store puts into the data output register. */
  function StoreSource(op: Op): DorControl {
    match op
    case SAX => AcXToDor
    case STA => AcToDor
    case STX => XToDor
    case STY => YToDor
    case _ => NoDor
  }

  /** The two bytes of the vector of a service, and the line that acknowledges it. */
  function VectorLow(service: Service): AblControl {
    match service case RST => FcToAbl case NMI => FaToAbl case _ => FeToAbl
  }

  function VectorHigh(service: Service): AblControl {
    match service case RST => FdToAbl case NMI => FbToAbl case _ => FfToAbl
  }

  function ServiceDone(service: Service): LineControl {
    match service case RST => ClearRst case NMI => ClearNmi case _ => NoLine
  }

  function DecodeT1(o: Opcode, service: Service): Control {
    match o.mode
    case ABS | IND => Control(pc := LoadPrgByte, ai := ZeroToAi, bi := DlToBi)
    case ABSX => Control(pc := LoadPrgByte, ai := XToAi, bi := DlToBi)
    case ABSY => Control(pc := LoadPrgByte, ai := YToAi, bi := DlToBi)
    case IMM => OperandCycle(o.op)
    case INDX | ZPX => Control(ai := XToAi, bi := DlToBi)
    case ZPY => Control(ai := YToAi, bi := DlToBi)
    case INDY => Control(abh := ZeroToAbh, abl := DlToAbl, ai := ZeroToAi, bi := DlToBi)
    case ZP => Control(dor := StoreSource(o.op), abh := ZeroToAbh, abl := DlToAbl)
    case ACC => Control(ai := AcToAi, bi := AcToBi)
    case REL => Control(pc := LoadPrgByte, ai := DlToAi, bi := PclToBi)
    case IMP =>
      match o.op
      case BRK =>
        Control(pc := if service.SOFT? then IncpcNoload else NoPc,
                dor := PchToDor, abh := OneToAbh, abl := SToAbl, ai := Neg1ToAi, bi := SToBi)
      case CLC => Control(op := FlagOp(CarryFlag, false))
      case CLD => Control(op := FlagOp(DecimalFlag, false))
      case CLI => Control(op := FlagOp(InterruptFlag, false))
      case CLV => Control(op := FlagOp(OverflowFlag, false))
      case DEX => Control(ai := XToAi, bi := Neg1ToBi)
      case DEY => Control(ai := YToAi, bi := Neg1ToBi)
      case HLT => Control(line := Break)
      case INX => Control(ai := ZeroToAi, bi := XToBi)
      case INY => Control(ai := ZeroToAi, bi := YToBi)
      case JSR => Control(pc := IncpcNoload, abh := OneToAbh, abl := SToAbl, bi := SToBi, s := DlToS)
      case PHA => Control(dor := AcToDor, abh := OneToAbh, abl := SToAbl)
      case PHP => Control(dor := PToDor, abh := OneToAbh, abl := SToAbl)
      case PLA | PLP | RTI | RTS => Control(ai := ZeroToAi, bi := SToBi)
      case SEC => Control(op := FlagOp(CarryFlag, true))
      case SED => Control(op := FlagOp(DecimalFlag, true))
      case SEI => Control(op := FlagOp(InterruptFlag, true))
      case TAX => Control(op := TransferOp(A, X))
      case TAY => Control(op := TransferOp(A, Y))
      case TSX => Control(op := TransferOp(S, X))
      case TXA => Control(op := TransferOp(X, A))
      case TXS => Control(op := TransferOp(X, S))
      case TYA => Control(op := TransferOp(Y, A))
      case _ => Control()
  }

  function DecodeT2(o: Opcode, backward: bool): Control {
    match o.mode
    case ABS =>
      if o.op.JMP? then Control(pch := DlToPch, pcl := AlusumToPcl, abh := DlToAbh, abl := AlusumToAbl)
      else Control(dor := StoreSource(o.op), abh := DlToAbh, abl := AlusumToAbl)
    case IND => Control(abh := DlToAbh, abl := AlusumToAbl)
    case ABSX | ABSY => Control(abh := DlToAbh, abl := AlusumToAbl, ai := ZeroToAi, bi := DlToBi)
    case IMM => ResultCycle(o.op)
    case INDX => Control(abh := ZeroToAbh, abl := AlusumToAbl)
    case ZPX | ZPY => Control(dor := StoreSource(o.op), abh := ZeroToAbh, abl := AlusumToAbl)
    case INDY => Control(abh := ZeroToAbh, abl := AluincToAbl, ai := YToAi, bi := DlToBi)
    case ZP => OperandCycle(o.op)
    case ACC =>
      (match o.op
       case ASL => Control(pc := LoadPrgByte, op := AluOp(AslAcc))
       case LSR => Control(pc := LoadPrgByte, op := AluOp(LsrAcc))
       case ROL => Control(pc := LoadPrgByte, op := AluOp(RolAcc))
       case ROR => Control(pc := LoadPrgByte, op := AluOp(RorAcc))
       case _ => Control())
    case REL => 
      Control(pcl := AlusumToPcl, abl := AlusumToAbl, bi := PchToBi,
              ai := if backward then Neg1ToAi else OneToAi)
    case IMP =>
      match o.op
      case BRK => Control(dor := PclToDor, abl := AlusumToAbl, bi := AlusumToBi, write := true)
      case DEX => Control(pc := LoadPrgByte, op := AluOp(Dex))
      case DEY => Control(pc := LoadPrgByte, op := AluOp(Dey))
      case INX => Control(pc := LoadPrgByte, op := AluOp(Inx))
      case INY => Control(pc := LoadPrgByte, op := AluOp(Iny))
      case JSR => Control(dor := PchToDor, ai := Neg1ToAi)
      case PHA | PHP => Control(pc := LoadPrgByteNoinc, ai := SToAi, bi := Neg1ToBi, write := true)
      case PLA | PLP => Control(abh := OneToAbh, abl := AluincToAbl, s := AluincToS)
      case RTI | RTS => Control(abh := OneToAbh, abl := AluincToAbl, bi := AluincToBi)
      case _ => Control()
  }

  function DecodeT3(o: Opcode, pageCross: bool): Control {
    match o.mode
    case ABS | ZPX | ZPY => OperandCycle(o.op)
    case ABSX | ABSY => Control(dor := StoreSource(o.op), abh := if pageCross then AluincToAbh else NoAbh)
    case INDX => Control(abh := ZeroToAbh, abl := AluincToAbl, ai := ZeroToAi, bi := DlToBi)
    case INDY => Control(abh := DlToAbh, abl := AlusumToAbl, ai := ZeroToAi, bi := DlToBi)
    case ZP => ResultCycle(o.op)
    case REL => Control(pch := AlusumToPch, abh := AlusumToAbh)
    case IND => Control(abl := AluincToAbl, ai := ZeroToAi, bi := DlToBi)
    case IMP =>
      (match o.op
       case BRK => Control(dor := PToDor, abl := AlusumToAbl, bi := AlusumToBi, write := true)
       case JSR => Control(dor := PclToDor, abl := AlusumToAbl, bi := AlusumToBi, write := true)
       case PHA | PHP => Control(pc := LoadPrgByte, s := AlusumToS)
       case PLA => Control(pc := LoadPrgByteNoinc, op := LoadOp(A))
       case PLP => Control(pc := LoadPrgByteNoinc, p := DlToP)
       case RTI => Control(abl := AluincToAbl, bi := AluincToBi, p := DlToP)
       case RTS => Control(abl := AluincToAbl, s := DlToS)
       case _ => Control())
    case _ => Control()
  }

  function DecodeT4(o: Opcode, pageCross: bool, service: Service): Control {
    match o.mode
    case ABS | ZPX => ResultCycle(o.op)
    case ABSX | ABSY => OperandCycle(o.op)
    case INDX => Control(dor := StoreSource(o.op), abh := DlToAbh, abl := AlusumToAbl)
    case INDY => Control(dor := StoreSource(o.op), abh := if pageCross then AluincToAbh else NoAbh)
    case ZP => WriteBackCycle(o.op)
    case IND => Control(pch := DlToPch, pcl := AlusumToPcl, abh := DlToAbh, abl := AlusumToAbl)
    case IMP =>
      (match o.op
       case BRK => Control(abh := FfToAbh, abl := VectorLow(service), p := OneToI, write := true)
       case JSR => Control(pc := LoadPrgByteNoinc, write := true)
       case RTI => Control(abl := AluincToAbl, s := DlToS)
       case RTS => Control(pch := DlToPch, pcl := SToPcl, s := AluincToS)
       case _ => Control())
    case _ => Control()
  }

  function DecodeT5(o: Opcode, service: Service): Control {
    match o.mode
    case ABS | ZPX => WriteBackCycle(o.op)
    case ABSX | ABSY => ResultCycle(o.op)
    case INDX | INDY => OperandCycle(o.op)
    case IMP =>
      (match o.op
       case BRK => Control(abh := FfToAbh, abl := VectorHigh(service), s := DlToS)
       case JSR => Control(pch := DlToPch, pcl := SToPcl, abh := DlToAbh, abl := SToAbl, s := AlusumToS)
       case RTI => Control(pch := DlToPch, pcl := SToPcl, abh := DlToAbh, abl := SToAbl, s := AluincToS)
       case RTS => Control(pc := LoadPrgByte)
       case _ => Control())
    case _ => Control()
  }

  function DecodeT6(o: Opcode, service: Service): Control {
    match o.mode
    case ABSX => WriteBackCycle(o.op)
    case INDX | INDY => ResultCycle(o.op)
    case IMP =>
      if o.op.BRK? then
        Control(pch := DlToPch, pcl := SToPcl, abh := DlToAbh, abl := SToAbl, s := AlusumToS,
                line := ServiceDone(service))
      else Control()
    case _ => Control()
  }

  function DecodeRom(q: Core): Control {
    match q.t
    case 0 => Control(pc := LoadPrgByte)
    case 1 => DecodeT1(q.ir, q.service)
    case 2 => DecodeT2(q.ir, q.ai >= 0x80)
    case 3 => DecodeT3(q.ir, q.acr)
    case 4 => DecodeT4(q.ir, q.acr, q.service)
    case 5 => DecodeT5(q.ir, q.service)
    case 6 => DecodeT6(q.ir, q.service)
    case _ => Control()
  }

  // ---------------------------------------------------------------------------------------------
  // ALU
  // ---------------------------------------------------------------------------------------------

  predicate Aluinc(k: Control) {
    k.abh.AluincToAbh? || k.abl.AluincToAbl? || k.bi.AluincToBi? || k.s.AluincToS?
  }

  predicate Alusum(k: Control) {
    k.abh.AlusumToAbh? || k.abl.AlusumToAbl? || k.bi.AlusumToBi? || k.pch.AlusumToPch? ||
    k.pcl.AlusumToPcl? || k.s.AlusumToS?
  }

  datatype AluResult = AluResult(out: Byte, carry: bool, overflow: bool)

  function Add(ai: Byte, bi: Byte, carry: bool): AluResult {
    var total := ai + bi + B(carry);
    var out, acr := total % 0x100, total >= 0x100;
    AluResult(out, acr, (((ai >= 0x80) != (bi >= 0x80)) != (out >= 0x80)) != acr)
  }

  function ShiftRight(bi: Byte, carry: bool): AluResult {
    AluResult(0x80 * B(carry) + bi / 2, bi % 2 == 1, false)
  }

  /** The ALU as a function of its input registers and the carry flag. */
  function AluOutput(f: AluFunction, ai: Byte, bi: Byte, c: bool): AluResult {
    match f
    case And | BitTst => AluResult(And8(ai, bi), false, false)
    case Eor => AluResult(Xor8(ai, bi), false, false)
    case Ora => AluResult(Or8(ai, bi), false, false)
    case LsrAcc | LsrMem => ShiftRight(bi, false)
    case RorAcc | RorMem => ShiftRight(bi, c)
    case Adc | RolAcc | RolMem => Add(ai, bi, c)
    case Cmp | Inc | Inx | Iny => Add(ai, bi, true)
    case AslAcc | AslMem | Dec | Dex | Dey => Add(ai, bi, false)
  }

  /** With nothing to do the ALU offers the adder hold register its own value. */
  function Alu(k: Control, q: Core): AluResult {
    if k.op.AluOp? then AluOutput(k.op.f, q.ai, q.bi, q.r.c)
    else if Aluinc(k) || Alusum(k) then Add(q.ai, q.bi, Aluinc(k))
    else AluResult(q.add, false, false)
  }

  // ---------------------------------------------------------------------------------------------
  // Internal buses
  // ---------------------------------------------------------------------------------------------

  /** A precharged bus: a floating bus reads as all ones, and drivers only pull lines low. */
  datatype Bus = Floating | Driven(value: Byte)

  function Level(bus: Bus): Byte { if bus.Floating? then 0xFF else bus.value }

  /** Two buses joined by a pass transistor, or two drivers of one bus. */
  function Join(a: Bus, b: Bus): Bus {
    if a.Floating? then b else if b.Floating? then a else Driven(And8(a.value, b.value))
  }

  /** Joining is the bitwise AND of what the two buses read. */
  lemma JoinIsAnd(a: Bus, b: Bus)
    ensures Level(Join(a, b)) == And8(Level(a), Level(b))
  {
    Pow2Of8();
    AndOnes(Level(a), 8);
    AndOnes(Level(b), 8);
  }

  function Driver(on: bool, value: Byte): Bus { if on then Driven(value) else Floating }

  function Gate(on: bool, bus: Bus): Bus { if on then bus else Floating }

  function Adl(k: Control, q: Core): Byte {
    if k.abl.AluincToAbl? || k.abl.AlusumToAbl? || k.bi.AluincToBi? || k.bi.AlusumToBi? ||
       k.pcl.AlusumToPcl? then q.add
    else if k.abl.DlToAbl? then q.dl
    else if k.pc.LoadPrgByte? || k.pc.LoadPrgByteNoinc? || k.bi.PclToBi? then q.pcl
    else if k.abl.SToAbl? || k.bi.SToBi? || k.pcl.SToPcl? then q.r.s
    else
      // The vector addresses come from three bits that can be pulled low.
      match k.abl
      case FaToAbl => 0xFA
      case FbToAbl => 0xFB
      case FcToAbl => 0xFC
      case FdToAbl => 0xFD
      case FeToAbl => 0xFE
      case _ => 0xFF
  }

  function AdhIn(k: Control, q: Core): Bus {
    if k.abh.DlToAbh? || k.pch.DlToPch? then Driven(q.dl)
    else if k.pc.LoadPrgByte? || k.pc.LoadPrgByteNoinc? then Driven(q.pch)
    else if k.abh.ZeroToAbh? then Driven(0)
    else if k.abh.OneToAbh? || k.ai.OneToAi? then Driven(1)
    else Floating
  }

  predicate DlDb(k: Control) {
    k.op.LoadOp? || k.ai.DlToAi? || k.bi.DlToBi? || k.bi.InvdlToBi? || k.p.DlToP? || k.s.DlToS?
  }

  function DbIn(k: Control, q: Core): Bus {
    Join(Driver(k.bi.AcToBi? || k.dor.AcToDor? || k.dor.AcXToDor?, q.r.ac),
      Join(Driver(DlDb(k), q.dl),
        Join(Driver(k.dor.PToDor?, Status(q)),
          Join(Driver(k.bi.PchToBi? || k.dor.PchToDor?, q.pch),
            Driver(k.dor.PclToDor?, q.pcl)))))
  }

  predicate AddSb(k: Control) {
    k.op.AluOp? || k.abh.AluincToAbh? || k.abh.AlusumToAbh? || k.pch.AlusumToPch? || k.s.AluincToS? ||
    k.s.AlusumToS?
  }

  predicate TransferFrom(k: Control, reg: Register) { k.op.TransferOp? && k.op.from == reg }

  function SbIn(k: Control, q: Core): Bus {
    Join(Driver(k.ai.AcToAi? || TransferFrom(k, A), q.r.ac),
      Join(Driver(AddSb(k), q.add),
        Join(Driver(k.ai.SToAi? || TransferFrom(k, S), q.r.s),
          Join(Driver(k.ai.XToAi? || k.bi.XToBi? || k.dor.XToDor? || k.dor.AcXToDor? || TransferFrom(k, X), q.r.x),
            Driver(k.ai.YToAi? || k.bi.YToBi? || k.dor.YToDor? || TransferFrom(k, Y), q.r.y)))))
  }

  /** The pass transistor between the SB and ADH buses. */
  predicate SbAdh(k: Control) {
    k.abh.AluincToAbh? || k.abh.AlusumToAbh? || k.pch.AlusumToPch? || k.ai.OneToAi? || k.p.OneToI?
  }

  /** The pass transistor between the SB and DB buses. */
  predicate SbDb(k: Control) {
    k.op.AluOp? || k.op.LoadOp? || (k.op.TransferOp? && !k.op.to.S?) || k.s.DlToS? || k.ai.DlToAi? ||
    k.p.OneToI? || k.bi.XToBi? || k.bi.YToBi? || k.dor.XToDor? || k.dor.AcXToDor? || k.dor.YToDor?
  }

  function AdhOut(k: Control, q: Core): Byte {
    Level(Join(AdhIn(k, q), Join(Gate(SbAdh(k), SbIn(k, q)), Gate(SbAdh(k) && SbDb(k), DbIn(k, q)))))
  }

  function DbOut(k: Control, q: Core): Byte {
    Level(Join(DbIn(k, q), Join(Gate(SbDb(k), SbIn(k, q)), Gate(SbDb(k) && SbAdh(k), AdhIn(k, q)))))
  }

  function SbOut(k: Control, q: Core): Byte {
    Level(Join(SbIn(k, q), Join(Gate(SbDb(k), DbIn(k, q)), Gate(SbAdh(k), AdhIn(k, q)))))
  }

  /** The full status register: bit 4 is clear only while an interrupt request is serviced. */
  function Status(q: Core): Byte { StatusByte(q.r, q.service.SOFT?) }

  // ---------------------------------------------------------------------------------------------
  // One cycle
  // ---------------------------------------------------------------------------------------------

  function Address(q: Core): Word { ToWord(q.abh, q.abl) }

  /** The phase-2 latch, with the external bus: a read, or a write of the data output register. */
  function Phase2(k: Control, inhibitInc: bool, q: Core): Core {
    var inc := (k.pc.IncpcNoload? || k.pc.LoadPrgByte?) && !inhibitInc;
    var pc := if inc then Add16(ToWord(q.pchs, q.pcls), 1) else ToWord(q.pchs, q.pcls);
    var bus := q.mem[Address(q)];
    q.(pch := Hi(pc),
       pcl := Lo(pc),
       dl := if k.write then q.dl else bus,
       pd := if k.write then q.pd else bus,
       add := Alu(k, q).out,
       mem := if k.write then q.mem[Address(q) := q.dor] else q.mem)
  }

  /** ALU operations that load the accumulator. */
  predicate LoadsA(f: AluFunction) {
    f.Adc? || f.And? || f.AslAcc? || f.Eor? || f.LsrAcc? || f.Ora? || f.RolAcc? || f.RorAcc?
  }

  /** ALU operations that load the carry flag. */
  predicate LoadsCarry(f: AluFunction) {
    match f
    case And | BitTst | Eor | Ora | Dec | Dex | Dey | Inc | Inx | Iny => false
    case _ => true
  }

  predicate LoadsFrom(k: Control, reg: Register) {
    (k.op.LoadOp? || k.op.TransferOp?) && k.op.to == reg
  }

  /** No line that loads a register or a flag is raised. */
  predicate RegistersIdle(k: Control) { k.op.NoOp? && k.s.NoS? && k.p.NoP? }

  function NextRegisters(k: Control, alu: AluResult, sb: Byte, db: Byte, r: Registers): Registers {
    var aluOp, f := k.op.AluOp?, if k.op.AluOp? then k.op.f else Dec;
    var result := aluOp || k.op.LoadOp? || (k.op.TransferOp? && !k.op.to.S?);
    var flag := if k.op.FlagOp? then k.op else FlagOp(CarryFlag, false);
    Registers(
      if (aluOp && LoadsA(f)) || LoadsFrom(k, A) then sb else r.ac,
      if (aluOp && (f.Dex? || f.Inx?)) || LoadsFrom(k, X) then sb else r.x,
      if (aluOp && (f.Dey? || f.Iny?)) || LoadsFrom(k, Y) then sb else r.y,
      if !k.s.NoS? || LoadsFrom(k, S) then sb else r.s,
      if aluOp && LoadsCarry(f) then alu.carry else if k.p.DlToP? then Bit(db, 0)
      else if k.op.FlagOp? && flag.flag.CarryFlag? then flag.value else r.c,
      if k.p.DlToP? then Bit(db, 1) else if result then db == 0 else r.z,
      if k.p.DlToP? || k.p.OneToI? then Bit(db, 2)
      else if k.op.FlagOp? && flag.flag.InterruptFlag? then flag.value else r.i,
      if k.p.DlToP? then Bit(db, 3)
      else if k.op.FlagOp? && flag.flag.DecimalFlag? then flag.value else r.d,
      if aluOp && f.Adc? then alu.overflow else if k.p.DlBits67ToP? || k.p.DlToP? then Bit(db, 6)
      else if k.op.FlagOp? && flag.flag.OverflowFlag? then flag.value else r.v,
      if (result && !(aluOp && f.BitTst?)) || k.p.DlBits67ToP? || k.p.DlToP? then db >= 0x80 else r.n)
  }

  /** The phase-1 latch; q is the state after phase 2. */
  function Phase1(k: Control, t: nat, request: Service, q: Core): Core {
    var db, sb, adh, adl := DbOut(k, q), SbOut(k, q), AdhOut(k, q), Adl(k, q);
    var loadsPc := k.pc.LoadPrgByte? || k.pc.LoadPrgByteNoinc?;
    q.(r := if RegistersIdle(k) then q.r else NextRegisters(k, Alu(k, q), sb, db, q.r),
       abh := if loadsPc || !k.abh.NoAbh? then adh else q.abh,
       abl := if loadsPc || !k.abl.NoAbl? then adl else q.abl,
       acr := Alu(k, q).carry,
       ai := if k.ai.NoAi? then q.ai else if k.ai.ZeroToAi? then 0 else sb,
       bi := if k.bi.NoBi? then q.bi
             else if k.bi.InvdlToBi? then 0xFF - db
             else if k.bi.AluincToBi? || k.bi.AlusumToBi? || k.bi.PclToBi? || k.bi.SToBi? then adl
             else db,
       dor := db,
       pchs := if k.pch.NoPch? then q.pch else adh,
       pcls := if k.pcl.NoPcl? then q.pcl else adl,
       ir := if t != 1 then q.ir else if request.SOFT? then OpcodeOf(q.pd) else Opcode(BRK, IMP),
       service := if t != 1 then q.service else request,
       t := t)
  }

  /** One cycle.  The request is what the interrupt logic asks for, SOFT when nothing is pending;
      it is looked at only when the next timing state is T1. */
  function Cycle(q: Core, request: Service): Core {
    var k := DecodeRom(q);
    var t := NextT(q, Alu(k, q).carry);
    Phase1(k, t, request, Phase2(k, t == 1 && !request.SOFT?, q))
  }
}
