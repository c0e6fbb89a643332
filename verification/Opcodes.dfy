/** The opcode map of the core: every opcode byte as a mnemonic and an addressing mode. */
module Opcodes {
  import opened Bytes

  datatype Op =
    | ADC | AND | ASL | BCC | BCS | BEQ | BIT | BMI | BNE | BPL | BRK | BVC | BVS | CLC
    | CLD | CLI | CLV | CMP | CPX | CPY | DEC | DEX | DEY | EOR | HLT | INC | INX | INY
    | JMP | JSR | LDA | LDX | LDY | LSR | NOP | ORA | PHA | PHP | PLA | PLP | ROL | ROR
    | RTI | RTS | SAX | SBC | SEC | SED | SEI | STA | STX | STY | TAX | TAY | TSX | TXA
    | TXS | TYA
    | ILLEGAL

  datatype Mode = ABS | ABSX | ABSY | IMM | INDX | INDY | ZP | ZPX | ZPY | ACC | REL | IND | IMP

  datatype Opcode = Opcode(op: Op, mode: Mode)

  /** ALU instructions: the next opcode is prefetched while the ALU result is latched. */
  predicate IsAlu(op: Op) {
    op.ADC? || op.AND? || op.BIT? || op.CMP? || op.CPX? || op.CPY? || op.EOR? || op.ORA? || op.SBC?
  }

  predicate IsLoad(op: Op) { op.LDA? || op.LDX? || op.LDY? }

  predicate IsStore(op: Op) { op.STA? || op.STX? || op.STY? || op.SAX? }

  predicate IsShift(op: Op) { op.ASL? || op.LSR? || op.ROL? || op.ROR? }

  /** Instructions that read a memory byte, change it and write it back. */
  predicate IsRmw(op: Op) { IsShift(op) || op.DEC? || op.INC? }

  /** The ALU instructions that exist in every indexed addressing mode. */
  predicate IsIndexableAlu(op: Op) { IsAlu(op) && !op.BIT? && !op.CPX? && !op.CPY? }

  predicate IsBranch(op: Op) {
    op.BCC? || op.BCS? || op.BEQ? || op.BMI? || op.BNE? || op.BPL? || op.BVC? || op.BVS?
  }

  predicate IsFlagOp(op: Op) {
    op.CLC? || op.CLD? || op.CLI? || op.CLV? || op.SEC? || op.SED? || op.SEI?
  }

  /** The register increments and decrements. */
  predicate IsStep(op: Op) { op.DEX? || op.DEY? || op.INX? || op.INY? }

  predicate IsTransfer(op: Op) { op.TAX? || op.TAY? || op.TSX? || op.TXA? || op.TYA? || op.TXS? }

  /** The combinations of mnemonic and addressing mode that the opcode map holds. */
  predicate Legal(o: Opcode) {
    var op := o.op;
    match o.mode
    case ABS => IsAlu(op) || IsLoad(op) || IsStore(op) || IsRmw(op) || op.JMP?
    case ABSX => IsIndexableAlu(op) || op.LDA? || op.LDY? || op.STA? || IsRmw(op)
    case ABSY => IsIndexableAlu(op) || op.LDA? || op.LDX? || op.STA?
    case IMM => (IsAlu(op) && !op.BIT?) || IsLoad(op)
    case INDX => IsIndexableAlu(op) || op.LDA? || op.STA? || op.SAX?
    case INDY => IsIndexableAlu(op) || op.LDA? || op.STA?
    case ZP => IsAlu(op) || IsLoad(op) || IsStore(op) || IsRmw(op)
    case ZPX => IsIndexableAlu(op) || op.LDA? || op.LDY? || op.STA? || op.STY? || IsRmw(op)
    case ZPY => op.LDX? || op.STX? || op.SAX?
    case ACC => IsShift(op)
    case REL => IsBranch(op)
    case IND => op.JMP?
    case IMP =>
      !(IsAlu(op) || IsLoad(op) || IsStore(op) || IsRmw(op) || IsBranch(op) || op.JMP?)
  }

  function Row01(b: Byte): (o: Opcode)
    ensures Legal(o)
  {
    match b
    case 0x00 => Opcode(BRK, IMP)    case 0x01 => Opcode(ORA, INDX)   case 0x02 => Opcode(HLT, IMP)
    case 0x05 => Opcode(ORA, ZP)     case 0x06 => Opcode(ASL, ZP)     case 0x08 => Opcode(PHP, IMP)
    case 0x09 => Opcode(ORA, IMM)    case 0x0A => Opcode(ASL, ACC)    case 0x0D => Opcode(ORA, ABS)
    case 0x0E => Opcode(ASL, ABS)    case 0x10 => Opcode(BPL, REL)    case 0x11 => Opcode(ORA, INDY)
    case 0x15 => Opcode(ORA, ZPX)    case 0x16 => Opcode(ASL, ZPX)    case 0x18 => Opcode(CLC, IMP)
    case 0x19 => Opcode(ORA, ABSY)   case 0x1D => Opcode(ORA, ABSX)   case 0x1E => Opcode(ASL, ABSX)
    case _ => Opcode(ILLEGAL, IMP)
  }

  function Row23(b: Byte): (o: Opcode)
    ensures Legal(o)
  {
    match b
    case 0x20 => Opcode(JSR, IMP)    case 0x21 => Opcode(AND, INDX)   case 0x24 => Opcode(BIT, ZP)
    case 0x25 => Opcode(AND, ZP)     case 0x26 => Opcode(ROL, ZP)     case 0x28 => Opcode(PLP, IMP)
    case 0x29 => Opcode(AND, IMM)    case 0x2A => Opcode(ROL, ACC)    case 0x2C => Opcode(BIT, ABS)
    case 0x2D => Opcode(AND, ABS)    case 0x2E => Opcode(ROL, ABS)    case 0x30 => Opcode(BMI, REL)
    case 0x31 => Opcode(AND, INDY)   case 0x35 => Opcode(AND, ZPX)    case 0x36 => Opcode(ROL, ZPX)
    case 0x38 => Opcode(SEC, IMP)    case 0x39 => Opcode(AND, ABSY)   case 0x3D => Opcode(AND, ABSX)
    case 0x3E => Opcode(ROL, ABSX)
    case _ => Opcode(ILLEGAL, IMP)
  }

  function Row45(b: Byte): (o: Opcode)
    ensures Legal(o)
  {
    match b
    case 0x40 => Opcode(RTI, IMP)    case 0x41 => Opcode(EOR, INDX)   case 0x45 => Opcode(EOR, ZP)
    case 0x46 => Opcode(LSR, ZP)     case 0x48 => Opcode(PHA, IMP)    case 0x49 => Opcode(EOR, IMM)
    case 0x4A => Opcode(LSR, ACC)    case 0x4C => Opcode(JMP, ABS)    case 0x4D => Opcode(EOR, ABS)
    case 0x4E => Opcode(LSR, ABS)    case 0x50 => Opcode(BVC, REL)    case 0x51 => Opcode(EOR, INDY)
    case 0x55 => Opcode(EOR, ZPX)    case 0x56 => Opcode(LSR, ZPX)    case 0x58 => Opcode(CLI, IMP)
    case 0x59 => Opcode(EOR, ABSY)   case 0x5D => Opcode(EOR, ABSX)   case 0x5E => Opcode(LSR, ABSX)
    case _ => Opcode(ILLEGAL, IMP)
  }

  function Row67(b: Byte): (o: Opcode)
    ensures Legal(o)
  {
    match b
    case 0x60 => Opcode(RTS, IMP)    case 0x61 => Opcode(ADC, INDX)   case 0x65 => Opcode(ADC, ZP)
    case 0x66 => Opcode(ROR, ZP)     case 0x68 => Opcode(PLA, IMP)    case 0x69 => Opcode(ADC, IMM)
    case 0x6A => Opcode(ROR, ACC)    case 0x6C => Opcode(JMP, IND)    case 0x6D => Opcode(ADC, ABS)
    case 0x6E => Opcode(ROR, ABS)    case 0x70 => Opcode(BVS, REL)    case 0x71 => Opcode(ADC, INDY)
    case 0x75 => Opcode(ADC, ZPX)    case 0x76 => Opcode(ROR, ZPX)    case 0x78 => Opcode(SEI, IMP)
    case 0x79 => Opcode(ADC, ABSY)   case 0x7D => Opcode(ADC, ABSX)   case 0x7E => Opcode(ROR, ABSX)
    case _ => Opcode(ILLEGAL, IMP)
  }

  function Row89(b: Byte): (o: Opcode)
    ensures Legal(o)
  {
    match b
    case 0x81 => Opcode(STA, INDX)   case 0x83 => Opcode(SAX, INDX)   case 0x84 => Opcode(STY, ZP)
    case 0x85 => Opcode(STA, ZP)     case 0x86 => Opcode(STX, ZP)     case 0x87 => Opcode(SAX, ZP)
    case 0x88 => Opcode(DEY, IMP)    case 0x8A => Opcode(TXA, IMP)    case 0x8C => Opcode(STY, ABS)
    case 0x8D => Opcode(STA, ABS)    case 0x8E => Opcode(STX, ABS)    case 0x8F => Opcode(SAX, ABS)
    case 0x90 => Opcode(BCC, REL)    case 0x91 => Opcode(STA, INDY)   case 0x94 => Opcode(STY, ZPX)
    case 0x95 => Opcode(STA, ZPX)    case 0x96 => Opcode(STX, ZPY)    case 0x97 => Opcode(SAX, ZPY)
    case 0x98 => Opcode(TYA, IMP)    case 0x99 => Opcode(STA, ABSY)   case 0x9A => Opcode(TXS, IMP)
    case 0x9D => Opcode(STA, ABSX)
    case _ => Opcode(ILLEGAL, IMP)
  }

  function RowAB(b: Byte): (o: Opcode)
    ensures Legal(o)
  {
    match b
    case 0xA0 => Opcode(LDY, IMM)    case 0xA1 => Opcode(LDA, INDX)   case 0xA2 => Opcode(LDX, IMM)
    case 0xA4 => Opcode(LDY, ZP)     case 0xA5 => Opcode(LDA, ZP)     case 0xA6 => Opcode(LDX, ZP)
    case 0xA8 => Opcode(TAY, IMP)    case 0xA9 => Opcode(LDA, IMM)    case 0xAA => Opcode(TAX, IMP)
    case 0xAC => Opcode(LDY, ABS)    case 0xAD => Opcode(LDA, ABS)    case 0xAE => Opcode(LDX, ABS)
    case 0xB0 => Opcode(BCS, REL)    case 0xB1 => Opcode(LDA, INDY)   case 0xB4 => Opcode(LDY, ZPX)
    case 0xB5 => Opcode(LDA, ZPX)    case 0xB6 => Opcode(LDX, ZPY)    case 0xB8 => Opcode(CLV, IMP)
    case 0xB9 => Opcode(LDA, ABSY)   case 0xBA => Opcode(TSX, IMP)    case 0xBC => Opcode(LDY, ABSX)
    case 0xBD => Opcode(LDA, ABSX)   case 0xBE => Opcode(LDX, ABSY)
    case _ => Opcode(ILLEGAL, IMP)
  }

  function RowCD(b: Byte): (o: Opcode)
    ensures Legal(o)
  {
    match b
    case 0xC0 => Opcode(CPY, IMM)    case 0xC1 => Opcode(CMP, INDX)   case 0xC4 => Opcode(CPY, ZP)
    case 0xC5 => Opcode(CMP, ZP)     case 0xC6 => Opcode(DEC, ZP)     case 0xC8 => Opcode(INY, IMP)
    case 0xC9 => Opcode(CMP, IMM)    case 0xCA => Opcode(DEX, IMP)    case 0xCC => Opcode(CPY, ABS)
    case 0xCD => Opcode(CMP, ABS)    case 0xCE => Opcode(DEC, ABS)    case 0xD0 => Opcode(BNE, REL)
    case 0xD1 => Opcode(CMP, INDY)   case 0xD5 => Opcode(CMP, ZPX)    case 0xD6 => Opcode(DEC, ZPX)
    case 0xD8 => Opcode(CLD, IMP)    case 0xD9 => Opcode(CMP, ABSY)   case 0xDD => Opcode(CMP, ABSX)
    case 0xDE => Opcode(DEC, ABSX)
    case _ => Opcode(ILLEGAL, IMP)
  }

  function RowEF(b: Byte): (o: Opcode)
    ensures Legal(o)
  {
    match b
    case 0xE0 => Opcode(CPX, IMM)    case 0xE1 => Opcode(SBC, INDX)   case 0xE4 => Opcode(CPX, ZP)
    case 0xE5 => Opcode(SBC, ZP)     case 0xE6 => Opcode(INC, ZP)     case 0xE8 => Opcode(INX, IMP)
    case 0xE9 => Opcode(SBC, IMM)    case 0xEA => Opcode(NOP, IMP)    case 0xEC => Opcode(CPX, ABS)
    case 0xED => Opcode(SBC, ABS)    case 0xEE => Opcode(INC, ABS)    case 0xF0 => Opcode(BEQ, REL)
    case 0xF1 => Opcode(SBC, INDY)   case 0xF5 => Opcode(SBC, ZPX)    case 0xF6 => Opcode(INC, ZPX)
    case 0xF8 => Opcode(SED, IMP)    case 0xF9 => Opcode(SBC, ABSY)   case 0xFD => Opcode(SBC, ABSX)
    case 0xFE => Opcode(INC, ABSX)
    case _ => Opcode(ILLEGAL, IMP)
  }

  /** Bytes the core does not know decode to ILLEGAL, for which no control signal is ever raised. */
  function OpcodeOf(b: Byte): (o: Opcode)
    ensures Legal(o)
  {
    if b < 0x20 then Row01(b)
    else if b < 0x40 then Row23(b)
    else if b < 0x60 then Row45(b)
    else if b < 0x80 then Row67(b)
    else if b < 0xA0 then Row89(b)
    else if b < 0xC0 then RowAB(b)
    else if b < 0xE0 then RowCD(b)
    else RowEF(b)
  }
}
