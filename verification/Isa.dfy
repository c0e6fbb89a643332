/** The instruction-level 6502: what one instruction does to the registers, the flags and memory. */
module Isa {
  import opened Bytes
  import opened Opcodes
  import opened RegisterFile

  /** The machine between two instructions; pc is the address of the next opcode. */
  datatype Arch = Arch(r: Registers, pc: Word, mem: Memory)

  function Fetch(a: Arch, k: nat): Byte { a.mem[Add16(a.pc, k)] }

  /** The little-endian word at addr and addr + 1, both in page zero. */
  function ZeroPageWord(m: Memory, addr: Byte): Word { ToWord(m[Add8(addr, 1)], m[addr]) }

  /** Where a memory operand lives.  Indexing wraps inside page zero, and at 16 bits elsewhere. */
  function EffectiveAddress(a: Arch, mode: Mode): Word {
    var lo := Fetch(a, 1);
    match mode
    case IMM => Add16(a.pc, 1)
    case ZP => lo
    case ZPX => Add8(lo, a.r.x)
    case ZPY => Add8(lo, a.r.y)
    case INDX => ZeroPageWord(a.mem, Add8(lo, a.r.x))
    case INDY => Add16(ZeroPageWord(a.mem, lo), a.r.y)
    case ABSX => Add16(ToWord(Fetch(a, 2), lo), a.r.x)
    case ABSY => Add16(ToWord(Fetch(a, 2), lo), a.r.y)
    case _ => ToWord(Fetch(a, 2), lo)
  }

  function Length(mode: Mode): (l: nat)
    ensures 1 <= l <= 3
  {
    match mode
    case ABS | ABSX | ABSY | IND => 3
    case ACC | IMP => 1
    case _ => 2
  }

  // ---------------------------------------------------------------------------------------------
  // Flags and arithmetic
  // ---------------------------------------------------------------------------------------------

  function SetNZ(r: Registers, b: Byte): Registers { r.(n := b >= 0x80, z := b == 0) }

  /** V says that the exact signed result does not fit a byte. */
  function AddWithCarry(r: Registers, m: Byte): Registers {
    var sum := r.ac + m + B(r.c);
    var signed := Signed(r.ac) + Signed(m) + B(r.c);
    SetNZ(r, sum % 0x100).(ac := sum % 0x100, c := sum >= 0x100, v := !(-0x80 <= signed < 0x80))
  }

  /** A borrow is a clear carry. */
  function SubWithBorrow(r: Registers, m: Byte): Registers {
    var diff := r.ac - m - B(!r.c);
    var signed := Signed(r.ac) - Signed(m) - B(!r.c);
    SetNZ(r, diff % 0x100).(ac := diff % 0x100, c := diff >= 0, v := !(-0x80 <= signed < 0x80))
  }

  function Compare(r: Registers, reg: Byte, m: Byte): Registers {
    SetNZ(r, (reg - m) % 0x100).(c := reg >= m)
  }

  function BitTest(r: Registers, m: Byte): Registers {
    r.(n := m >= 0x80, v := Bit(m, 6), z := And8(r.ac, m) == 0)
  }

  function LoadA(r: Registers, m: Byte): Registers { SetNZ(r, m).(ac := m) }

  function LoadX(r: Registers, m: Byte): Registers { SetNZ(r, m).(x := m) }

  function LoadY(r: Registers, m: Byte): Registers { SetNZ(r, m).(y := m) }

  /** Instructions that read an operand and change registers or flags only. */
  function ReadOp(r: Registers, op: Op, m: Byte): Registers {
    match op
    case ADC => AddWithCarry(r, m)
    case SBC => SubWithBorrow(r, m)
    case AND => LoadA(r, And8(r.ac, m))
    case ORA => LoadA(r, Or8(r.ac, m))
    case EOR => LoadA(r, Xor8(r.ac, m))
    case BIT => BitTest(r, m)
    case CMP => Compare(r, r.ac, m)
    case CPX => Compare(r, r.x, m)
    case CPY => Compare(r, r.y, m)
    case LDA => LoadA(r, m)
    case LDX => LoadX(r, m)
    case LDY => LoadY(r, m)
    case _ => r
  }

  /** The byte a read-modify-write instruction leaves behind. */
  function Modified(op: Op, m: Byte, c: bool): Byte {
    match op
    case ASL => 2 * m % 0x100
    case ROL => (2 * m + B(c)) % 0x100
    case LSR => m / 2
    case ROR => m / 2 + 0x80 * B(c)
    case INC => Add8(m, 1)
    case DEC => Add8(m, -1)
    case _ => m
  }

  /** The carry after a read-modify-write instruction. */
  predicate ModifiedCarry(op: Op, m: Byte, c: bool) {
    match op
    case ASL | ROL => m >= 0x80
    case LSR | ROR => m % 2 == 1
    case _ => c
  }

  function ModifyFlags(r: Registers, op: Op, m: Byte): Registers {
    SetNZ(r, Modified(op, m, r.c)).(c := ModifiedCarry(op, m, r.c))
  }

  function StoreValue(r: Registers, op: Op): Byte {
    match op
    case STX => r.x
    case STY => r.y
    case SAX => And8(r.ac, r.x)
    case _ => r.ac
  }

  predicate BranchTaken(r: Registers, op: Op) {
    match op
    case BCC => !r.c
    case BCS => r.c
    case BNE => !r.z
    case BEQ => r.z
    case BPL => !r.n
    case BMI => r.n
    case BVC => !r.v
    case BVS => r.v
    case _ => false
  }

  function SetStatus(r: Registers, p: Byte): Registers {
    r.(n := p >= 0x80, v := Bit(p, 6), d := Bit(p, 3), i := Bit(p, 2), z := Bit(p, 1), c := Bit(p, 0))
  }

  function FlagResult(r: Registers, op: Op): Registers {
    match op
    case CLC => r.(c := false)
    case CLD => r.(d := false)
    case CLI => r.(i := false)
    case CLV => r.(v := false)
    case SEC => r.(c := true)
    case SED => r.(d := true)
    case SEI => r.(i := true)
    case _ => r
  }

  function StepResult(r: Registers, op: Op): Registers {
    match op
    case DEX => LoadX(r, Add8(r.x, -1))
    case DEY => LoadY(r, Add8(r.y, -1))
    case INX => LoadX(r, Add8(r.x, 1))
    case INY => LoadY(r, Add8(r.y, 1))
    case _ => r
  }

  function TransferResult(r: Registers, op: Op): Registers {
    match op
    case TAX => LoadX(r, r.ac)
    case TAY => LoadY(r, r.ac)
    case TSX => LoadX(r, r.s)
    case TXA => LoadA(r, r.x)
    case TYA => LoadA(r, r.y)
    case TXS => r.(s := r.x)
    case _ => r
  }

  /** Instructions without an operand that only change registers and flags. */
  function RegisterOp(r: Registers, op: Op): Registers {
    if IsFlagOp(op) then FlagResult(r, op)
    else if IsStep(op) then StepResult(r, op)
    else if IsTransfer(op) then TransferResult(r, op)
    else r
  }

  // ---------------------------------------------------------------------------------------------
  // Stack
  // ---------------------------------------------------------------------------------------------

  function Push(a: Arch, b: Byte): Arch {
    a.(mem := a.mem[ToWord(1, a.r.s) := b], r := a.r.(s := Add8(a.r.s, -1)))
  }

  /** The byte k places above the stack pointer. */
  function Stacked(a: Arch, k: nat): Byte { a.mem[ToWord(1, Add8(a.r.s, k))] }

  function Pop(r: Registers, k: nat): Registers { r.(s := Add8(r.s, k)) }

  // ---------------------------------------------------------------------------------------------
  // Instructions
  // ---------------------------------------------------------------------------------------------

  function Next(a: Arch, mode: Mode): Arch { a.(pc := Add16(a.pc, Length(mode))) }

  /** Push PC and status, mask interrupts and go through a vector. */
  function Interrupt(a: Arch, ret: Word, b: bool, vector: Word): Arch
    requires vector < 0xFFFF
  {
    var p := Push(Push(Push(a, Hi(ret)), Lo(ret)), StatusByte(a.r, b));
    p.(r := p.r.(i := true), pc := ToWord(p.mem[vector + 1], p.mem[vector]))
  }

  /** The high byte of the target is fetched after the return address has been pushed. */
  function JumpToSubroutine(a: Arch): Arch {
    var ret := Add16(a.pc, 2);
    var p := Push(Push(a, Hi(ret)), Lo(ret));
    p.(pc := ToWord(Fetch(p, 2), Fetch(a, 1)))
  }

  function ReturnFromSubroutine(a: Arch): Arch {
    a.(r := Pop(a.r, 2), pc := Add16(ToWord(Stacked(a, 2), Stacked(a, 1)), 1))
  }

  function ReturnFromInterrupt(a: Arch): Arch {
    a.(r := SetStatus(Pop(a.r, 3), Stacked(a, 1)), pc := ToWord(Stacked(a, 3), Stacked(a, 2)))
  }

  function ExecImplied(a: Arch, op: Op): Arch {
    match op
    case JSR => JumpToSubroutine(a)
    case RTS => ReturnFromSubroutine(a)
    case RTI => ReturnFromInterrupt(a)
    case BRK => Interrupt(a, Add16(a.pc, 2), true, 0xFFFE)
    case PHA => Next(Push(a, a.r.ac), IMP)
    case PHP => Next(Push(a, StatusByte(a.r, true)), IMP)
    case PLA => Next(a.(r := LoadA(Pop(a.r, 1), Stacked(a, 1))), IMP)
    case PLP => Next(a.(r := SetStatus(Pop(a.r, 1), Stacked(a, 1))), IMP)
    case _ => Next(a.(r := RegisterOp(a.r, op)), IMP)
  }

  /** A taken branch adds its signed offset to the address of the next instruction. */
  function ExecBranch(a: Arch, op: Op): Arch {
    var next := Next(a, REL);
    if BranchTaken(a.r, op) then next.(pc := Add16(next.pc, Signed(Fetch(a, 1)))) else next
  }

  function ExecMemory(a: Arch, op: Op, mode: Mode): Arch {
    var ea := EffectiveAddress(a, mode);
    if IsStore(op) then Next(a.(mem := a.mem[ea := StoreValue(a.r, op)]), mode)
    else if IsRmw(op) then
      Next(a.(r := ModifyFlags(a.r, op, a.mem[ea]), mem := a.mem[ea := Modified(op, a.mem[ea], a.r.c)]), mode)
    else Next(a.(r := ReadOp(a.r, op, a.mem[ea])), mode)
  }

  /** The pointer of an indirect jump does not carry into its high byte. */
  function IndirectTarget(a: Arch): Word {
    var lo, hi := Fetch(a, 1), Fetch(a, 2);
    ToWord(a.mem[ToWord(hi, Add8(lo, 1))], a.mem[ToWord(hi, lo)])
  }

  function Execute(a: Arch, o: Opcode): Arch {
    match o.mode
    case ACC => Next(a.(r := ModifyFlags(a.r, o.op, a.r.ac).(ac := Modified(o.op, a.r.ac, a.r.c))), ACC)
    case REL => ExecBranch(a, o.op)
    case IND => a.(pc := IndirectTarget(a))
    case IMP => ExecImplied(a, o.op)
    case ABS => if o.op.JMP? then a.(pc := EffectiveAddress(a, ABS)) else ExecMemory(a, o.op, ABS)
    case _ => ExecMemory(a, o.op, o.mode)
  }

  /** One instruction. */
  function Exec(a: Arch): Arch { Execute(a, OpcodeOf(a.mem[a.pc])) }

  /** n instructions. */
  function Run(a: Arch, n: nat): Arch
    decreases n
  {
    if n == 0 then a else Run(Exec(a), n - 1)
  }

  lemma {:induction false} RunAdds(a: Arch, m: nat, n: nat)
    ensures Run(a, m + n) == Run(Run(a, m), n)
    decreases m
  {
    hide Exec;
    if m == 0 {
    } else {
      RunAdds(Exec(a), m - 1, n);
    }
  }
}
