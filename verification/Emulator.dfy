/** The instruction-level emulator that the random core test compares the hardware with. */
module Emulator {
  import opened Bytes
  import opened Opcodes
  import opened RegisterFile
  import opened Isa

  const RAM_SIZE: nat := 0x800

  /** The instructions of the emulator's table: no jumps, branches, SAX, BRK or HLT. */
  predicate Emulated(o: Opcode) {
    Legal(o) && !o.mode.REL? && !o.mode.IND? && !o.op.JMP? && !o.op.SAX? && !o.op.BRK? && !o.op.HLT? &&
    !o.op.JSR? && !o.op.RTS? && !o.op.RTI? && !o.op.ILLEGAL?
  }

  predicate HasAddress(mode: Mode) { !mode.IMM? && !mode.ACC? && !mode.IMP? && !mode.REL? && !mode.IND? }

  class State {
    var ac: Byte
    var x: Byte
    var y: Byte
    var s: Byte
    var c: bool
    var z: bool
    var i: bool
    var d: bool
    var v: bool
    var n: bool
    const ram: array<Byte>

    predicate Valid() { ram.Length == RAM_SIZE }

    function Regs(): Registers
      reads this
    {
      Registers(ac, x, y, s, c, z, i, d, v, n)
    }

    constructor (r: Registers, contents: seq<Byte>)
      requires |contents| == RAM_SIZE
      ensures Valid() && Regs() == r && ram[..] == contents && fresh(ram)
    {
      ac, x, y, s := r.ac, r.x, r.y, r.s;
      c, z, i, d, v, n := r.c, r.z, r.i, r.d, r.v, r.n;
      ram := new Byte[RAM_SIZE](k requires 0 <= k < |contents| => contents[k]);
    }

    /** The emulator state shows what an instruction-level state shows: registers and low memory. */
    ghost predicate Shows(a: Arch)
      reads this, ram
    {
      Valid() && Regs() == a.r && ram[..] == a.mem[..RAM_SIZE]
    }

    /** Where the emulator looks for an operand; it adds index registers without wrapping. */
    function AddressOf(mode: Mode, lo: Byte, hi: Byte): nat
      requires Valid()
      reads this, ram
    {
      var zp := (lo + x) % 256;
      match mode
      case ZP => lo
      case ZPX => zp
      case ZPY => (lo + y) % 256
      case INDX => ToWord(ram[(zp + 1) % 256], ram[zp])
      case INDY => ToWord(ram[(lo + 1) % 256], ram[lo]) + y
      case ABSX => ToWord(hi, lo) + x
      case ABSY => ToWord(hi, lo) + y
      case _ => ToWord(hi, lo)
    }

    method UpdateZ(val: Byte)
      modifies this`z
      ensures z == (val == 0)
    {
      z := val == 0;
    }

    method UpdateN(val: Byte)
      modifies this`n
      ensures n == (val >= 0x80)
    {
      n := val > 127;
    }

    method UpdateNZ(val: Byte)
      modifies this`n, this`z
      ensures Regs() == SetNZ(old(Regs()), val)
    {
      UpdateZ(val);
      UpdateN(val);
    }

    method SetA(val: Byte)
      modifies this`ac, this`n, this`z
      ensures Regs() == LoadA(old(Regs()), val)
    {
      ac := val;
      UpdateNZ(val);
    }

    method SetX(val: Byte)
      modifies this`x, this`n, this`z
      ensures Regs() == LoadX(old(Regs()), val)
    {
      x := val;
      UpdateNZ(val);
    }

    method SetY(val: Byte)
      modifies this`y, this`n, this`z
      ensures Regs() == LoadY(old(Regs()), val)
    {
      y := val;
      UpdateNZ(val);
    }

    method ExecuteAdc(m: Byte)
      modifies this
      ensures Regs() == AddWithCarry(old(Regs()), m)
    {
      var cin := if c then 1 else 0;
      var result := ac + m + cin;
      var a2c: int := ac;
      if ac >= 128 {
        a2c := -(256 - ac);
      }
      var m2c: int := m;
      if m >= 128 {
        m2c := -(256 - m);
      }
      ac := result % 256;
      c := result >= 256;
      z := ac == 0;
      n := ac >= 128;
      var result2c := a2c + m2c + cin;
      v := result2c < -128 || result2c > 127;
    }

    method ExecuteSbc(m: Byte)
      modifies this
      ensures Regs() == SubWithBorrow(old(Regs()), m)
    {
      var cin := if c then 1 else 0;
      var result := ac + (255 - m) + cin;
      var a2c: int := ac;
      if ac >= 128 {
        a2c := -(256 - ac);
      }
      var m2c: int := m;
      if m >= 128 {
        m2c := -(256 - m);
      }
      assert result == ac - m - B(!c) + 0x100;
      ac := result % 256;
      c := result > 255;
      z := ac == 0;
      n := ac >= 128;
      var result2c := a2c - m2c - (1 - cin);
      v := (result2c < 0) != (ac > 127);
    }

    method ExecuteCmp(a: Byte, m: Byte)
      modifies this
      ensures Regs() == Compare(old(Regs()), a, m)
    {
      var result := a - m;
      c := result >= 0;
      z := result == 0;
      n := (result < 0 && result >= -128) || result >= 128;
    }

    method ExecuteBit(m: Byte)
      modifies this
      ensures Regs() == BitTest(old(Regs()), m)
    {
      var result := ComputeResult(BitAnd, ac, m);
      z := result == 0;
      n := m >= 128;
      v := m % 128 >= 64;
      StatusBits(m);
    }

    method ExecuteAsl(m: Byte) returns (result: Byte)
      modifies this`c, this`z, this`n
      ensures result == Modified(ASL, m, old(c)) && Regs() == ModifyFlags(old(Regs()), ASL, m)
    {
      result := (m * 2) % 256;
      c := m * 2 >= 256;
      z := result == 0;
      n := result > 127;
    }

    method ExecuteLsr(m: Byte) returns (result: Byte)
      modifies this`c, this`z, this`n
      ensures result == Modified(LSR, m, old(c)) && Regs() == ModifyFlags(old(Regs()), LSR, m)
    {
      result := m / 2;
      c := m % 2 == 1;
      z := result == 0;
      n := false;
    }

    method ExecuteRol(m: Byte) returns (result: Byte)
      modifies this`c, this`z, this`n
      ensures result == Modified(ROL, m, old(c)) && Regs() == ModifyFlags(old(Regs()), ROL, m)
    {
      result := (m * 2) % 256;
      if c {
        result := result + 1;
      }
      c := m * 2 >= 256;
      z := result == 0;
      n := result > 127;
    }

    method ExecuteRor(m: Byte) returns (result: Byte)
      modifies this`c, this`z, this`n
      ensures result == Modified(ROR, m, old(c)) && Regs() == ModifyFlags(old(Regs()), ROR, m)
    {
      result := m / 2;
      if c {
        result := result + 128;
      }
      c := m % 2 == 1;
      z := result == 0;
      n := result > 127;
    }

    method ExecuteDec(m: Byte) returns (result: Byte)
      modifies this`z, this`n
      ensures result == Add8(m, -1) == Modified(DEC, m, c)
      ensures Regs() == SetNZ(old(Regs()), result) == ModifyFlags(old(Regs()), DEC, m)
    {
      result := 255;
      if m > 0 {
        result := m - 1;
      }
      z := result == 0;
      n := result > 127;
    }

    method ExecuteInc(m: Byte) returns (result: Byte)
      modifies this`z, this`n
      ensures result == Add8(m, 1) == Modified(INC, m, c)
      ensures Regs() == SetNZ(old(Regs()), result) == ModifyFlags(old(Regs()), INC, m)
    {
      result := 0;
      if m < 255 {
        result := m + 1;
      }
      z := result == 0;
      n := result > 127;
    }

    method Push(val: Byte)
      requires Valid()
      modifies this`s, ram
      ensures ram[..] == old(ram[..])[0x100 + old(s) := val] && s == Add8(old(s), -1)
    {
      ram[256 + s] := val;
      if s == 0 {
        s := 255;
      } else {
        s := s - 1;
      }
    }

    method Pull() returns (val: Byte)
      requires Valid()
      modifies this`s
      ensures s == Add8(old(s), 1) && val == ram[0x100 + s]
    {
      s := (s + 1) % 256;
      val := ram[256 + s];
    }

    method StatusToPush() returns (p: Byte)
      ensures p == StatusByte(Regs(), true)
    {
      p := 0;
      if c { p := p + 1; }
      if z { p := p + 2; }
      if i { p := p + 4; }
      if d { p := p + 8; }
      if v { p := p + 64; }
      if n { p := p + 128; }
      p := p + 16;
      p := p + 32;
    }

    /** Takes the bits off the pulled byte from the lowest up; bits 4 and 5 are dropped. */
    method StatusFromPull(pulled: Byte)
      modifies this
      ensures Regs() == SetStatus(old(Regs()), pulled)
    {
      hide Bit;
      StatusBits(pulled);
      var p: int, b: bool, unused: bool := pulled, false, false;
      c, z, i, d, p := PeelNibble(pulled, p, 1);
      b, unused, v, n, p := PeelNibble(pulled, p, 16);
    }

    method EmulateLogic(op: Op, m: Byte)
      requires op.AND? || op.ORA? || op.EOR?
      modifies this`ac, this`n, this`z
      ensures Regs() == ReadOp(old(Regs()), op, m)
    {
      hide And8, Or8, Xor8, LoadA;
      var result := ComputeResult(if op.AND? then BitAnd else if op.ORA? then BitOr else BitXor, ac, m);
      SetA(result);
    }

    method EmulateRead(op: Op, m: Byte)
      requires IsAlu(op) || IsLoad(op)
      modifies this
      ensures Regs() == ReadOp(old(Regs()), op, m)
    {
      hide And8, Or8, Xor8, AddWithCarry, SubWithBorrow, Compare, BitTest, LoadA, LoadX, LoadY, SetNZ;
      if op.ADC? {
        ExecuteAdc(m);
      } else if op.SBC? {
        ExecuteSbc(m);
      } else if op.AND? || op.ORA? || op.EOR? {
        EmulateLogic(op, m);
      } else if op.BIT? {
        ExecuteBit(m);
      } else if op.CMP? {
        ExecuteCmp(ac, m);
      } else if op.CPX? {
        ExecuteCmp(x, m);
      } else if op.CPY? {
        ExecuteCmp(y, m);
      } else if op.LDA? {
        SetA(m);
      } else if op.LDX? {
        SetX(m);
      } else {
        SetY(m);
      }
    }

    method EmulateModify(op: Op, m: Byte) returns (result: Byte)
      requires IsRmw(op)
      modifies this`c, this`z, this`n
      ensures result == Modified(op, m, old(c)) && Regs() == ModifyFlags(old(Regs()), op, m)
    {
      hide Modified, ModifyFlags, SetNZ;
      if op.ASL? {
        result := ExecuteAsl(m);
      } else if op.LSR? {
        result := ExecuteLsr(m);
      } else if op.ROL? {
        result := ExecuteRol(m);
      } else if op.ROR? {
        result := ExecuteRor(m);
      } else if op.DEC? {
        result := ExecuteDec(m);
      } else {
        result := ExecuteInc(m);
      }
    }

    method EmulateFlag(op: Op)
      requires IsFlagOp(op)
      modifies this`c, this`d, this`i, this`v
      ensures Regs() == FlagResult(old(Regs()), op)
    {
      hide FlagResult, IsFlagOp;
      FlagCases(Regs(), op);
      var value := op.SEC? || op.SED? || op.SEI?;
      if op.CLC? || op.SEC? {
        c := value;
      } else if op.CLD? || op.SED? {
        d := value;
      } else if op.CLI? || op.SEI? {
        i := value;
      } else {
        v := value;
      }
    }

    method EmulateStep(op: Op)
      requires IsStep(op)
      modifies this`x, this`y, this`z, this`n
      ensures Regs() == StepResult(old(Regs()), op)
    {
      hide SetNZ, Modified, ModifyFlags, Add8;
      if op.DEX? {
        x := ExecuteDec(x);
      } else if op.DEY? {
        y := ExecuteDec(y);
      } else if op.INX? {
        x := ExecuteInc(x);
      } else {
        y := ExecuteInc(y);
      }
    }

    method EmulateTransfer(op: Op)
      requires IsTransfer(op)
      modifies this`ac, this`x, this`y, this`s, this`z, this`n
      ensures Regs() == TransferResult(old(Regs()), op)
    {
      hide LoadA, LoadX, LoadY, SetNZ, TransferResult, IsTransfer;
      TransferCases(Regs(), op);
      if op.TAX? || op.TSX? {
        SetX(if op.TAX? then ac else s);
      } else if op.TAY? {
        SetY(ac);
      } else if op.TXS? {
        s := x;
      } else {
        SetA(if op.TXA? then x else y);
      }
    }

    method EmulatePush(op: Op, ghost a: Arch)
      requires (op.PHA? || op.PHP?) && Shows(a)
      modifies this, ram
      ensures Shows(ExecImplied(a, op))
    {
      hide StatusByte;
      var p := ac;
      if op.PHP? {
        p := StatusToPush();
      }
      Push(p);
    }

    method EmulatePull(op: Op, ghost a: Arch)
      requires (op.PLA? || op.PLP?) && Shows(a)
      modifies this
      ensures Shows(ExecImplied(a, op))
    {
      hide SetStatus, LoadA;
      assert ram[ToWord(1, Add8(s, 1))] == a.mem[..RAM_SIZE][ToWord(1, Add8(s, 1))];
      var p := Pull();
      if op.PLA? {
        SetA(p);
      } else {
        StatusFromPull(p);
      }
    }

    method EmulateImplied(op: Op, ghost a: Arch)
      requires Emulated(Opcode(op, IMP)) && Shows(a)
      modifies this, ram
      ensures Shows(ExecImplied(a, op))
    {
      hide FlagResult, StepResult, TransferResult;
      if op.PHA? || op.PHP? {
        EmulatePush(op, a);
      } else if op.PLA? || op.PLP? {
        EmulatePull(op, a);
      } else if IsFlagOp(op) {
        EmulateFlag(op);
      } else if IsStep(op) {
        EmulateStep(op);
      } else if IsTransfer(op) {
        EmulateTransfer(op);
      } else {
        assert op.NOP?;
      }
    }

    /** One instruction of the table, with its operand bytes. */
    method EmulateMemory(o: Opcode, lo: Byte, hi: Byte, ghost a: Arch)
      requires Emulated(o) && HasAddress(o.mode) && Shows(a)
      requires lo == Fetch(a, 1) && (Length(o.mode) == 3 ==> hi == Fetch(a, 2))
      requires AddressOf(o.mode, lo, hi) < RAM_SIZE
      modifies this, ram
      ensures Shows(ExecMemory(a, o.op, o.mode))
    {
      hide ReadOp, Modified, ModifyFlags, SetNZ, Legal, EffectiveAddress;
      var addr := AddressOf(o.mode, lo, hi);
      AddressAgrees(a, o.mode, lo, hi);
      AddressedClasses(o);
      if IsStore(o.op) {
        ram[addr] := if o.op.STA? then ac else if o.op.STX? then x else y;
      } else if IsRmw(o.op) {
        var result := EmulateModify(o.op, ram[addr]);
        ram[addr] := result;
      } else {
        EmulateRead(o.op, ram[addr]);
      }
    }

    /** Where it does not run out of RAM the emulator looks where the machine looks. */
    lemma AddressAgrees(a: Arch, mode: Mode, lo: Byte, hi: Byte)
      requires HasAddress(mode) && Shows(a) && lo == Fetch(a, 1) && (Length(mode) == 3 ==> hi == Fetch(a, 2))
      requires AddressOf(mode, lo, hi) < RAM_SIZE
      ensures EffectiveAddress(a, mode) == AddressOf(mode, lo, hi)
    {
      hide Add16, ToWord;
      forall k: Byte ensures ram[k] == a.mem[k] {
        assert ram[..][k] == a.mem[..RAM_SIZE][k];
      }
      match mode {
        case INDY => SmallSum(ZeroPageWord(a.mem, lo), y);
        case ABSX => SmallSum(ToWord(hi, lo), x);
        case ABSY => SmallSum(ToWord(hi, lo), y);
        case _ =>
      }
    }

    method EmulateOperand(o: Opcode, lo: Byte, hi: Byte, ghost a: Arch)
      requires Emulated(o) && o == OpcodeOf(a.mem[a.pc]) && Shows(a)
      requires Length(o.mode) >= 2 ==> lo == Fetch(a, 1)
      requires Length(o.mode) == 3 ==> hi == Fetch(a, 2)
      requires HasAddress(o.mode) ==> AddressOf(o.mode, lo, hi) < RAM_SIZE
      modifies this, ram
      ensures Shows(Exec(a))
    {
      hide OpcodeOf, ExecMemory, ExecImplied, Legal, ReadOp, Modified, ModifyFlags;
      if o.mode.IMP? {
        EmulateImplied(o.op, a);
      } else if o.mode.ACC? {
        AccumulatorClasses(o);
        var result := EmulateModify(o.op, ac);
        ac := result;
        assert Shows(Execute(a, o));
      } else if o.mode.IMM? {
        ImmediateClasses(o);
        EmulateRead(o.op, lo);
        assert Shows(ExecMemory(a, o.op, IMM)) by {
          ImmediateExec(a, o.op);
        }
      } else {
        EmulateMemory(o, lo, hi, a);
      }
    }
  }

  /** The flag and transfer instructions by what they set. */
  lemma FlagCases(r: Registers, op: Op)
    requires IsFlagOp(op)
    ensures var value := op.SEC? || op.SED? || op.SEI?;
      FlagResult(r, op) ==
        if op.CLC? || op.SEC? then r.(c := value)
        else if op.CLD? || op.SED? then r.(d := value)
        else if op.CLI? || op.SEI? then r.(i := value)
        else r.(v := value)
  {
  }

  lemma TransferCases(r: Registers, op: Op)
    requires IsTransfer(op)
    ensures TransferResult(r, op) ==
      if op.TAX? || op.TSX? then LoadX(r, if op.TAX? then r.ac else r.s)
      else if op.TAY? then LoadY(r, r.ac)
      else if op.TXS? then r.(s := r.x)
      else LoadA(r, if op.TXA? then r.x else r.y)
  {
    hide LoadA, LoadX, LoadY;
  }

  lemma ImmediateClasses(o: Opcode)
    requires Legal(o) && o.mode.IMM?
    ensures (IsAlu(o.op) || IsLoad(o.op)) && !IsStore(o.op) && !IsRmw(o.op)
  {
  }

  lemma AccumulatorClasses(o: Opcode)
    requires Legal(o) && o.mode.ACC?
    ensures IsRmw(o.op)
  {
  }

  lemma ImmediateExec(a: Arch, op: Op)
    requires !IsStore(op) && !IsRmw(op)
    ensures var e := ExecMemory(a, op, IMM); e.r == ReadOp(a.r, op, Fetch(a, 1)) && e.mem == a.mem
  {
    hide ReadOp, IsStore, IsRmw;
  }

  lemma SmallSum(w: Word, b: Byte)
    ensures w + b < RAM_SIZE ==> Add16(w, b) == w + b
  {
  }

  lemma AddressedClasses(o: Opcode)
    requires Emulated(o) && HasAddress(o.mode)
    ensures (IsAlu(o.op) || IsLoad(o.op) || IsStore(o.op) || IsRmw(o.op)) && !o.op.SAX?
  {
  }

  /** One bit of a byte whose lower bits have been taken off already. */
  method PeelBit(ghost pulled: Byte, p: int, m: nat) returns (bit: bool, rest: int)
    requires m > 0 && p == pulled - pulled % m
    ensures bit == (pulled % (2 * m) >= m) && rest == pulled - pulled % (2 * m)
  {
    Peel(pulled, m);
    bit := p % (2 * m) != 0;
    rest := if bit then p - m else p;
  }

  /** The next four bits. */
  method PeelNibble(ghost pulled: Byte, p: int, m: nat) returns (b0: bool, b1: bool, b2: bool, b3: bool, rest: int)
    requires m > 0 && p == pulled - pulled % m
    ensures b0 == (pulled % (2 * m) >= m) && b1 == (pulled % (4 * m) >= 2 * m)
    ensures b2 == (pulled % (8 * m) >= 4 * m) && b3 == (pulled % (16 * m) >= 8 * m)
    ensures rest == pulled - pulled % (16 * m)
  {
    b0, rest := PeelBit(pulled, p, m);
    b1, rest := PeelBit(pulled, rest, 2 * m);
    b2, rest := PeelBit(pulled, rest, 4 * m);
    b3, rest := PeelBit(pulled, rest, 8 * m);
  }

  /** The bit loop of the AND, OR and EOR instructions, lowest bit first. */
  method ComputeResult(op: BitOp, arg1: Byte, arg2: Byte) returns (result: Byte)
    ensures result == match op
      case BitAnd => And8(arg1, arg2)
      case BitOr => Or8(arg1, arg2)
      case BitXor => Xor8(arg1, arg2)
  {
    var sum, divisor := 0, 1;
    for i := 0 to 8
      invariant divisor == Pow2(i) && sum == Bitwise(op, arg1, arg2, i)
    {
      var arg1Bit := (arg1 / divisor) % 2;
      var arg2Bit := (arg2 / divisor) % 2;
      BitwiseTop(op, arg1, arg2, i);
      if Combine(op, arg1Bit != 0, arg2Bit != 0) {
        sum := sum + divisor;
      }
      divisor := divisor * 2;
    }
    Pow2Of8();
    result := sum;
  }

  /** The combination of one more bit adds its power of two. */
  lemma {:induction false} BitwiseTop(op: BitOp, a: nat, b: nat, n: nat)
    ensures Bitwise(op, a, b, n + 1) ==
            Bitwise(op, a, b, n) + if Combine(op, (a / Pow2(n)) % 2 == 1, (b / Pow2(n)) % 2 == 1) then Pow2(n) else 0
  {
    if n == 0 {
    } else {
      BitwiseTop(op, a / 2, b / 2, n - 1);
      HalfQuotient(a, n);
      HalfQuotient(b, n);
    }
  }

  lemma HalfQuotient(a: nat, n: nat)
    requires n > 0
    ensures (a / 2) / Pow2(n - 1) == a / Pow2(n)
  {
    var d := Pow2(n - 1);
    var q, r := (a / 2) / d, (a / 2) % d;
    assert a == 2 * (q * d + r) + a % 2;
    assert a == q * (2 * d) + (2 * r + a % 2);
    Quotient(a, 2 * d, q, 2 * r + a % 2);
  }

  /** Once the low bits are cleared, the remainder shows the next bit alone. */
  lemma Peel(p: nat, m: nat)
    requires m > 0
    ensures (p - p % m) % (2 * m) == if p % (2 * m) >= m then m else 0
    ensures p - p % m - (if p % (2 * m) >= m then m else 0) == p - p % (2 * m)
  {
    var q, r := p / (2 * m), p % (2 * m);
    var top := if r >= m then 1 else 0;
    assert p == q * (2 * m) + r;
    assert q * (2 * m) == (2 * q) * m;
    assert p == (2 * q + top) * m + (r - top * m);
    Quotient(p, m, 2 * q + top, r - top * m);
    assert p % m == r - top * m;
    assert p - p % m == q * (2 * m) + top * m;
    Quotient(p - p % m, 2 * m, q, top * m);
  }

  /** The bits of a byte that hold flags. */
  lemma StatusBits(p: Byte)
    ensures Bit(p, 0) == (p % 2 >= 1) && Bit(p, 1) == (p % 4 >= 2) && Bit(p, 2) == (p % 8 >= 4)
    ensures Bit(p, 3) == (p % 16 >= 8) && Bit(p, 6) == (p % 128 >= 64)
  {
    hide Bit, Pow2;
    Pow2Values();
    BitMod(p, 0);
    BitMod(p, 1);
    BitMod(p, 2);
    BitMod(p, 3);
    BitMod(p, 6);
  }
}
