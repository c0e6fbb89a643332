/** The registers a program sees. */
module RegisterFile {
  import opened Bytes

  /** The programmer-visible registers and flags, except the program counter. */
  datatype Registers = Registers(
    ac: Byte, x: Byte, y: Byte, s: Byte, c: bool, z: bool, i: bool, d: bool, v: bool, n: bool)

  /** The status byte; b is bit 4, set by BRK and PHP and clear in a serviced request. */
  function StatusByte(r: Registers, b: bool): Byte {
    0x80 * B(r.n) + 0x40 * B(r.v) + 0x20 + 0x10 * B(b) + 8 * B(r.d) + 4 * B(r.i) + 2 * B(r.z) + B(r.c)
  }

  /** What each bit of the status byte holds. */
  lemma StatusBit(r: Registers, b: bool, k: nat)
    requires k < 8
    ensures Bit(StatusByte(r, b), k) == [r.c, r.z, r.i, r.d, b, true, r.v, r.n][k]
  {
    hide B, Bit, Number;
    var low, high := [r.c, r.z, r.i, r.d], [b, true, r.v, r.n];
    assert B(true) == 1 by { BTrue(); }
    NumberOfNibble(r.c, r.z, r.i, r.d, high);
    NumberOfNibble(b, true, r.v, r.n, []);
    assert high + [] == high;
    assert Number([]) == 0 by { NumberEmpty(); }
    assert StatusByte(r, b) == Number(low + high);
    NumberBit(low + high, k);
    assert (low + high)[k] == [r.c, r.z, r.i, r.d, b, true, r.v, r.n][k] by {
      assert low + high == [r.c, r.z, r.i, r.d, b, true, r.v, r.n];
    }
  }

  lemma BTrue()
    ensures B(true) == 1
  {
  }

  lemma NumberEmpty()
    ensures Number([]) == 0
  {
  }

  lemma NumberCons(b: bool, rest: seq<bool>)
    ensures Number([b] + rest) == B(b) + 2 * Number(rest)
  {
    assert ([b] + rest)[1..] == rest;
  }

  lemma NumberOfNibble(b0: bool, b1: bool, b2: bool, b3: bool, rest: seq<bool>)
    ensures Number([b0, b1, b2, b3] + rest) == B(b0) + 2 * B(b1) + 4 * B(b2) + 8 * B(b3) + 16 * Number(rest)
  {
    hide B;
    NumberCons(b3, rest);
    NumberCons(b2, [b3] + rest);
    NumberCons(b1, [b2] + ([b3] + rest));
    NumberCons(b0, [b1] + ([b2] + ([b3] + rest)));
    assert [b0, b1, b2, b3] + rest == [b0] + ([b1] + ([b2] + ([b3] + rest)));
  }

  /** The number with these bits, least significant first. */
  function Number(bits: seq<bool>): nat {
    if bits == [] then 0 else B(bits[0]) + 2 * Number(bits[1..])
  }

  lemma {:induction false} NumberBit(bits: seq<bool>, k: nat)
    requires k < |bits|
    ensures Bit(Number(bits), k) == bits[k]
  {
    assert Number(bits) / 2 == Number(bits[1..]);
    if k == 0 {
    } else {
      NumberBit(bits[1..], k - 1);
    }
  }
}
