/** Bytes, 16-bit words and the bit operations shared by every component. */
module Bytes {

  datatype Option<T> = None | Some(value: T)

  type Byte = b: int | 0 <= b < 0x100
  type Word = w: int | 0 <= w < 0x1_0000

  /** A flat 64 KB byte memory. */
  type Memory = m: seq<Byte> | |m| == 0x1_0000 witness seq(0x1_0000, _ => 0)

  function ToWord(hi: Byte, lo: Byte): (w: Word)
    ensures Hi(w) == hi && Lo(w) == lo
  {
    hi * 0x100 + lo
  }

  function Hi(w: Word): Byte { w / 0x100 }

  function Lo(w: Word): Byte { w % 0x100 }

  lemma Halves(w: Word)
    ensures ToWord(Hi(w), Lo(w)) == w
  {
  }

  function B(b: bool): int { if b then 1 else 0 }

  function Pow2(k: nat): (p: nat)
    ensures p > 0
  {
    if k == 0 then 1 else 2 * Pow2(k - 1)
  }

  /** Bit k of a number, k == 0 being the least significant one. */
  predicate Bit(b: nat, k: nat) {
    if k == 0 then b % 2 == 1 else Bit(b / 2, k - 1)
  }

  /** An 8-bit register as bits, least significant first. */
  type Bits = b: seq<bool> | |b| == 8 witness [false, false, false, false, false, false, false, false]

  const BLANK: Bits := [false, false, false, false, false, false, false, false]

  function BitsOf(b: Byte): Bits { seq(8, k requires 0 <= k < 8 => Bit(b, k)) }

  /** A right shift by n with zeros coming in. */
  function Shifted(b: Bits, n: nat): Bits { seq(8, k requires 0 <= k < 8 => k + n < 8 && b[k + n]) }

  /** Wrap-around addition on bytes and words. */
  function Add8(b: Byte, d: int): Byte { if 0 <= b + d < 0x100 then b + d else (b + d) % 0x100 }

  function Add16(w: Word, d: int): Word { if 0 <= w + d < 0x1_0000 then w + d else (w + d) % 0x1_0000 }

  lemma Add16Adds(w: Word, i: int, j: int)
    ensures Add16(Add16(w, i), j) == Add16(w, i + j)
  {
  }

  lemma Add8Adds(s: Byte, i: int, j: int)
    ensures Add8(Add8(s, i), j) == Add8(s, i + j)
  {
  }

  lemma Add8Differs(s: Byte, i: int, j: int)
    requires 0 < j - i < 0x100
    ensures Add8(s, i) != Add8(s, j) && Add8(s, 0) == s
  {
  }

  /** The signed value of a byte in two's complement. */
  function Signed(b: Byte): int { if b >= 0x80 then b - 0x100 else b }

  datatype BitOp = BitAnd | BitOr | BitXor

  function Combine(op: BitOp, p: bool, q: bool): bool {
    match op
    case BitAnd => p && q
    case BitOr => p || q
    case BitXor => p != q
  }

  /** The low n bits of a and b, combined bit by bit. */
  function Bitwise(op: BitOp, a: nat, b: nat, n: nat): (r: nat)
    ensures r < Pow2(n)
  {
    if n == 0 then 0
    else B(Combine(op, a % 2 == 1, b % 2 == 1)) + 2 * Bitwise(op, a / 2, b / 2, n - 1)
  }

  function And8(a: Byte, b: Byte): Byte {
    Pow2Of8();
    Bitwise(BitAnd, a, b, 8)
  }

  function Or8(a: Byte, b: Byte): Byte {
    Pow2Of8();
    Bitwise(BitOr, a, b, 8)
  }

  function Xor8(a: Byte, b: Byte): Byte {
    Pow2Of8();
    Bitwise(BitXor, a, b, 8)
  }

  lemma Pow2Of8()
    ensures Pow2(8) == 0x100
  {
    assert Pow2(4) == 16;
  }

  /** Every bit of the combination is the combination of the two bits. */
  lemma {:induction false} BitwiseBit(op: BitOp, a: nat, b: nat, n: nat, k: nat)
    requires k < n
    ensures Bit(Bitwise(op, a, b, n), k) == Combine(op, Bit(a, k), Bit(b, k))
  {
    if k == 0 {
    } else {
      BitwiseBit(op, a / 2, b / 2, n - 1, k - 1);
      assert Bitwise(op, a, b, n) / 2 == Bitwise(op, a / 2, b / 2, n - 1);
    }
  }

  /** ANDing with all ones changes nothing. */
  lemma {:induction false} AndOnes(b: nat, n: nat)
    requires b < Pow2(n)
    ensures Bitwise(BitAnd, Pow2(n) - 1, b, n) == b == Bitwise(BitAnd, b, Pow2(n) - 1, n)
  {
    if n == 0 {
    } else {
      assert (Pow2(n) - 1) / 2 == Pow2(n - 1) - 1 && (Pow2(n) - 1) % 2 == 1;
      AndOnes(b / 2, n - 1);
    }
  }

  lemma Quotient(a: int, d: int, q: int, r: int)
    requires d > 0 && a == q * d + r && 0 <= r < d
    ensures a / d == q && a % d == r
  {
    var e := a / d - q;
    assert e * d == r - a % d;
    assert -d < e * d < d;
    assert e == 0 by {
      assert e >= 1 ==> e * d >= d;
      assert e <= -1 ==> e * d <= -d;
    }
  }

  /** Bit k is set exactly if the remainder by twice its power of two reaches it. */
  lemma {:induction false} BitMod(m: nat, k: nat)
    ensures Bit(m, k) == (m % (2 * Pow2(k)) >= Pow2(k))
  {
    if k == 0 {
    } else {
      BitMod(m / 2, k - 1);
      var p, h, b := Pow2(k), m / 2, m % 2;
      var q, r := h / p, h % p;
      assert m == 2 * h + b && h == q * p + r;
      assert m == q * (2 * p) + (2 * r + b);
      Quotient(m, 2 * p, q, 2 * r + b);
      assert m % (2 * p) == 2 * r + b;
    }
  }

  lemma Pow2Values()
    ensures Pow2(0) == 1 && Pow2(1) == 2 && Pow2(2) == 4 && Pow2(3) == 8 && Pow2(6) == 64 && Pow2(7) == 128
  {
    assert Pow2(2) == 4;
    assert Pow2(4) == 16;
    assert Pow2(6) == 64;
  }
}
