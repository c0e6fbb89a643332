/** The text form of packet bytes: the printer of the raw debug window and the parser of its input. */
module HexText {
  import opened Bytes

  // ---------------------------------------------------------------------------------------------
  // Printing
  // ---------------------------------------------------------------------------------------------

  function Digit(n: nat): char
    requires n < 16
  {
    if n > 9 then 'A' + (n - 10) as char else '0' + n as char
  }

  function Printed(data: seq<Byte>): string {
    if data == [] then "" else Printed(data[..|data| - 1]) + [Digit(data[|data| - 1] / 16), Digit(data[|data| - 1] % 16), ' ']
  }

  /** The printing loop: three characters a byte. */
  method Print(data: seq<Byte>) returns (text: string)
    ensures text == Printed(data)
  {
    text := "";
    for i := 0 to |data|
      invariant text == Printed(data[..i])
    {
      text := text + [Digit(data[i] / 16), Digit(data[i] % 16), ' '];
      assert data[..i + 1][..i] == data[..i];
    }
    assert data[..|data|] == data;
  }

  // ---------------------------------------------------------------------------------------------
  // Parsing
  // ---------------------------------------------------------------------------------------------

  /** The value of a hexadecimal digit of either case. */
  function Nibble(c: char): Option<nat> {
    if '0' <= c <= '9' then Some((c - '0') as nat)
    else if 'a' <= c <= 'f' then Some((c - 'a') as nat + 10)
    else if 'A' <= c <= 'F' then Some((c - 'A') as nat + 10)
    else None
  }

  /** The digits of a text; None if there is anything else in it but blanks. */
  function Nibbles(text: string): (r: Option<seq<nat>>)
    ensures r.Some? ==> forall k :: 0 <= k < |r.value| ==> r.value[k] < 16
  {
    if text == "" then Some([])
    else
      var front := Nibbles(text[..|text| - 1]);
      var c := text[|text| - 1];
      if front.None? then None
      else if c == ' ' then front
      else if Nibble(c).Some? then Some(front.value + [Nibble(c).value])
      else None
  }

  /** The bytes of an even number of digits, high digit first. */
  predicate Packed(ns: seq<nat>, data: seq<Byte>) {
    |ns| == 2 * |data| && forall k :: 0 <= k < |data| ==> data[k] == 16 * ns[2 * k] + ns[2 * k + 1]
  }

  /** What the parser makes of a text.  Overrun is a digit stored behind the end of the raw buffer. */
  datatype Outcome = Accepted(data: seq<Byte>) | Refused | Overrun

  predicate AllDigits(text: string) { forall i :: 0 <= i < |text| ==> Nibble(text[i]).Some? }

  /** An odd number of characters, all of them digits. */
  predicate Overruns(text: string) { |text| % 2 == 1 && AllDigits(text) }

  /** The parsing loop: digits go alternately to the upper and lower half of the next byte of a buffer with
      half as many bytes as the text has characters. */
  method Parse(text: string) returns (r: Outcome)
    ensures r.Overrun? <==> Overruns(text)
    ensures r.Accepted? <==> Nibbles(text).Some? && |Nibbles(text).value| % 2 == 0
    ensures r.Accepted? ==> Packed(Nibbles(text).value, r.data)
  {
    hide Nibbles, Nibble, AllDigits, Packed;
    var raw := new Byte[|text| / 2](_ => 0);
    var count := 0;
    ghost var ns: seq<nat> := [];
    assert Nibbles(text[..0]) == Some([]) && AllDigits(text[..0]) by { NoNibbles(); }
    for i := 0 to |text|
      invariant Nibbles(text[..i]) == Some(ns) && count == |ns| <= i && count <= 2 * raw.Length
      invariant count == i <==> AllDigits(text[..i])
      invariant forall k :: 0 <= k < |ns| ==> ns[k] < 16
      invariant forall k :: 0 <= k < count / 2 ==> raw[k] == 16 * ns[2 * k] + ns[2 * k + 1]
      invariant count % 2 == 1 ==> raw[count / 2] == 16 * ns[count - 1]
    {
      var c := text[i];
      assert text[..i + 1] == text[..i] + [c];
      NibblesStep(text[..i], c);
      DigitsStep(text[..i], c);
      if c == ' ' {
        BlankIsNoDigit();
      } else {
        var nibble := Nibble(c);
        if nibble.None? {
          BadCharacter(text, i);
          assert !AllDigits(text) by { NotAllDigits(text, i); }
          return Refused;
        }
        assert nibble.value < 16 by { NibbleRange(c); }
        ns := ns + [nibble.value];
        var k := count / 2;
        if k >= raw.Length {
          assert text[..|text|] == text;
          return Overrun;
        }
        if count % 2 == 1 {
          raw[k] := raw[k] + nibble.value;
        } else {
          raw[k] := 16 * nibble.value;
        }
        count := count + 1;
      }
    }
    assert text[..|text|] == text;
    if count % 2 == 1 {
      return Refused;
    }
    r := Accepted(raw[..count / 2]);
    assert Packed(ns, r.data) by { PackedIs(ns, r.data); }
  }

  lemma PackedIs(ns: seq<nat>, data: seq<Byte>)
    requires |ns| == 2 * |data| && forall k :: 0 <= k < |data| ==> data[k] == 16 * ns[2 * k] + ns[2 * k + 1]
    ensures Packed(ns, data)
  {
  }

  lemma DigitsStep(text: string, c: char)
    ensures AllDigits(text + [c]) <==> AllDigits(text) && Nibble(c).Some?
  {
    hide Nibble;
    if AllDigits(text + [c]) {
      assert (text + [c])[|text|] == c;
      forall i | 0 <= i < |text|
        ensures Nibble(text[i]).Some?
      {
        assert (text + [c])[i] == text[i];
      }
    }
  }

  lemma NotAllDigits(text: string, i: nat)
    requires i < |text| && Nibble(text[i]).None?
    ensures !AllDigits(text)
  {
    hide Nibble;
  }

  lemma BlankIsNoDigit()
    ensures Nibble(' ').None?
  {
  }

  /** A single digit is stored behind the end of an empty buffer. */
  lemma OneDigitOverruns()
    ensures Overruns("A")
  {
    assert Nibble("A"[0]).Some?;
  }

  lemma NibbleRange(c: char)
    requires Nibble(c).Some?
    ensures Nibble(c).value < 16
  {
  }

  lemma {:induction false} BadCharacter(text: string, i: nat)
    requires i < |text| && text[i] != ' ' && Nibble(text[i]).None?
    ensures Nibbles(text).None?
    decreases |text|
  {
    var n := |text| - 1;
    if i < n {
      BadCharacter(text[..n], i);
    }
  }

  // ---------------------------------------------------------------------------------------------
  // Round trip
  // ---------------------------------------------------------------------------------------------

  lemma DigitNibble(n: nat)
    requires n < 16
    ensures Nibble(Digit(n)) == Some(n) && Digit(n) != ' '
  {
  }

  lemma NibblesStep(text: string, c: char)
    ensures var f := Nibbles(text);
      Nibbles(text + [c]) ==
        if f.None? then None else if c == ' ' then f
        else if Nibble(c).Some? then Some(f.value + [Nibble(c).value]) else None
  {
    assert (text + [c])[..|text|] == text;
  }

  /** The digits of printed bytes pack back to the bytes. */
  lemma {:induction false} PrintedNibbles(data: seq<Byte>)
    ensures Nibbles(Printed(data)).Some? && Packed(Nibbles(Printed(data)).value, data)
    decreases |data|
  {
    hide Nibbles, Packed, Digit;
    if data == [] {
      NoNibbles();
      NothingPacked();
    } else {
      var n := |data| - 1;
      var b, front := data[n], Printed(data[..n]);
      PrintedNibbles(data[..n]);
      ByteNibbles(front, b);
      PackedMore(Nibbles(front).value, data[..n], b);
      assert Printed(data) == front + [Digit(b / 16), Digit(b % 16), ' '] && data == data[..n] + [b];
    }
  }

  /** The three characters of one more byte. */
  lemma ByteNibbles(front: string, b: Byte)
    requires Nibbles(front).Some?
    ensures Nibbles(front + [Digit(b / 16), Digit(b % 16), ' ']) == Some(Nibbles(front).value + [b / 16, b % 16])
  {
    hide Nibbles, Digit, Nibble;
    DigitNibble(b / 16);
    DigitNibble(b % 16);
    NibblesStep(front, Digit(b / 16));
    NibblesStep(front + [Digit(b / 16)], Digit(b % 16));
    NibblesStep(front + [Digit(b / 16)] + [Digit(b % 16)], ' ');
    var ns := Nibbles(front).value;
    assert ns + [b / 16] + [b % 16] == ns + [b / 16, b % 16];
    assert front + [Digit(b / 16), Digit(b % 16), ' '] == front + [Digit(b / 16)] + [Digit(b % 16)] + [' '];
  }

  lemma NothingPacked()
    ensures Packed([], [])
  {
  }

  lemma PackedMore(ns: seq<nat>, data: seq<Byte>, b: Byte)
    requires Packed(ns, data)
    ensures Packed(ns + [b / 16, b % 16], data + [b])
  {
    var hi, lo := b / 16, b % 16;
    assert b == 16 * hi + lo;
    var ms, more := ns + [hi, lo], data + [b];
    forall k | 0 <= k < |more|
      ensures more[k] == 16 * ms[2 * k] + ms[2 * k + 1]
    {
    }
  }

  lemma NoNibbles()
    ensures Nibbles("") == Some([]) && AllDigits("")
  {
  }

  lemma PackedOnce(ns: seq<nat>, a: seq<Byte>, b: seq<Byte>)
    requires Packed(ns, a) && Packed(ns, b)
    ensures a == b
  {
  }

  /** Printing and parsing give the bytes back, an even number of digits having been read. */
  method RoundTrip(data: seq<Byte>) returns (back: Outcome)
    ensures back == Accepted(data)
  {
    hide Nibbles, Packed, Printed;
    var text := Print(data);
    PrintedNibbles(data);
    assert |Nibbles(text).value| % 2 == 0 by { EvenDigits(Nibbles(text).value, data); }
    back := Parse(text);
    PackedOnce(Nibbles(text).value, back.data, data);
  }

  lemma EvenDigits(ns: seq<nat>, data: seq<Byte>)
    requires Packed(ns, data)
    ensures |ns| % 2 == 0
  {
  }
}
