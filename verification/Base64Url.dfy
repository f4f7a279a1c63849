/** Unpadded base64url (RFC 4648, section 5) and lower-case hexadecimal, as Go's encoders write and read them. */
module Base64Url {
  import opened Text

  type byte = n: int | 0 <= n < 256
  type sextet = n: int | 0 <= n < 64

  function Digit(v: sextet): char {
    if v < 26 then 'A' + v as char
    else if v < 52 then 'a' + (v - 26) as char
    else if v < 62 then '0' + (v - 52) as char
    else if v == 62 then '-' else '_'
  }

  function Value(c: char): Option<sextet> {
    if 'A' <= c <= 'Z' then Some(c as int - 65)
    else if 'a' <= c <= 'z' then Some(c as int - 71)
    else if '0' <= c <= '9' then Some(c as int + 4)
    else if c == '-' then Some(62)
    else if c == '_' then Some(63)
    else None
  }

  function Encode(b: seq<byte>): string {
    if |b| == 0 then ""
    else if |b| == 1 then [Digit(b[0] / 4), Digit(b[0] % 4 * 16)]
    else if |b| == 2 then
      [Digit(b[0] / 4), Digit(b[0] % 4 * 16 + b[1] / 16), Digit(b[1] % 16 * 4)]
    else
      [Digit(b[0] / 4), Digit(b[0] % 4 * 16 + b[1] / 16), Digit(b[1] % 16 * 4 + b[2] / 64), Digit(b[2] % 64)]
      + Encode(b[3..])
  }

  /** Go's decoder drops line breaks anywhere in its input. */
  function Unfold(s: string): string {
    if s == [] then [] else (if s[0] == '\n' || s[0] == '\r' then [] else [s[0]]) + Unfold(s[1..])
  }

  /** The non-strict decoder: spare low bits of the last digit are ignored, a lone last digit is an error. */
  function Decode(s: string): Option<seq<byte>> {
    Quads(Unfold(s))
  }

  function Quads(s: string): Option<seq<byte>> {
    if |s| == 0 then Some([])
    else if |s| == 1 then None
    else
      var v0, v1 := Value(s[0]), Value(s[1]);
      if v0.None? || v1.None? then None
      else if |s| == 2 then Some([v0.value * 4 + v1.value / 16])
      else
        var v2 := Value(s[2]);
        if v2.None? then None
        else if |s| == 3 then Some([v0.value * 4 + v1.value / 16, v1.value % 16 * 16 + v2.value / 4])
        else
          var v3, rest := Value(s[3]), Quads(s[4..]);
          if v3.None? || rest.None? then None
          else Some([v0.value * 4 + v1.value / 16, v1.value % 16 * 16 + v2.value / 4, v2.value % 4 * 64 + v3.value]
                    + rest.value)
  }

  /** A character of the alphabet: in particular neither '.', nor a line break, nor a space. */
  predicate InAlphabet(c: char) {
    Value(c).Some?
  }

  lemma DigitValue(v: sextet)
    ensures Value(Digit(v)) == Some(v)
  {
  }

  lemma {:induction false} EncodeAlphabet(b: seq<byte>)
    ensures forall i :: 0 <= i < |Encode(b)| ==> InAlphabet(Encode(b)[i])
  {
    if |b| > 2 {
      EncodeAlphabet(b[3..]);
    }
  }

  lemma {:induction false} UnfoldAlphabet(s: string)
    requires forall i :: 0 <= i < |s| ==> InAlphabet(s[i])
    ensures Unfold(s) == s
  {
    if s != [] {
      assert InAlphabet(s[0]);
      UnfoldAlphabet(s[1..]);
      assert s == [s[0]] + s[1..];
    }
  }

  lemma TwoDigits(x: byte)
    ensures Value(Digit(x / 4)).value * 4 + Value(Digit(x % 4 * 16)).value / 16 == x
  {
    DigitValue(x / 4);
    DigitValue(x % 4 * 16);
  }

  lemma ThreeDigits(x: byte, y: byte)
    ensures Value(Digit(x / 4)).value * 4 + Value(Digit(x % 4 * 16 + y / 16)).value / 16 == x
    ensures Value(Digit(x % 4 * 16 + y / 16)).value % 16 * 16 + Value(Digit(y % 16 * 4)).value / 4 == y
  {
    DigitValue(x / 4);
    DigitValue(x % 4 * 16 + y / 16);
    DigitValue(y % 16 * 4);
  }

  lemma FourDigits(x: byte, y: byte, z: byte)
    ensures Value(Digit(x / 4)).value * 4 + Value(Digit(x % 4 * 16 + y / 16)).value / 16 == x
    ensures Value(Digit(x % 4 * 16 + y / 16)).value % 16 * 16 + Value(Digit(y % 16 * 4 + z / 64)).value / 4 == y
    ensures Value(Digit(y % 16 * 4 + z / 64)).value % 4 * 64 + Value(Digit(z % 64)).value == z
  {
    DigitValue(x / 4);
    DigitValue(x % 4 * 16 + y / 16);
    DigitValue(y % 16 * 4 + z / 64);
    DigitValue(z % 64);
  }

  lemma QuadStep(s: string, v0: sextet, v1: sextet, v2: sextet, v3: sextet)
    requires |s| >= 4 && Quads(s[4..]).Some?
    requires Value(s[0]) == Some(v0) && Value(s[1]) == Some(v1) && Value(s[2]) == Some(v2) && Value(s[3]) == Some(v3)
    ensures Quads(s) == Some([v0 * 4 + v1 / 16, v1 % 16 * 16 + v2 / 4, v2 % 4 * 64 + v3] + Quads(s[4..]).value)
  {
  }

  lemma QuadsOfThree(x: byte, y: byte, z: byte, tail: string)
    requires Quads(tail).Some?
    ensures Quads([Digit(x / 4), Digit(x % 4 * 16 + y / 16), Digit(y % 16 * 4 + z / 64), Digit(z % 64)] + tail)
         == Some([x, y, z] + Quads(tail).value)
  {
    var s := [Digit(x / 4), Digit(x % 4 * 16 + y / 16), Digit(y % 16 * 4 + z / 64), Digit(z % 64)];
    DigitValue(x / 4);
    DigitValue(x % 4 * 16 + y / 16);
    DigitValue(y % 16 * 4 + z / 64);
    DigitValue(z % 64);
    FourDigits(x, y, z);
    assert (s + tail)[4..] == tail;
    QuadStep(s + tail, x / 4, x % 4 * 16 + y / 16, y % 16 * 4 + z / 64, z % 64);
  }

  lemma QuadsOfTwo(x: byte, y: byte)
    ensures Quads([Digit(x / 4), Digit(x % 4 * 16 + y / 16), Digit(y % 16 * 4)]) == Some([x, y])
  {
    var s := [Digit(x / 4), Digit(x % 4 * 16 + y / 16), Digit(y % 16 * 4)];
    ThreeDigits(x, y);
    DigitValue(x / 4);
    DigitValue(x % 4 * 16 + y / 16);
    DigitValue(y % 16 * 4);
    assert |s| == 3;
  }

  lemma QuadsOfOne(x: byte)
    ensures Quads([Digit(x / 4), Digit(x % 4 * 16)]) == Some([x])
  {
    var s := [Digit(x / 4), Digit(x % 4 * 16)];
    TwoDigits(x);
    DigitValue(x / 4);
    DigitValue(x % 4 * 16);
    assert |s| == 2;
  }

  lemma {:induction false} QuadsEncode(b: seq<byte>)
    ensures Quads(Encode(b)) == Some(b)
  {
    if |b| == 1 {
      QuadsOfOne(b[0]);
      assert b == [b[0]];
    } else if |b| == 2 {
      QuadsOfTwo(b[0], b[1]);
      assert b == [b[0], b[1]];
    } else if |b| > 2 {
      QuadsEncode(b[3..]);
      QuadsOfThree(b[0], b[1], b[2], Encode(b[3..]));
      assert b == [b[0], b[1], b[2]] + b[3..];
    }
  }

  /** Decoding undoes encoding for every length modulo three. */
  lemma DecodeEncode(b: seq<byte>)
    ensures Decode(Encode(b)) == Some(b)
  {
    EncodeAlphabet(b);
    UnfoldAlphabet(Encode(b));
    QuadsEncode(b);
  }

  lemma {:induction false} UnfoldBreak(a: string, c: char, b: string)
    requires c == '\n' || c == '\r'
    ensures Unfold(a + [c] + b) == Unfold(a + b)
  {
    if a == "" {
      assert (a + [c] + b)[1..] == b && a + b == b;
    } else {
      UnfoldBreak(a[1..], c, b);
      assert (a + [c] + b)[1..] == a[1..] + [c] + b && (a + b)[1..] == a[1..] + b;
    }
  }

  /** Line breaks make no difference wherever they stand. */
  lemma BreaksIgnored(a: string, c: char, b: string)
    requires c == '\n' || c == '\r'
    ensures Decode(a + [c] + b) == Decode(a + b)
  {
    UnfoldBreak(a, c, b);
  }

  function HexDigit(v: int): (c: char)
    requires 0 <= v < 16
    ensures IsLowerHex(c)
  {
    if v < 10 then '0' + v as char else 'a' + (v - 10) as char
  }

  function Hex(b: seq<byte>): string {
    if b == [] then "" else [HexDigit(b[0] / 16), HexDigit(b[0] % 16)] + Hex(b[1..])
  }

  lemma {:induction false} HexShape(b: seq<byte>)
    ensures |Hex(b)| == 2 * |b|
    ensures forall i :: 0 <= i < |Hex(b)| ==> IsLowerHex(Hex(b)[i])
  {
    if b != [] {
      HexShape(b[1..]);
    }
  }

  /** Hexadecimal text names one byte string, two lower-case digits a byte, the high one first. */
  lemma {:induction false} HexInjective(a: seq<byte>, b: seq<byte>)
    ensures Hex(a) == Hex(b) <==> a == b
  {
    HexShape(a);
    HexShape(b);
    if Hex(a) == Hex(b) && a != [] {
      assert b != [];
      assert Hex(a)[2..] == Hex(a[1..]) && Hex(b)[2..] == Hex(b[1..]);
      assert Hex(a)[0] == Hex(b)[0] && Hex(a)[1] == Hex(b)[1];
      assert a[0] / 16 == b[0] / 16 && a[0] % 16 == b[0] % 16;
      HexInjective(a[1..], b[1..]);
      assert a == [a[0]] + a[1..] && b == [b[0]] + b[1..];
    }
  }

  /** The digits of RFC 4648, section 5: the table and some of the vectors of section 10, and the two characters in
      which this alphabet differs from that of section 4. */
  lemma StandardVectors()
    ensures Encode([0x66]) == "Zg" && Encode([0x66, 0x6f]) == "Zm8" && Encode([0x66, 0x6f, 0x6f]) == "Zm9v"
    ensures Encode([0xfb, 0xff]) == "-_8"
    ensures Hex([0x0a, 0xf9]) == "0af9"
  {
    var none: seq<byte> := [];
    assert [0x66, 0x6f, 0x6f][3..] == none && Encode(none) == "";
    assert [0x0a, 0xf9][1..] == [0xf9] && [0xf9][1..] == none;
    assert Hex([0xf9]) == "f9";
  }

  /** A digit's place in the alphabet of RFC 4648, section 5. */
  const ALPHABET := "ABCDEFGHIJKLMNOPQRSTUVWXYZ" + "abcdefghijklmnopqrstuvwxyz" + "0123456789" + "-_"

  lemma DigitsAreStandard(v: sextet)
    ensures |ALPHABET| == 64 && Digit(v) == ALPHABET[v]
  {
    var upper, lower, digits := "ABCDEFGHIJKLMNOPQRSTUVWXYZ", "abcdefghijklmnopqrstuvwxyz", "0123456789";
    assert forall i :: 0 <= i < 26 ==> upper[i] == 'A' + i as char;
    assert forall i :: 0 <= i < 26 ==> lower[i] == 'a' + i as char;
    assert forall i :: 0 <= i < 10 ==> digits[i] == '0' + i as char;
  }
}
