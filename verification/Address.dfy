/** IPv4 text and CIDR membership (RFC 4632, section 3.1) as Go's net package reads them. */
module Address {
  import opened Text

  /** `Four` is an address whose To4 is not nil: dotted, or an IPv4-mapped IPv6 address. */
  datatype IP = NotIP | Six | Four(a: nat)

  /** Text whose first special character is ':' goes to an IPv6 reader that this model leaves arbitrary. */
  type SixReader = string -> IP

  predicate AllDigits(s: string) {
    s == "" || (IsDigit(s[0]) && AllDigits(s[1..]))
  }

  function Decimal(s: string): nat
    requires AllDigits(s)
    decreases |s|
  {
    if s == "" then 0
    else
      AllButLast(s);
      Decimal(s[..|s| - 1]) * 10 + (s[|s| - 1] as int - 48)
  }

  lemma {:induction false} AllButLast(s: string)
    requires AllDigits(s) && s != ""
    ensures AllDigits(s[..|s| - 1]) && IsDigit(s[|s| - 1])
  {
    if |s| > 1 {
      AllButLast(s[1..]);
      assert s[..|s| - 1][1..] == s[1..][..|s| - 2];
    }
  }

  function Octet(s: string): Option<nat> {
    if 1 <= |s| <= 3 && AllDigits(s) && (|s| > 1 ==> s[0] != '0') && Decimal(s) <= 255 then Some(Decimal(s)) else None
  }

  function ParseIPv4(s: string): Option<nat> {
    var p := Split(s, '.');
    if |p| != 4 then None
    else
      var a, b, c, d := Octet(p[0]), Octet(p[1]), Octet(p[2]), Octet(p[3]);
      if a.None? || b.None? || c.None? || d.None? then None
      else Some(((a.value * 256 + b.value) * 256 + c.value) * 256 + d.value)
  }

  /** The first of '.', ':' and '%' decides which reader the text is given to. */
  function FirstSpecial(s: string): char {
    if s == "" then '%' else if s[0] in ".:%" then s[0] else FirstSpecial(s[1..])
  }

  function ParseIP(six: SixReader, s: string): IP {
    match FirstSpecial(s)
    case '.' => (var v := ParseIPv4(s); if v.Some? then Four(v.value) else NotIP)
    case ':' => six(s)
    case _ => NotIP
  }

  function Pow2(n: nat): (p: nat)
    ensures p > 0
  {
    if n == 0 then 1 else 2 * Pow2(n - 1)
  }

  datatype Cidr = Cidr(base: nat, bits: nat)

  /** Equal network bits. */
  predicate Contains(net: Cidr, a: nat) {
    net.bits <= 32 && a / Pow2(32 - net.bits) == net.base / Pow2(32 - net.bits)
  }

  /** `Hollow` is an IPv4-mapped network with fewer than 96 prefix bits: Go parses it, and it contains nothing. */
  datatype Network = BadNet | SixNet | Hollow | FourNet(net: Cidr)

  function ParseCIDR(six: SixReader, s: string): Network {
    var host := Before(s, '/');
    if |host| == |s| then BadNet
    else
      var mask := s[|host| + 1..];
      if mask == "" || !AllDigits(mask) then BadNet
      else
        var n, mapped := Decimal(mask), FirstSpecial(host) == ':';
        if n > (if mapped then 128 else 32) then BadNet
        else
          match ParseIP(six, host)
          case NotIP => BadNet
          case Six => SixNet
          case Four(a) => if !mapped then FourNet(Cidr(a, n)) else if n < 96 then Hollow else FourNet(Cidr(a, n - 96))
  }

  /** A host's own /32 holds that host and nothing else. */
  lemma HostNet(a: nat, b: nat)
    ensures Contains(Cidr(a, 32), b) <==> a == b
  {
    assert Pow2(0) == 1;
  }

  /** Two different members leave room in the host part: the prefix is at most 31 bits. */
  lemma DistinctMembers(net: Cidr, a: nat, b: nat)
    requires Contains(net, a) && Contains(net, b) && a != b
    ensures net.bits <= 31
  {
    if net.bits == 32 {
      HostNet(net.base, a);
      HostNet(net.base, b);
    }
  }

  // ---- the literals that the defaults table uses ----

  lemma FourParts(a: string, b: string, c: string, d: string)
    requires '.' !in a && '.' !in b && '.' !in c && '.' !in d
    ensures Split(a + "." + b + "." + c + "." + d, '.') == [a, b, c, d]
  {
    SplitAppend(a + "." + b + "." + c, d, '.');
    SplitAppend(a + "." + b, c, '.');
    SplitAppend(a, b, '.');
    SplitFree(a, '.');
    SplitFree(b, '.');
    SplitFree(c, '.');
    SplitFree(d, '.');
  }

  lemma {:induction false} DottedFirst(a: string, rest: string)
    requires AllDigits(a)
    ensures FirstSpecial(a + "." + rest) == '.'
  {
    if a != "" {
      assert (a + "." + rest)[1..] == a[1..] + "." + rest;
      DottedFirst(a[1..], rest);
    }
  }

  lemma {:induction false} DigitsNotIn(s: string, c: char)
    requires AllDigits(s) && !IsDigit(c)
    ensures c !in s
  {
    if s != "" {
      DigitsNotIn(s[1..], c);
    }
  }

  /** Dotted text made of four valid octets parses to the number it denotes. */
  lemma ParseDotted(six: SixReader, a: string, b: string, c: string, d: string)
    requires Octet(a).Some? && Octet(b).Some? && Octet(c).Some? && Octet(d).Some?
    ensures ParseIP(six, a + "." + b + "." + c + "." + d)
         == Four(((Octet(a).value * 256 + Octet(b).value) * 256 + Octet(c).value) * 256 + Octet(d).value)
    ensures '/' !in a + "." + b + "." + c + "." + d
    ensures FirstSpecial(a + "." + b + "." + c + "." + d) == '.'
  {
    DigitsNotIn(a, '.');
    DigitsNotIn(b, '.');
    DigitsNotIn(c, '.');
    DigitsNotIn(d, '.');
    DigitsNotIn(a, '/');
    DigitsNotIn(b, '/');
    DigitsNotIn(c, '/');
    DigitsNotIn(d, '/');
    FourParts(a, b, c, d);
    DottedFirst(a, b + "." + c + "." + d);
    assert a + "." + (b + "." + c + "." + d) == a + "." + b + "." + c + "." + d;
  }

  /** Dotted text, a slash and a prefix length of at most 32 parse to that network. */
  lemma ParseCidrText(six: SixReader, host: string, mask: string, a: nat)
    requires '/' !in host && FirstSpecial(host) == '.' && ParseIP(six, host) == Four(a)
    requires mask != "" && AllDigits(mask) && Decimal(mask) <= 32
    ensures Before(host + "/" + mask, '/') == host
    ensures ParseCIDR(six, host + "/" + mask) == FourNet(Cidr(a, Decimal(mask)))
  {
    BeforeCut(host, '/', mask);
    assert host + "/" + mask == host + ['/'] + mask;
    assert (host + "/" + mask)[|host| + 1..] == mask;
  }

  // ---- the reader against the notation ----

  /** Decimal notation without leading zeros. */
  function Numeral(n: nat): string {
    if n < 10 then [n as char + '0'] else Numeral(n / 10) + [(n % 10) as char + '0']
  }

  function Dotted(a: nat): string {
    Numeral(a / 256 / 256 / 256) + "." + Numeral(a / 256 / 256 % 256) + "." + Numeral(a / 256 % 256) + "."
    + Numeral(a % 256)
  }

  lemma {:induction false} DigitsAppend(s: string, c: char)
    requires AllDigits(s) && IsDigit(c)
    ensures AllDigits(s + [c]) && Decimal(s + [c]) == Decimal(s) * 10 + (c as int - 48)
  {
    if s == "" {
      assert [c][1..] == "" && "" + [c] == [c] && [c][..0] == "";
      assert AllDigits([c]);
      assert Decimal([c]) == Decimal([c][..0]) * 10 + (c as int - 48);
    } else {
      DigitsAppend(s[1..], c);
      assert (s + [c])[1..] == s[1..] + [c];
      assert (s + [c])[..|s + [c]| - 1] == s;
    }
  }

  lemma {:induction false} NumeralDecimal(n: nat)
    ensures AllDigits(Numeral(n)) && Numeral(n) != "" && Decimal(Numeral(n)) == n
    ensures Numeral(n)[0] == '0' ==> n == 0
    ensures n >= 10 ==> |Numeral(n)| >= 2
  {
    if n < 10 {
      DigitsAppend("", n as char + '0');
      assert "" + [n as char + '0'] == Numeral(n);
    } else {
      NumeralDecimal(n / 10);
      DigitsAppend(Numeral(n / 10), (n % 10) as char + '0');
    }
  }

  lemma {:induction false} DecimalNumeral(s: string)
    requires AllDigits(s) && s != "" && (|s| > 1 ==> s[0] != '0')
    ensures Numeral(Decimal(s)) == s && (|s| > 1 ==> Decimal(s) >= 10) && (s[0] != '0' ==> Decimal(s) >= 1)
  {
    AllButLast(s);
    var init, c := s[..|s| - 1], s[|s| - 1];
    assert s == init + [c];
    DigitsAppend(init, c);
    if init == "" {
      assert Decimal(init) == 0;
      assert c == (c as int - 48) as char + '0';
    } else {
      DecimalNumeral(init);
      assert c == (Decimal(s) % 10) as char + '0';
    }
  }

  lemma NumeralShort(n: nat)
    requires n <= 255
    ensures |Numeral(n)| <= 3
  {
    if n >= 100 {
      assert n / 10 / 10 < 10;
      assert |Numeral(n / 10 / 10)| == 1;
    } else if n >= 10 {
      assert n / 10 < 10;
    }
  }

  /** An octet is read exactly from the decimal notation of a number below 256. */
  lemma OctetIsNumeral(s: string, v: nat)
    ensures Octet(s) == Some(v) <==> v <= 255 && s == Numeral(v)
  {
    if Octet(s) == Some(v) {
      DecimalNumeral(s);
    }
    if v <= 255 && s == Numeral(v) {
      NumeralDecimal(v);
      NumeralShort(v);
    }
  }

  lemma LastOctet(x: nat, d: nat)
    requires d <= 255
    ensures (x * 256 + d) / 256 == x && (x * 256 + d) % 256 == d
  {
  }

  lemma OctetsOf(a: nat, b: nat, c: nat, d: nat, v: nat)
    requires b <= 255 && c <= 255 && d <= 255 && v == ((a * 256 + b) * 256 + c) * 256 + d
    ensures v / 256 / 256 / 256 == a && v / 256 / 256 % 256 == b && v / 256 % 256 == c && v % 256 == d
  {
    LastOctet((a * 256 + b) * 256 + c, d);
    LastOctet(a * 256 + b, c);
    LastOctet(a, b);
  }

  lemma FourOctets(p: string, q: string, r: string, s: string, a: nat, b: nat, c: nat, d: nat)
    requires Octet(p) == Some(a) && Octet(q) == Some(b) && Octet(r) == Some(c) && Octet(s) == Some(d)
    ensures ParseIPv4(p + "." + q + "." + r + "." + s) == Some(((a * 256 + b) * 256 + c) * 256 + d)
  {
    ParseDotted(t => NotIP, p, q, r, s);
  }

  lemma NumeralsParse(a: nat, b: nat, c: nat, d: nat)
    requires a <= 255 && b <= 255 && c <= 255 && d <= 255
    ensures ParseIPv4(Numeral(a) + "." + Numeral(b) + "." + Numeral(c) + "." + Numeral(d))
         == Some(((a * 256 + b) * 256 + c) * 256 + d)
  {
    OctetIsNumeral(Numeral(a), a);
    OctetIsNumeral(Numeral(b), b);
    OctetIsNumeral(Numeral(c), c);
    OctetIsNumeral(Numeral(d), d);
    FourOctets(Numeral(a), Numeral(b), Numeral(c), Numeral(d), a, b, c, d);
  }

  lemma DottedParses(v: nat)
    requires v < 0x1_0000_0000
    ensures ParseIPv4(Dotted(v)) == Some(v)
  {
    var a, b, c, d := v / 256 / 256 / 256, v / 256 / 256 % 256, v / 256 % 256, v % 256;
    assert v == v / 256 * 256 + d && v / 256 == v / 256 / 256 * 256 + c && v / 256 / 256 == a * 256 + b;
    NumeralsParse(a, b, c, d);
  }

  lemma ParsedIsDotted(s: string)
    requires ParseIPv4(s).Some?
    ensures ParseIPv4(s).value < 0x1_0000_0000 && s == Dotted(ParseIPv4(s).value)
  {
    var p := Split(s, '.');
    var a, b, c, d := Octet(p[0]).value, Octet(p[1]).value, Octet(p[2]).value, Octet(p[3]).value;
    OctetIsNumeral(p[0], a);
    OctetIsNumeral(p[1], b);
    OctetIsNumeral(p[2], c);
    OctetIsNumeral(p[3], d);
    OctetsOf(a, b, c, d, ParseIPv4(s).value);
    JoinSplit(s, '.');
    JoinFour(p);
  }

  /** The reader accepts exactly the dotted notation of 32-bit numbers, and reads the number that it denotes. */
  lemma ParseIsDotted(s: string, v: nat)
    ensures ParseIPv4(s) == Some(v) <==> v < 0x1_0000_0000 && s == Dotted(v)
  {
    if ParseIPv4(s) == Some(v) {
      ParsedIsDotted(s);
    }
    if v < 0x1_0000_0000 && s == Dotted(v) {
      DottedParses(v);
    }
  }

  lemma JoinFour(p: seq<string>)
    requires |p| == 4
    ensures Join(p, ".") == p[0] + "." + p[1] + "." + p[2] + "." + p[3]
  {
    assert p[1..][1..] == p[2..] && p[2..][1..] == p[3..] && p[3..] == [p[3]];
    assert Join(p[2..], ".") == p[2] + "." + Join(p[3..], ".");
    assert Join(p[1..], ".") == p[1] + "." + Join(p[2..], ".");
  }

  // ---- prefixes, bit by bit ----

  /** Bit `n` of a number, the lowest being bit 0. */
  function Bit(a: nat, n: nat): nat {
    a / Pow2(n) % 2
  }

  lemma Quotient(a: nat, d: nat, q: nat, r: nat)
    requires d > 0 && a == q * d + r && r < d
    ensures a / d == q
  {
    var q', r' := a / d, a % d;
    assert a == q' * d + r' && 0 <= r' < d;
    assert (q - q') * d == r' - r;
    assert q - q' >= 1 ==> (q - q') * d >= d;
    assert q' - q >= 1 ==> (q' - q) * d >= d;
  }

  lemma HalfQuotient(a: nat, n: nat)
    ensures a / Pow2(n) == 2 * (a / Pow2(n + 1)) + Bit(a, n)
  {
    var p := Pow2(n);
    var q, r := a / p, a % p;
    assert a == q * p + r;
    var k, t := q / 2, q % 2;
    assert q * p == k * (2 * p) + t * p;
    assert t * p + r < 2 * p;
    Quotient(a, 2 * p, k, t * p + r);
  }

  lemma {:induction false} QuotientBits(a: nat, b: nat, h: nat)
    requires h <= 32 && a < Pow2(32) && b < Pow2(32)
    ensures a / Pow2(h) == b / Pow2(h) <==> forall i :: h <= i < 32 ==> Bit(a, i) == Bit(b, i)
    decreases 32 - h
  {
    if h == 32 {
      Quotient(a, Pow2(32), 0, a);
      Quotient(b, Pow2(32), 0, b);
    } else {
      QuotientBits(a, b, h + 1);
      HalfQuotient(a, h);
      HalfQuotient(b, h);
      assert 0 <= Bit(a, h) < 2 && 0 <= Bit(b, h) < 2;
    }
  }

  lemma Pow32()
    ensures Pow2(32) == 0x1_0000_0000
  {
    assert Pow2(8) == 256;
    assert Pow2(16) == 0x1_0000;
    assert Pow2(24) == 0x100_0000;
  }

  /** A network holds exactly the addresses that agree with it in its leading bits. */
  lemma ContainsBits(net: Cidr, a: nat)
    requires net.base < 0x1_0000_0000 && a < 0x1_0000_0000
    ensures Contains(net, a)
       <==> net.bits <= 32 && forall i :: 32 - net.bits <= i < 32 ==> Bit(a, i) == Bit(net.base, i)
  {
    Pow32();
    if net.bits <= 32 {
      QuotientBits(a, net.base, 32 - net.bits);
    }
  }

  /** The prefix of length 0 holds every address. */
  lemma DefaultNet(a: nat)
    requires a < 0x1_0000_0000
    ensures Contains(Cidr(0, 0), a)
  {
    ContainsBits(Cidr(0, 0), a);
  }
}
