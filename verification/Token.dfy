/** Pairing tokens: framing, kind and checksum (internal/token/token.go). */
module Token {
  import opened Text
  import opened Base64Url

  const PREFIX := "HAMARA1"

  datatype Error = BadFormat | WrongKind | BadChecksum | BadEncoding | BadPayload
  datatype Result<+T> = Ok(value: T) | Err(error: Error)

  type Digest = d: seq<byte> | |d| == 32 witness seq(32, i => 0)

  /** SHA-256 is any function from text to 32 bytes. */
  type Hash = string -> Digest

  /** JSON is any pair of functions; `Faithful` says the second undoes the first on one value. */
  datatype Codec<!T> = Codec(marshal: T -> seq<byte>, unmarshal: seq<byte> -> Option<T>)

  ghost predicate Faithful<T>(codec: Codec<T>, value: T) {
    codec.unmarshal(codec.marshal(value)) == Some(value)
  }

  /** `strings.ToUpper` on ASCII text. */
  function ToUpper(s: string): string {
    if s == [] then [] else [if 'a' <= s[0] <= 'z' then s[0] - 32 as char else s[0]] + ToUpper(s[1..])
  }

  /** `strings.EqualFold` against hexadecimal digits. */
  predicate EqualFold(s: string, t: string) {
    ToUpper(s) == ToUpper(t)
  }

  function Checksum(hash: Hash, kind: string, body: string): string {
    Hex(hash(kind + "." + body)[..8])
  }

  predicate KnownKind(kind: string) {
    kind == "OFFER" || kind == "RESPONSE"
  }

  function Encode<T>(codec: Codec<T>, hash: Hash, kind: string, value: T): Option<string> {
    var k := ToUpper(TrimSpace(kind));
    if !KnownKind(k) then None
    else
      var body := Base64Url.Encode(codec.marshal(value));
      Some(PREFIX + "." + k + "." + body + "." + Checksum(hash, k, body))
  }

  function Decode<T>(codec: Codec<T>, hash: Hash, input: string, expectedKind: string): Result<T> {
    var parts := Split(TrimSpace(input), '.');
    if |parts| != 4 || parts[0] != PREFIX then Err(BadFormat)
    else
      var kind := ToUpper(expectedKind);
      if parts[1] != kind then Err(WrongKind)
      else if !EqualFold(parts[3], Checksum(hash, parts[1], parts[2])) then Err(BadChecksum)
      else
        var data := Base64Url.Decode(parts[2]);
        if data.None? then Err(BadEncoding)
        else
          var value := codec.unmarshal(data.value);
          if value.None? then Err(BadPayload) else Ok(value.value)
  }

  // ---- text of a token ----

  /** A token's characters: the three alphabets and the dot. */
  predicate TokenChar(c: char) {
    c == '.' || InAlphabet(c)
  }

  lemma TokenTrim(s: string)
    requires forall i :: 0 <= i < |s| ==> TokenChar(s[i])
    ensures TrimSpace(s) == s
  {
  }

  lemma {:induction false} FoldLength(s: string)
    ensures |ToUpper(s)| == |s|
  {
    if s != [] {
      FoldLength(s[1..]);
    }
  }

  lemma {:induction false} UpperTwice(s: string)
    ensures ToUpper(ToUpper(s)) == ToUpper(s)
  {
    if s != [] {
      UpperTwice(s[1..]);
    }
  }

  function Framed(kind: string, body: string, sum: string): string {
    Join([PREFIX, kind, body, sum], ".")
  }

  lemma FramedText(kind: string, body: string, sum: string)
    ensures Framed(kind, body, sum) == PREFIX + "." + kind + "." + body + "." + sum
  {
    var p := [PREFIX, kind, body, sum];
    assert p[1..] == [kind, body, sum] && p[1..][1..] == [body, sum] && p[1..][1..][1..] == [sum];
    assert Join([body, sum], ".") == body + "." + Join([body, sum][1..], ".");
    assert Join([kind, body, sum], ".") == kind + "." + Join([body, sum], ".");
    assert Join(p, ".") == PREFIX + "." + Join([kind, body, sum], ".");
  }

  lemma KindText(kind: string)
    requires KnownKind(kind)
    ensures forall i :: 0 <= i < |kind| ==> InAlphabet(kind[i])
  {
  }

  lemma ChecksumText(hash: Hash, kind: string, body: string)
    ensures |Checksum(hash, kind, body)| == 16
    ensures forall i :: 0 <= i < 16 ==> InAlphabet(Checksum(hash, kind, body)[i])
  {
    HexShape(hash(kind + "." + body)[..8]);
    var sum := Checksum(hash, kind, body);
    forall i | 0 <= i < 16 ensures InAlphabet(sum[i]) {
      assert IsLowerHex(sum[i]);
    }
  }

  /** What Encode returns is a frame of four dot-free parts over the token alphabet. */
  lemma EncodeFrame<T>(codec: Codec<T>, hash: Hash, kind: string, value: T)
    requires Encode(codec, hash, kind, value).Some?
    ensures var k, body := ToUpper(TrimSpace(kind)), Base64Url.Encode(codec.marshal(value));
            var t := Encode(codec, hash, kind, value).value;
            && t == Framed(k, body, Checksum(hash, k, body))
            && (forall i :: 0 <= i < |t| ==> TokenChar(t[i]))
            && '.' !in k && '.' !in body && '.' !in Checksum(hash, k, body)
  {
    var k, body := ToUpper(TrimSpace(kind)), Base64Url.Encode(codec.marshal(value));
    FramedText(k, body, Checksum(hash, k, body));
    KindText(k);
    ChecksumText(hash, k, body);
    EncodeAlphabet(codec.marshal(value));
    assert forall i :: 0 <= i < |PREFIX| ==> InAlphabet(PREFIX[i]);
  }

  lemma FrameParts(kind: string, body: string, sum: string)
    requires '.' !in kind && '.' !in body && '.' !in sum
    ensures Split(Framed(kind, body, sum), '.') == [PREFIX, kind, body, sum]
  {
    var p := [PREFIX, kind, body, sum];
    assert forall i :: 0 <= i < |PREFIX| ==> InAlphabet(PREFIX[i]);
    assert Without(p, '.');
    SplitJoin(p, '.');
  }

  // ---- the properties ----

  /** A token decodes to the value it was made from, exactly when the reader's kind is the writer's kind without
      surrounding blanks: Encode trims the kind it is given, Decode does not. */
  lemma RoundTrip<T>(codec: Codec<T>, hash: Hash, kind: string, value: T, expected: string)
    requires Encode(codec, hash, kind, value).Some? && Faithful(codec, value)
    ensures var r := Decode(codec, hash, Encode(codec, hash, kind, value).value, expected);
            if ToUpper(expected) == ToUpper(TrimSpace(kind)) then r == Ok(value) else r == Err(WrongKind)
  {
    var k, body := ToUpper(TrimSpace(kind)), Base64Url.Encode(codec.marshal(value));
    EncodeFrame(codec, hash, kind, value);
    TokenTrim(Encode(codec, hash, kind, value).value);
    FrameParts(k, body, Checksum(hash, k, body));
    DecodeEncode(codec.marshal(value));
  }

  /** Blanks and line breaks pasted around a token make no difference. */
  lemma PastedToken<T>(codec: Codec<T>, hash: Hash, kind: string, value: T, expected: string, a: string, b: string)
    requires Encode(codec, hash, kind, value).Some? && Blank(a) && Blank(b)
    ensures var t := Encode(codec, hash, kind, value).value;
            Decode(codec, hash, a + t + b, expected) == Decode(codec, hash, t, expected)
  {
    var t := Encode(codec, hash, kind, value).value;
    EncodeFrame(codec, hash, kind, value);
    TokenTrim(t);
    assert TokenChar(t[0]) && TokenChar(t[|t| - 1]);
    TrimAround(a, t, b);
  }

  /** No text whatever is accepted both as an OFFER and as a RESPONSE. */
  lemma KindsSeparate<T, U>(offers: Codec<T>, responses: Codec<U>, hash: Hash, input: string)
    ensures !(Decode(offers, hash, input, "offer").Ok? && Decode(responses, hash, input, "response").Ok?)
  {
    assert ToUpper("offer") != ToUpper("response") by {
      FoldLength("offer");
      FoldLength("response");
    }
  }

  /** With any other checksum text in its place, a token is accepted iff the text is a case variant of the checksum,
      up to blanks at its end. */
  lemma ChecksumReplaced<T>(codec: Codec<T>, hash: Hash, kind: string, value: T, sum: string)
    requires Encode(codec, hash, kind, value).Some? && Faithful(codec, value)
    ensures var k, body := ToUpper(TrimSpace(kind)), Base64Url.Encode(codec.marshal(value));
            Decode(codec, hash, Framed(k, body, sum), k).Ok?
            <==> EqualFold(TrimRight(sum), Checksum(hash, k, body))
  {
    var k, body := ToUpper(TrimSpace(kind)), Base64Url.Encode(codec.marshal(value));
    var want := Checksum(hash, k, body);
    var head := PREFIX + "." + k + "." + body + ".";
    EncodeFrame(codec, hash, kind, value);
    FramedText(k, body, sum);
    ChecksumText(hash, k, body);
    FoldLength(want);
    FoldLength(TrimRight(sum));
    TrimRightAppend(head, sum);
    assert TrimSpace(Framed(k, body, sum)) == head + TrimRight(sum);
    assert ToUpper(k) == k by { UpperTwice(TrimSpace(kind)); }
    FramedText(k, body, TrimRight(sum));
    if '.' in TrimRight(sum) {
      FoldDot(TrimRight(sum), want);
      FrameTooLong(k, body, TrimRight(sum));
    } else {
      FrameParts(k, body, TrimRight(sum));
      DecodeEncode(codec.marshal(value));
    }
  }

  lemma {:induction false} FoldInjective(s: string, t: string)
    requires ToUpper(s) == ToUpper(t)
    requires forall i :: 0 <= i < |s| ==> IsLowerHex(s[i])
    requires forall i :: 0 <= i < |t| ==> IsLowerHex(t[i])
    ensures s == t
  {
    FoldLength(s);
    FoldLength(t);
    if s != [] {
      assert ToUpper(s)[1..] == ToUpper(s[1..]) && ToUpper(t)[1..] == ToUpper(t[1..]);
      assert IsLowerHex(s[0]) && IsLowerHex(t[0]) && ToUpper(s)[0] == ToUpper(t)[0];
      FoldInjective(s[1..], t[1..]);
      assert s == [s[0]] + s[1..] && t == [t[0]] + t[1..];
    }
  }

  /** A token whose body or kind was replaced is accepted only if the first 8 bytes of the hash of the two texts
      "KIND.body" collide. */
  lemma TamperNeedsCollision<T, U>(codec: Codec<T>, reader: Codec<U>, hash: Hash, kind: string, value: T,
                                   kind': string, body': string, expected: string)
    requires Encode(codec, hash, kind, value).Some? && KnownKind(kind')
    ensures var k, body := ToUpper(TrimSpace(kind)), Base64Url.Encode(codec.marshal(value));
            Decode(reader, hash, Framed(kind', body', Checksum(hash, k, body)), expected).Ok? ==>
              && '.' !in body' && kind' == ToUpper(expected)
              && hash(kind' + "." + body')[..8] == hash(k + "." + body)[..8]
  {
    var k, body := ToUpper(TrimSpace(kind)), Base64Url.Encode(codec.marshal(value));
    var want := Checksum(hash, k, body);
    ChecksumText(hash, k, body);
    FrameTrim(kind', body', want);
    KindText(kind');
    assert '.' !in kind' && '.' !in want;
    if '.' in body' {
      FrameBodyDots(kind', body', want);
    } else {
      FrameParts(kind', body', want);
      if EqualFold(want, Checksum(hash, kind', body')) {
        HexShape(hash(k + "." + body)[..8]);
        HexShape(hash(kind' + "." + body')[..8]);
        FoldInjective(want, Checksum(hash, kind', body'));
        HexInjective(hash(k + "." + body)[..8], hash(kind' + "." + body')[..8]);
      }
    }
  }

  /** And there are hash functions that refuse it: one that tells the two texts apart. */
  lemma TamperRefused<T, U>(codec: Codec<T>, reader: Codec<U>, kind: string, value: T, kind': string, body': string,
                            expected: string)
    requires KnownKind(ToUpper(TrimSpace(kind))) && KnownKind(kind')
    requires kind' + "." + body' != ToUpper(TrimSpace(kind)) + "." + Base64Url.Encode(codec.marshal(value))
    ensures exists hash: Hash ::
              && Encode(codec, hash, kind, value).Some?
              && var k, body := ToUpper(TrimSpace(kind)), Base64Url.Encode(codec.marshal(value));
                 Decode(reader, hash, Framed(kind', body', Checksum(hash, k, body)), expected).Err?
  {
    var k, body := ToUpper(TrimSpace(kind)), Base64Url.Encode(codec.marshal(value));
    var text := k + "." + body;
    var zeros, ones: Digest := seq(32, i => 0), seq(32, i => 1);
    var hash: Hash := s => if s == text then zeros else ones;
    assert zeros[..8][0] == 0 && ones[..8][0] == 1;
    TamperNeedsCollision(codec, reader, hash, kind, value, kind', body', expected);
    assert Encode(codec, hash, kind, value).Some?;
  }

  /** A frame begins with the prefix; if its checksum ends in no blank, there is nothing to trim. */
  lemma FrameTrim(kind: string, body: string, sum: string)
    requires sum != "" && !IsSpace(sum[|sum| - 1])
    ensures TrimSpace(Framed(kind, body, sum)) == Framed(kind, body, sum)
  {
    FramedText(kind, body, sum);
    var t := Framed(kind, body, sum);
    assert t[0] == 'H' && t[|t| - 1] == sum[|sum| - 1];
  }

  lemma FrameBodyDots(kind: string, body: string, sum: string)
    requires '.' !in kind && '.' in body
    ensures |Split(Framed(kind, body, sum), '.')| > 4
  {
    var j :| 0 <= j < |body| && body[j] == '.';
    FramedText(kind, body, sum);
    var rest := body[j + 1..] + "." + sum;
    var head := PREFIX + "." + kind + "." + body[..j];
    assert body == body[..j] + ['.'] + body[j + 1..];
    assert Framed(kind, body, sum) == head + ['.'] + rest;
    SplitAppend(head, rest, '.');
    SplitAppend(body[j + 1..], sum, '.');
    SplitAppend(PREFIX + "." + kind, body[..j], '.');
    SplitAppend(PREFIX, kind, '.');
    assert rest == body[j + 1..] + ['.'] + sum;
    assert head == (PREFIX + "." + kind) + ['.'] + body[..j];
    assert PREFIX + "." + kind == PREFIX + ['.'] + kind;
  }

  lemma {:induction false} TrimRightAppend(head: string, tail: string)
    requires head != "" && !IsSpace(head[|head| - 1])
    ensures TrimRight(head + tail) == head + TrimRight(tail)
  {
    if tail == "" {
      assert head + tail == head;
    } else if IsSpace(tail[|tail| - 1]) {
      assert (head + tail)[..|head + tail| - 1] == head + tail[..|tail| - 1];
      TrimRightAppend(head, tail[..|tail| - 1]);
    }
  }

  lemma {:induction false} FoldChar(s: string, c: char)
    requires !('A' <= c <= 'Z') && !('a' <= c <= 'z')
    ensures c in s <==> c in ToUpper(s)
  {
    if s != [] {
      FoldChar(s[1..], c);
      assert s == [s[0]] + s[1..];
    }
  }

  lemma FoldDot(s: string, t: string)
    requires '.' in s && '.' !in t
    ensures !EqualFold(s, t)
  {
    FoldChar(s, '.');
    FoldChar(t, '.');
  }

  lemma FrameTooLong(kind: string, body: string, sum: string)
    requires '.' !in kind && '.' !in body && '.' in sum
    ensures |Split(Framed(kind, body, sum), '.')| > 4
  {
    var j :| 0 <= j < |sum| && sum[j] == '.';
    FramedText(kind, body, sum);
    var head := Framed(kind, body, sum[..j]);
    FramedText(kind, body, sum[..j]);
    assert Framed(kind, body, sum) == head + ['.'] + sum[j + 1..] by {
      assert sum == sum[..j] + ['.'] + sum[j + 1..];
    }
    SplitAppend(head, sum[j + 1..], '.');
    SplitAppend(PREFIX + "." + kind + "." + body, sum[..j], '.');
    SplitAppend(PREFIX + "." + kind, body, '.');
    SplitAppend(PREFIX, kind, '.');
    assert head == (PREFIX + "." + kind + "." + body) + ['.'] + sum[..j];
    assert PREFIX + "." + kind + "." + body == (PREFIX + "." + kind) + ['.'] + body;
    assert PREFIX + "." + kind == PREFIX + ['.'] + kind;
  }

  /** A truncated token is never accepted, whatever the hash function does. */
  lemma TruncationRejected<T>(codec: Codec<T>, hash: Hash, kind: string, value: T, n: nat, expected: string)
    requires Encode(codec, hash, kind, value).Some? && n < |Encode(codec, hash, kind, value).value|
    ensures Decode(codec, hash, Encode(codec, hash, kind, value).value[..n], expected).Err?
  {
    var t := Encode(codec, hash, kind, value).value;
    var k, body := ToUpper(TrimSpace(kind)), Base64Url.Encode(codec.marshal(value));
    var want := Checksum(hash, k, body);
    EncodeFrame(codec, hash, kind, value);
    FramedText(k, body, want);
    ChecksumText(hash, k, body);
    TokenTrim(t[..n]);
    var head := PREFIX + "." + k + "." + body;
    assert t == head + "." + want;
    if n > |head| {
      var part := want[..n - |head| - 1];
      assert t[..n] == head + "." + part;
      FramedText(k, body, part);
      assert '.' !in part;
      FrameParts(k, body, part);
      FoldLength(part);
      FoldLength(want);
    } else {
      assert t[..n] == head[..n];
      FewDots(k, body, n);
    }
  }

  lemma {:induction false} SplitPrefix(s: string, n: nat, sep: char)
    requires n <= |s|
    ensures |Split(s[..n], sep)| <= |Split(s, sep)|
  {
    if n > 0 {
      assert s[..n][1..] == s[1..][..n - 1];
      SplitPrefix(s[1..], n - 1, sep);
    }
  }

  lemma FewDots(kind: string, body: string, n: nat)
    requires '.' !in kind && '.' !in body && n <= |PREFIX + "." + kind + "." + body|
    ensures |Split((PREFIX + "." + kind + "." + body)[..n], '.')| < 4
  {
    var p := [PREFIX, kind, body];
    assert forall i :: 0 <= i < |PREFIX| ==> InAlphabet(PREFIX[i]);
    assert Without(p, '.');
    SplitJoin(p, '.');
    assert p[1..] == [kind, body] && p[1..][1..] == [body];
    assert Join([kind, body], ".") == kind + "." + Join([kind, body][1..], ".");
    assert Join(p, ".") == PREFIX + "." + kind + "." + body;
    SplitPrefix(Join(p, "."), n, '.');
  }
}
