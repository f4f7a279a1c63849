/** shellArg (internal/render/render.go) against a POSIX shell word reader (XCU section 2.2). */
module Shell {
  import opened Text

  const QUOTE := '\''

  /** The renderer's quoting: every apostrophe becomes close-quote, escaped apostrophe, open-quote. */
  function ShellArg(s: string): string {
    "'" + ReplaceAll(s, QUOTE, "'\\''") + "'"
  }

  /** Characters a shell passes through outside quotes. Everything else unquoted is an operator, an expansion,
      a pattern or a comment, which this reader does not interpret. */
  predicate Plain(c: char) {
    IsDigit(c) || 'a' <= c <= 'z' || 'A' <= c <= 'Z' || c in "_-./:,+=@%^"
  }

  predicate Blank(c: char) {
    c == ' ' || c == '\t'
  }

  datatype Mode = Outside | Inside

  /** Reads one simple command line into words. `word` is the word being read, None between words; a NUL, an
      unterminated quote or an unquoted special character makes the whole reading fail. */
  function Read(text: string, mode: Mode, word: Option<string>): Option<seq<string>> {
    if text == "" then
      if mode == Inside then None else Some(if word.Some? then [word.value] else [])
    else
      var c, sofar := text[0], if word.Some? then word.value else "";
      if c == 0 as char then None
      else if mode == Inside then
        if c == QUOTE then Read(text[1..], Outside, Some(sofar)) else Read(text[1..], Inside, Some(sofar + [c]))
      else if c == QUOTE then Read(text[1..], Inside, Some(sofar))
      else if c == '\\' then
        if |text| == 1 || text[1] == '\n' || text[1] == 0 as char then None
        else Read(text[2..], Outside, Some(sofar + [text[1]]))
      else if Blank(c) then
        var rest := Read(text[1..], Outside, None);
        if rest.None? then None else Some((if word.Some? then [word.value] else []) + rest.value)
      else if Plain(c) then Read(text[1..], Outside, Some(sofar + [c]))
      else None
  }

  function Words(text: string): Option<seq<string>> {
    Read(text, Outside, None)
  }

  function Quoted(args: seq<string>): seq<string> {
    if args == [] then [] else [ShellArg(args[0])] + Quoted(args[1..])
  }

  predicate NulFree(s: string) {
    0 as char !in s
  }

  ghost predicate AllNulFree(args: seq<string>) {
    forall i :: 0 <= i < |args| ==> NulFree(args[i])
  }

  /** The four characters that stand for one apostrophe. */
  lemma ReadApostrophe(tail: string, sofar: string)
    ensures Read("'\\''" + tail, Inside, Some(sofar)) == Read(tail, Inside, Some(sofar + "'"))
  {
    var text := "'\\''" + tail;
    assert text[1..] == ['\\', '\'', '\''] + tail;
    assert text[1..][2..] == ['\''] + tail;
    assert text[1..][2..][1..] == tail;
    assert Read(text, Inside, Some(sofar)) == Read(text[1..], Outside, Some(sofar));
    assert Read(text[1..], Outside, Some(sofar)) == Read(text[1..][2..], Outside, Some(sofar + "'"));
  }

  /** Inside quotes, the escaped form of `s` appends exactly `s` to the word being read. */
  lemma {:induction false} ReadEscaped(s: string, rest: string, sofar: string)
    requires NulFree(s)
    ensures Read(ReplaceAll(s, QUOTE, "'\\''") + rest, Inside, Some(sofar)) == Read(rest, Inside, Some(sofar + s))
  {
    var text := ReplaceAll(s, QUOTE, "'\\''") + rest;
    if s == "" {
      assert text == rest && sofar + s == sofar;
    } else {
      var tail := ReplaceAll(s[1..], QUOTE, "'\\''") + rest;
      assert NulFree(s[1..]) && s[0] != 0 as char;
      ReadEscaped(s[1..], rest, sofar + [s[0]]);
      assert sofar + [s[0]] + s[1..] == sofar + s;
      if s[0] == QUOTE {
        ReadApostrophe(tail, sofar);
        assert text == "'\\''" + tail;
      } else {
        assert text == [s[0]] + tail;
      }
    }
  }

  /** A NUL anywhere inside the quotes makes the reading fail. */
  lemma {:induction false} ReadNul(s: string, rest: string, sofar: string)
    requires !NulFree(s)
    ensures Read(ReplaceAll(s, QUOTE, "'\\''") + rest, Inside, Some(sofar)).None?
  {
    var text := ReplaceAll(s, QUOTE, "'\\''") + rest;
    var tail := ReplaceAll(s[1..], QUOTE, "'\\''") + rest;
    if s[0] == 0 as char {
      assert text == [s[0]] + tail;
    } else {
      assert s == [s[0]] + s[1..];
      ReadNul(s[1..], rest, sofar + [s[0]]);
      if s[0] == QUOTE {
        ReadApostrophe(tail, sofar);
        assert text == "'\\''" + tail;
      } else {
        assert text == [s[0]] + tail;
      }
    }
  }

  /** A quoted argument extends the current word by the argument, whatever follows. */
  lemma ReadQuoted(s: string, rest: string, word: Option<string>)
    requires NulFree(s)
    ensures Read(ShellArg(s) + rest, Outside, word)
         == Read(rest, Outside, Some((if word.Some? then word.value else "") + s))
  {
    var sofar := if word.Some? then word.value else "";
    var body := ReplaceAll(s, QUOTE, "'\\''") + ("'" + rest);
    assert ShellArg(s) + rest == ['\''] + body;
    ReadEscaped(s, "'" + rest, sofar);
    assert ("'" + rest)[1..] == rest;
  }

  /** Reading `a` quoted, alone or followed by a blank and more text. */
  lemma ReadFirst(a: string, tail: string, last: bool)
    ensures var rest := if last then "" else " " + tail;
            Words(ShellArg(a) + rest)
            == if !NulFree(a) then None
               else if last then Some([a])
               else if Words(tail).None? then None else Some([a] + Words(tail).value)
  {
    var rest := if last then "" else " " + tail;
    if NulFree(a) {
      ReadQuoted(a, rest, None);
      assert "" + a == a;
      assert !last ==> rest[1..] == tail;
    } else {
      assert ShellArg(a) + rest == ['\''] + (ReplaceAll(a, QUOTE, "'\\''") + ("'" + rest));
      ReadNul(a, "'" + rest, "");
    }
  }

  /** Quoting an argument list and reading it back gives the same list, exactly when no argument holds a NUL. */
  lemma {:induction false} QuotingRoundTrip(args: seq<string>)
    ensures Words(Join(Quoted(args), " ")) == if AllNulFree(args) then Some(args) else None
  {
    if args != [] {
      var a, more := args[0], args[1..];
      assert args == [a] + more;
      assert Quoted(args)[1..] == Quoted(more);
      assert Join(Quoted(args), " ")
          == ShellArg(a) + (if more == [] then "" else " " + Join(Quoted(more), " "));
      QuotingRoundTrip(more);
      ReadFirst(a, Join(Quoted(more), " "), more == []);
      assert AllNulFree(args) <==> NulFree(a) && AllNulFree(more) by {
        assert forall i :: 0 <= i < |more| ==> more[i] == args[i + 1];
        assert forall i :: 0 < i < |args| ==> args[i] == more[i - 1];
      }
      assert more == [] ==> args == [a];
      if !AllNulFree(args) {
        assert Words(Join(Quoted(args), " ")).None?;
      } else {
        assert Words(Join(Quoted(args), " ")).value == [a] + more;
      }
    }
  }

  lemma {:induction false} ReadPlain(name: string, rest: string, sofar: string)
    requires forall i :: 0 <= i < |name| ==> Plain(name[i])
    ensures name != "" ==> Read(name + rest, Outside, Some(sofar)) == Read(rest, Outside, Some(sofar + name))
  {
    if name != "" {
      assert Plain(name[0]);
      assert (name + rest)[1..] == name[1..] + rest;
      if |name| == 1 {
        assert (name + rest)[1..] == rest && sofar + [name[0]] == sofar + name;
      } else {
        ReadPlain(name[1..], rest, sofar + [name[0]]);
        assert sofar + [name[0]] + name[1..] == sofar + name;
      }
    }
  }

  /** Each generated script opens with lines like `WAN=` followed by a quoted value: such a line is one word that
      binds exactly the intended value. */
  lemma AssignmentBinds(name: string, value: string)
    requires name != "" && (forall i :: 0 <= i < |name| ==> Plain(name[i])) && NulFree(value)
    ensures Words(name + "=" + ShellArg(value)) == Some([name + "=" + value])
  {
    var text := name + "=" + ShellArg(value);
    var head := name + "=";
    assert text == head + ShellArg(value);
    assert text[1..] == head[1..] + ShellArg(value);
    assert Plain(head[0]);
    assert "" + [head[0]] == [head[0]];
    assert Words(text) == Read(text[1..], Outside, Some([head[0]]));
    ReadPlain(head[1..], ShellArg(value), [head[0]]);
    assert [head[0]] + head[1..] == head;
    ReadQuoted(value, "", Some(head));
    assert ShellArg(value) + "" == ShellArg(value);
  }
}
