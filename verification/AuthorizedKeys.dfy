/** authorizeSSHPeer: the gateway's authorized_keys file under repeated accepts (internal/app/app.go). */
module AuthorizedKeys {
  import opened Text

  const NO_AGENT := "no-agent-forwarding,"
  const NO_X11 := "no-X11-forwarding,"
  const NO_PTY := "no-pty,"
  const NO_USER_RC := "no-user-rc"
  const OPTIONS := NO_AGENT + NO_X11 + NO_PTY + NO_USER_RC

  /** `strings.Contains`. */
  predicate Contains(s: string, sub: string) {
    sub <= s || (s != "" && Contains(s[1..], sub))
  }

  /** `strings.Fields`. */
  function Fields(s: string): seq<string> {
    Words(s, "")
  }

  function Words(s: string, word: string): seq<string> {
    if s == "" then if word == "" then [] else [word]
    else if IsSpace(s[0]) then (if word == "" then [] else [word]) + Words(s[1..], "")
    else Words(s[1..], word + [s[0]])
  }

  lemma {:induction false} WordsSpaceless(s: string, word: string)
    requires Spaceless(word)
    ensures forall i :: 0 <= i < |Words(s, word)| ==> Spaceless(Words(s, word)[i])
  {
    if s != "" {
      WordsSpaceless(s[1..], "");
      if !IsSpace(s[0]) {
        WordsSpaceless(s[1..], word + [s[0]]);
      }
    }
  }

  /** A word in progress and blanks in front of the rest. */
  lemma {:induction false} WordsOf(a: string, s: string, word: string)
    requires Spaceless(a)
    ensures Words(a + s, word) == Words(s, word + a)
  {
    if a == "" {
      assert a + s == s && word + a == word;
    } else {
      assert (a + s)[1..] == a[1..] + s && word + [a[0]] + a[1..] == word + a;
      WordsOf(a[1..], s, word + [a[0]]);
    }
  }

  lemma {:induction false} WordsBlank(b: string, s: string)
    requires Blank(b)
    ensures Words(b + s, "") == Words(s, "")
  {
    if b == "" {
      assert b + s == s;
    } else {
      assert (b + s)[1..] == b[1..] + s;
      WordsBlank(b[1..], s);
    }
  }

  /** The first field: what stands before the first blank, and the fields of what follows. */
  lemma FieldsCons(a: string, b: string, s: string)
    requires a != "" && Spaceless(a) && b != "" && Blank(b)
    ensures Fields(a + b + s) == [a] + Fields(s)
    ensures Fields(a) == [a] && Fields(b + s) == Fields(s) && Fields("") == []
  {
    assert a + b + s == a + (b + s);
    WordsOf(a, b + s, "");
    assert "" + a == a;
    assert (b + s)[0] == b[0] && (b + s)[1..] == b[1..] + s;
    WordsBlank(b[1..], s);
    WordsBlank(b, s);
    WordsOf(a, "", "");
    assert a + "" == a;
  }

  lemma {:induction false} WordsEnd(s: string, b: string, word: string)
    requires Blank(b)
    ensures Words(s + b, word) == Words(s, word)
  {
    if s == "" {
      assert s + b == b;
      if b != "" {
        WordsBlank(b[1..], "");
        assert b[1..] + "" == b[1..];
      }
    } else {
      assert (s + b)[1..] == s[1..] + b && (s + b)[0] == s[0];
      WordsEnd(s[1..], b, "");
      WordsEnd(s[1..], b, word + [s[0]]);
    }
  }

  lemma {:induction false} TrimLeftCut(s: string) returns (b: string)
    ensures Blank(b) && s == b + TrimLeft(s)
  {
    if s != "" && IsSpace(s[0]) {
      var c := TrimLeftCut(s[1..]);
      b := [s[0]] + c;
      assert s == [s[0]] + s[1..];
    } else {
      b := "";
    }
  }

  lemma {:induction false} TrimRightCut(s: string) returns (b: string)
    ensures Blank(b) && s == TrimRight(s) + b
  {
    if s != "" && IsSpace(s[|s| - 1]) {
      var c := TrimRightCut(s[..|s| - 1]);
      b := c + [s[|s| - 1]];
      assert s == s[..|s| - 1] + [s[|s| - 1]];
    } else {
      b := "";
    }
  }

  /** Trimming first makes no difference to the fields. */
  lemma FieldsTrimmed(s: string)
    ensures Fields(TrimSpace(s)) == Fields(s)
  {
    var b := TrimLeftCut(s);
    var c := TrimRightCut(TrimLeft(s));
    WordsBlank(b, TrimLeft(s));
    WordsEnd(TrimSpace(s), c, "");
  }

  function Marker(id: string): string {
    "hamara-" + id
  }

  /** The key text that a response's public key stands for; None when it is refused. */
  function KeyOf(pub: string): Option<string> {
    var f := Fields(TrimSpace(pub));
    if |f| < 2 || f[0] != "ssh-ed25519" then None else Some(f[0] + " " + f[1])
  }

  function Entry(key: string, marker: string): string {
    OPTIONS + " " + key + " " + marker
  }

  /** A line that survives: not blank, and not of this instance. */
  predicate Survives(line: string, marker: string) {
    !Contains(line, marker) && TrimSpace(line) != ""
  }

  function Survivors(lines: seq<string>, marker: string): seq<string> {
    if lines == [] then []
    else (if Survives(lines[0], marker) then [lines[0]] else []) + Survivors(lines[1..], marker)
  }

  lemma SurvivorsCons(lines: seq<string>, marker: string)
    requires lines != []
    ensures Survivors(lines, marker)
         == (if Survives(lines[0], marker) then [lines[0]] else []) + Survivors(lines[1..], marker)
  {
  }

  /** `Contains` finds a text exactly where it stands. */
  lemma {:induction false} ContainsAt(s: string, sub: string)
    ensures Contains(s, sub) <==> exists a, b :: s == a + sub + b
  {
    if sub <= s {
      assert s == "" + sub + s[|sub|..];
    } else if s != "" {
      ContainsAt(s[1..], sub);
      if Contains(s[1..], sub) {
        var a, b :| s[1..] == a + sub + b;
        assert s == ([s[0]] + a) + sub + b;
      }
      if a, b :| s == a + sub + b {
        assert a != "" ==> s[1..] == a[1..] + sub + b;
      }
    }
  }

  /** What becomes of each line: kept in its place unless it is blank or carries the marker. */
  lemma SurvivorsExact(a: seq<string>, line: string, b: seq<string>, marker: string)
    ensures Survivors(a + [line] + b, marker)
         == Survivors(a, marker) + (if TrimSpace(line) != "" && !Contains(line, marker) then [line] else [])
            + Survivors(b, marker)
    ensures Survivors([], marker) == []
  {
    SurvivorsAppend(a + [line], b, marker);
    SurvivorsAppend(a, [line], marker);
    SurvivorsCons([line], marker);
    assert [line][1..] == [];
  }

  /** The accepted keys: a second field behind "ssh-ed25519", whatever blanks and comment there are. */
  lemma KeyOfText(pub: string, key: string)
    ensures KeyOf(pub) == Some(key)
       <==> var f := Fields(pub); |f| >= 2 && f[0] == "ssh-ed25519" && key == "ssh-ed25519" + " " + f[1]
  {
    FieldsTrimmed(pub);
  }

  /** In particular the line that ssh-keygen writes, with its comment. */
  lemma GeneratedKey(body: string, comment: string)
    requires body != "" && Spaceless(body)
    ensures KeyOf("ssh-ed25519" + " " + body + " " + comment) == Some("ssh-ed25519" + " " + body)
  {
    var pub := "ssh-ed25519" + " " + body + " " + comment;
    KeyOfText(pub, "ssh-ed25519" + " " + body);
    FieldsCons("ssh-ed25519", " ", body + " " + comment);
    FieldsCons(body, " ", comment);
    assert pub == "ssh-ed25519" + " " + (body + " " + comment);
  }

  function Rewritten(content: string, marker: string, entry: string): string {
    Join(Survivors(Split(content, '\n'), marker) + [entry], "\n") + "\n"
  }

  /** The SSH account's file; a missing file reads as empty. */
  class Account {
    var file: string

    constructor (file: string)
      ensures this.file == file
    {
      this.file := file;
    }

    /** The loop over the lines of the old file. */
    method Filter(marker: string) returns (lines: seq<string>)
      ensures lines == Survivors(Split(file, '\n'), marker)
    {
      var all := Split(file, '\n');
      lines := [];
      for i := 0 to |all|
        invariant lines + Survivors(all[i..], marker) == Survivors(all, marker)
      {
        SurvivorsCons(all[i..], marker);
        assert all[i..][1..] == all[i + 1..];
        if !Contains(all[i], marker) && TrimSpace(all[i]) != "" {
          lines := lines + [all[i]];
        }
      }
      assert all[|all|..] == [];
    }

    /** A refused key, or a failure before the write, leaves the file; a later failure (chown) leaves it rewritten. */
    method Authorize(id: string, pub: string) returns (ok: bool)
      modifies this
      ensures KeyOf(pub).None? ==> !ok && file == old(file)
      ensures KeyOf(pub).Some? ==>
                file in {old(file), Rewritten(old(file), Marker(id), Entry(KeyOf(pub).value, Marker(id)))}
      ensures ok ==> KeyOf(pub).Some? && file == Rewritten(old(file), Marker(id), Entry(KeyOf(pub).value, Marker(id)))
    {
      ok := false;
      var key := KeyOf(pub);
      if key.None? { return; }
      var checked: bool := *; // ssh-keygen -lf
      if !checked { return; }
      var lines := Filter(Marker(id));
      var written: bool := *;
      if !written { return; }
      file := Join(lines + [Entry(key.value, Marker(id))], "\n") + "\n";
      ok := *;
    }
  }

  // ---- what the rewriting keeps ----

  lemma {:induction false} ContainsAtEnd(a: string, sub: string)
    ensures Contains(a + sub, sub)
  {
    if a == "" {
      assert a + sub == sub;
    } else {
      ContainsAtEnd(a[1..], sub);
      assert (a + sub)[1..] == a[1..] + sub;
    }
  }

  lemma {:induction false} SurvivorsOf(lines: seq<string>, marker: string)
    ensures forall i :: 0 <= i < |Survivors(lines, marker)| ==>
              Survives(Survivors(lines, marker)[i], marker) && Survivors(lines, marker)[i] in lines
    ensures Survivors(Survivors(lines, marker), marker) == Survivors(lines, marker)
  {
    if lines != [] {
      var rest := Survivors(lines[1..], marker);
      SurvivorsOf(lines[1..], marker);
      assert lines == [lines[0]] + lines[1..];
      if Survives(lines[0], marker) {
        assert ([lines[0]] + rest)[1..] == rest;
      } else {
        assert Survivors(lines, marker) == rest;
      }
    }
  }

  lemma {:induction false} SurvivorsAppend(a: seq<string>, b: seq<string>, marker: string)
    ensures Survivors(a + b, marker) == Survivors(a, marker) + Survivors(b, marker)
  {
    if a == [] {
      assert a + b == b;
    } else {
      assert (a + b)[1..] == a[1..] + b;
      SurvivorsAppend(a[1..], b, marker);
    }
  }

  /** An entry is one line: key texts and instance IDs hold no line break. */
  lemma EntryIsALine(id: string, pub: string)
    requires KeyOf(pub).Some? && '\n' !in id
    ensures '\n' !in Entry(KeyOf(pub).value, Marker(id))
    ensures Contains(Entry(KeyOf(pub).value, Marker(id)), Marker(id))
  {
    var f := Fields(TrimSpace(pub));
    WordsSpaceless(TrimSpace(pub), "");
    assert Spaceless(f[1]) && Spaceless(f[0]);
    assert '\n' !in f[0] && '\n' !in f[1] by {
      assert IsSpace('\n');
    }
    assert '\n' !in NO_AGENT && '\n' !in NO_X11 && '\n' !in NO_PTY && '\n' !in NO_USER_RC;
    assert '\n' !in " ";
    assert '\n' !in KeyOf(pub).value;
    assert '\n' !in "hamara-";
    assert '\n' !in Marker(id);
    ContainsAtEnd(OPTIONS + " " + KeyOf(pub).value + " ", Marker(id));
  }

  /** The lines of the new file: the survivors in their order, then the entry, then the end of the file. */
  lemma RewrittenLines(content: string, marker: string, entry: string)
    requires '\n' !in entry
    ensures Split(Rewritten(content, marker, entry), '\n') == Survivors(Split(content, '\n'), marker) + [entry, ""]
  {
    var kept := Survivors(Split(content, '\n'), marker);
    JoinSplit(content, '\n');
    SurvivorsOf(Split(content, '\n'), marker);
    assert Without(kept + [entry], '\n');
    SplitJoin(kept + [entry], '\n');
    var body := Join(kept + [entry], "\n");
    SplitAppend(body, "", '\n');
    assert body + ['\n'] + "" == Rewritten(content, marker, entry);
    assert kept + [entry] + [""] == kept + [entry, ""];
  }

  /** After an accept exactly one line carries the instance's marker, and it is the restricted entry of the key just
      accepted; the other lines are the old file's survivors, among them every old line that is neither blank nor of
      this instance. */
  lemma OneMarkedLine(content: string, id: string, pub: string)
    requires KeyOf(pub).Some? && '\n' !in id
    ensures var marker, old' := "hamara-" + id, Split(content, '\n');
            var lines := Split(Rewritten(content, Marker(id), Entry(KeyOf(pub).value, Marker(id))), '\n');
            && |lines| >= 2
            && lines[|lines| - 2] == "no-agent-forwarding,no-X11-forwarding,no-pty,no-user-rc" + " " + KeyOf(pub).value
                                     + " " + marker
            && (forall i :: 0 <= i < |lines| ==> (Contains(lines[i], marker) <==> i == |lines| - 2))
            && lines[..|lines| - 2] == Survivors(old', marker)
            && forall line :: line in lines[..|lines| - 2]
                 <==> line in old' && TrimSpace(line) != "" && !Contains(line, marker)
  {
    assert OPTIONS == "no-agent-forwarding,no-X11-forwarding,no-pty,no-user-rc";
    EntryIsALine(id, pub);
    RewrittenLines(content, Marker(id), Entry(KeyOf(pub).value, Marker(id)));
    SurvivorsOf(Split(content, '\n'), Marker(id));
    SurvivorMembers(Split(content, '\n'), Marker(id));
  }

  lemma {:induction false} SurvivorMembers(lines: seq<string>, marker: string)
    ensures forall line ::
              line in Survivors(lines, marker) <==> line in lines && TrimSpace(line) != "" && !Contains(line, marker)
  {
    if lines != [] {
      SurvivorMembers(lines[1..], marker);
      assert lines == [lines[0]] + lines[1..];
    }
  }

  /** Accepting twice in a row is accepting the second key only; in particular repeating an accept is a no-op. */
  lemma LastAcceptWins(content: string, id: string, first: string, second: string)
    requires KeyOf(first).Some? && KeyOf(second).Some? && '\n' !in id
    ensures var m := Marker(id);
            var e, e' := Entry(KeyOf(first).value, m), Entry(KeyOf(second).value, m);
            Rewritten(Rewritten(content, m, e), m, e') == Rewritten(content, m, e')
  {
    var m := Marker(id);
    var e := Entry(KeyOf(first).value, m);
    var kept := Survivors(Split(content, '\n'), m);
    EntryIsALine(id, first);
    RewrittenLines(content, m, e);
    SurvivorsOf(Split(content, '\n'), m);
    SurvivorsAppend(kept, [e, ""], m);
    assert TrimSpace("") == "";
    assert !Survives(e, m) && !Survives("", m);
    SurvivorsCons([e, ""], m);
    SurvivorsCons([""], m);
    assert [e, ""][1..] == [""] && [""][1..] == [];
    assert Survivors([e, ""], m) == [];
    assert Survivors(kept + [e, ""], m) == kept;
  }

  function AfterAll(content: string, id: string, pubs: seq<string>): string
    requires forall i :: 0 <= i < |pubs| ==> KeyOf(pubs[i]).Some?
  {
    if pubs == [] then content
    else
      var before := AfterAll(content, id, pubs[..|pubs| - 1]);
      Rewritten(before, Marker(id), Entry(KeyOf(pubs[|pubs| - 1]).value, Marker(id)))
  }

  /** Any sequence of successful accepts leaves the file that the last one alone would have written. */
  lemma {:induction false} OnlyLastMatters(content: string, id: string, pubs: seq<string>)
    requires pubs != [] && (forall i :: 0 <= i < |pubs| ==> KeyOf(pubs[i]).Some?) && '\n' !in id
    ensures AfterAll(content, id, pubs)
         == Rewritten(content, Marker(id), Entry(KeyOf(pubs[|pubs| - 1]).value, Marker(id)))
  {
    var before := pubs[..|pubs| - 1];
    if before != [] {
      OnlyLastMatters(content, id, before);
      LastAcceptWins(content, id, before[|before| - 1], pubs[|pubs| - 1]);
    }
  }
}
