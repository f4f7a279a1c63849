/** ValidEndpointHost (internal/model/model.go) against the host-name grammar of RFC 1123, section 2.1. */
module HostName {
  import opened Text
  import opened Address

  predicate NameChar(c: char) {
    IsDigit(c) || 'a' <= c <= 'z' || 'A' <= c <= 'Z' || c == '-'
  }

  /** The regular expression of allowed characters and length. */
  predicate Pattern(s: string) {
    1 <= |s| <= 253 && forall i :: 0 <= i < |s| ==> NameChar(s[i]) || s[i] == '.'
  }

  predicate LabelAccepted(l: string) {
    !(l == "" || |l| > 63 || l[0] == '-' || l[|l| - 1] == '-')
  }

  /** The loop over the labels: stops at the first label that is refused. */
  predicate LabelsAccepted(parts: seq<string>) {
    parts == [] || (LabelAccepted(parts[0]) && LabelsAccepted(parts[1..]))
  }

  predicate ValidEndpointHost(six: SixReader, s: string) {
    var t := TrimSpace(s);
    var ip := ParseIP(six, t);
    if ip != NotIP then ip.Four?
    else if !Pattern(t) || t[0] == '.' || t[|t| - 1] == '.' then false
    else LabelsAccepted(Split(t, '.'))
  }

  // ---- the grammar ----

  ghost predicate LetDigHyp(c: char) {
    c in "abcdefghijklmnopqrstuvwxyz" || c in "ABCDEFGHIJKLMNOPQRSTUVWXYZ" || c in "0123456789" || c == '-'
  }

  ghost predicate IsLabel(l: string) {
    1 <= |l| <= 63 && l[0] != '-' && l[|l| - 1] != '-' && forall i :: 0 <= i < |l| ==> LetDigHyp(l[i])
  }

  lemma SameLetters(c: char)
    ensures LetDigHyp(c) <==> NameChar(c)
  {
    var lower, upper, digits := "abcdefghijklmnopqrstuvwxyz", "ABCDEFGHIJKLMNOPQRSTUVWXYZ", "0123456789";
    assert forall i :: 0 <= i < 26 ==> lower[i] == 'a' + i as char;
    assert forall i :: 0 <= i < 26 ==> upper[i] == 'A' + i as char;
    assert forall i :: 0 <= i < 10 ==> digits[i] == '0' + i as char;
    if 'a' <= c <= 'z' {
      assert lower[c as int - 97] == c;
    } else if 'A' <= c <= 'Z' {
      assert upper[c as int - 65] == c;
    } else if '0' <= c <= '9' {
      assert digits[c as int - 48] == c;
    }
  }

  ghost predicate AllLabels(parts: seq<string>) {
    forall i :: 0 <= i < |parts| ==> IsLabel(parts[i])
  }

  ghost predicate DerivedFrom(s: string, labels: seq<string>) {
    labels != [] && AllLabels(labels) && Join(labels, ".") == s
  }

  ghost predicate IsHostName(s: string) {
    |s| <= 253 && exists labels :: DerivedFrom(s, labels)
  }

  lemma {:induction false} LoopMeaning(parts: seq<string>)
    ensures LabelsAccepted(parts) <==> forall i :: 0 <= i < |parts| ==> LabelAccepted(parts[i])
  {
    if parts != [] {
      LoopMeaning(parts[1..]);
      assert forall i :: 0 < i < |parts| ==> parts[i] == parts[1..][i - 1];
    }
  }

  /** The characters of a joined text are those of its parts and the separator. */
  lemma {:induction false} JoinChars(parts: seq<string>, i: nat)
    requires i < |Join(parts, ".")|
    ensures Join(parts, ".")[i] == '.'
            || exists k, j :: 0 <= k < |parts| && 0 <= j < |parts[k]| && parts[k][j] == Join(parts, ".")[i]
  {
    var s := Join(parts, ".");
    if i < |parts[0]| {
      assert parts[0][i] == s[i];
    } else if i > |parts[0]| {
      var rest := Join(parts[1..], ".");
      assert s[i] == rest[i - |parts[0]| - 1];
      JoinChars(parts[1..], i - |parts[0]| - 1);
      if s[i] != '.' {
        var k, j :| 0 <= k < |parts[1..]| && 0 <= j < |parts[1..][k]| && parts[1..][k][j] == s[i];
        assert parts[k + 1][j] == s[i];
      }
    }
  }

  lemma {:induction false} PartChars(parts: seq<string>, k: nat, j: nat)
    requires k < |parts| && j < |parts[k]|
    ensures exists i :: 0 <= i < |Join(parts, ".")| && Join(parts, ".")[i] == parts[k][j]
  {
    var s := Join(parts, ".");
    if k == 0 {
      assert s[j] == parts[0][j];
    } else {
      PartChars(parts[1..], k - 1, j);
      var rest := Join(parts[1..], ".");
      var i :| 0 <= i < |rest| && rest[i] == parts[k][j];
      assert s[|parts[0]| + 1 + i] == rest[i];
    }
  }

  /** A dot at either end gives an empty label. */
  lemma EdgeDots(t: string)
    requires t != ""
    ensures t[0] == '.' ==> Split(t, '.')[0] == ""
    ensures t[|t| - 1] == '.' ==> Split(t, '.')[|Split(t, '.')| - 1] == ""
  {
    if t[|t| - 1] == '.' {
      var a := t[..|t| - 1];
      assert t == a + ['.'] + "";
      SplitAppend(a, "", '.');
      assert Split("", '.') == [""];
    }
  }

  /** The check for a leading or trailing dot never decides anything: the label loop refuses the empty label. */
  lemma DotChecksImplied(t: string)
    requires t != "" && LabelsAccepted(Split(t, '.'))
    ensures t[0] != '.' && t[|t| - 1] != '.'
  {
    EdgeDots(t);
    LoopMeaning(Split(t, '.'));
  }

  /** A name is accepted exactly when the grammar derives it. */
  lemma AcceptedIsDerived(t: string)
    ensures Pattern(t) && LabelsAccepted(Split(t, '.')) <==> IsHostName(t)
  {
    var parts := Split(t, '.');
    forall c ensures LetDigHyp(c) <==> NameChar(c) {
      SameLetters(c);
    }
    JoinSplit(t, '.');
    LoopMeaning(parts);
    if Pattern(t) && LabelsAccepted(parts) {
      forall k, j | 0 <= k < |parts| && 0 <= j < |parts[k]| ensures NameChar(parts[k][j]) {
        PartChars(parts, k, j);
        assert '.' !in parts[k];
      }
      assert DerivedFrom(t, parts);
    }
    if IsHostName(t) {
      var labels :| DerivedFrom(t, labels);
      forall k | 0 <= k < |labels| ensures '.' !in labels[k] {
        assert IsLabel(labels[k]);
      }
      assert Without(labels, '.');
      SplitJoin(labels, '.');
      assert parts == labels && forall k :: 0 <= k < |labels| ==> IsLabel(labels[k]);
      forall i | 0 <= i < |t| ensures NameChar(t[i]) || t[i] == '.' {
        JoinChars(labels, i);
      }
      assert t != "" by {
        assert IsLabel(labels[0]);
      }
    }
  }

  /** The validator is the union of the IPv4 reader and the grammar, on the trimmed text. */
  lemma ValidatorIsGrammar(six: SixReader, s: string)
    ensures ValidEndpointHost(six, s)
       <==> match ParseIP(six, TrimSpace(s))
            case Four(_) => true
            case Six => false
            case NotIP => IsHostName(TrimSpace(s))
  {
    var t := TrimSpace(s);
    AcceptedIsDerived(t);
    if Pattern(t) && LabelsAccepted(Split(t, '.')) {
      DotChecksImplied(t);
    }
  }
}
