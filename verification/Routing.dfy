/** Linux policy routing: the rule list and Hamara's own table. */
module Routing {
  import opened Text
  import opened Netfilter

  datatype Hop = Dev(name: string) | Unreachable

  datatype Selector = FwMark(value: nat) | From(addr: nat) | Other(id: nat)

  datatype PolicyRule = PolicyRule(priority: nat, sel: Selector, table: nat)

  /** A default route; a table lists them in the kernel's order, lowest metric first. */
  datatype Route = Route(metric: nat, hop: Hop)

  type Table = seq<Route>

  /** Selectors and tables of other software: which packets, and what a lookup there finds. */
  datatype Elsewhere = Elsewhere(selects: (nat, Packet) -> bool, finds: (nat, Packet) -> Option<Hop>)

  function Lookup(t: Table): Option<Hop> {
    if t == [] then None else Some(t[0].hop)
  }

  predicate Selects(e: Elsewhere, sel: Selector, p: Packet) {
    match sel
    case FwMark(v) => p.mark == v
    case From(a) => p.src == a
    case Other(id) => e.selects(id, p)
  }

  /** What one policy rule contributes: None when the walk goes on. `own` is the content of table `id`. */
  function Resolve(e: Elsewhere, id: nat, own: Table, r: PolicyRule, p: Packet): Option<Hop> {
    if !Selects(e, r.sel, p) then None else if r.table == id then Lookup(own) else e.finds(r.table, p)
  }

  /** The ordered walk: an empty lookup falls through to the next rule, an unreachable route stops. */
  function Walk(e: Elsewhere, id: nat, own: Table, rules: seq<PolicyRule>, p: Packet): Option<Hop> {
    if rules == [] then None
    else if Resolve(e, id, own, rules[0], p).Some? then Resolve(e, id, own, rules[0], p)
    else Walk(e, id, own, rules[1..], p)
  }

  // ---- editing the rule list ----

  /** `ip rule add`: behind every rule of the same or a smaller priority number. */
  function AddRule(rules: seq<PolicyRule>, r: PolicyRule): seq<PolicyRule> {
    if rules == [] || rules[0].priority > r.priority then [r] + rules else [rules[0]] + AddRule(rules[1..], r)
  }

  /** `ip rule del`: the first rule that equals `r`. */
  function DelRule(rules: seq<PolicyRule>, r: PolicyRule): seq<PolicyRule>
    requires r in rules
  {
    if rules[0] == r then rules[1..] else [rules[0]] + DelRule(rules[1..], r)
  }

  function Stripped(rules: seq<PolicyRule>, r: PolicyRule): seq<PolicyRule> {
    if rules == [] then [] else (if rules[0] == r then [] else [rules[0]]) + Stripped(rules[1..], r)
  }

  lemma {:induction false} StrippedFree(rules: seq<PolicyRule>, r: PolicyRule)
    ensures r !in rules ==> Stripped(rules, r) == rules
    ensures forall x :: x in Stripped(rules, r) <==> x in rules && x != r
  {
    if rules != [] {
      StrippedFree(rules[1..], r);
      assert rules == [rules[0]] + rules[1..];
    }
  }

  lemma {:induction false} StrippedAppend(a: seq<PolicyRule>, b: seq<PolicyRule>, r: PolicyRule)
    ensures Stripped(a + b, r) == Stripped(a, r) + Stripped(b, r)
  {
    if a == [] {
      assert a + b == b;
    } else {
      assert (a + b)[1..] == a[1..] + b;
      StrippedAppend(a[1..], b, r);
    }
  }

  lemma {:induction false} StripCommutes(rules: seq<PolicyRule>, r: PolicyRule, q: PolicyRule)
    ensures Stripped(Stripped(rules, r), q) == Stripped(Stripped(rules, q), r)
  {
    if rules != [] {
      StripCommutes(rules[1..], r, q);
      StrippedAppend(if rules[0] == r then [] else [rules[0]], Stripped(rules[1..], r), q);
      StrippedAppend(if rules[0] == q then [] else [rules[0]], Stripped(rules[1..], q), r);
    }
  }

  lemma {:induction false} DelRuleOnce(rules: seq<PolicyRule>, r: PolicyRule)
    requires r in rules
    ensures |DelRule(rules, r)| == |rules| - 1
    ensures Stripped(DelRule(rules, r), r) == Stripped(rules, r)
    ensures forall x :: x in DelRule(rules, r) ==> x in rules
    ensures forall x :: x != r ==> (x in DelRule(rules, r) <==> x in rules)
  {
    assert rules == [rules[0]] + rules[1..];
    if rules[0] != r {
      DelRuleOnce(rules[1..], r);
      assert DelRule(rules, r)[1..] == DelRule(rules[1..], r);
    }
  }

  lemma {:induction false} AddRuleMembers(rules: seq<PolicyRule>, r: PolicyRule)
    ensures forall x :: x in AddRule(rules, r) <==> x in rules || x == r
    ensures |AddRule(rules, r)| == |rules| + 1
  {
    if rules != [] && rules[0].priority <= r.priority {
      assert rules == [rules[0]] + rules[1..];
      AddRuleMembers(rules[1..], r);
    }
  }

  /** Adding an absent rule and stripping it again is the identity. */
  lemma {:induction false} StripAdded(rules: seq<PolicyRule>, r: PolicyRule)
    ensures Stripped(AddRule(rules, r), r) == Stripped(rules, r)
  {
    if rules != [] && rules[0].priority <= r.priority {
      StripAdded(rules[1..], r);
    } else {
      assert ([r] + rules)[1..] == rules;
    }
  }

  /** Stripping a rule with a smaller number commutes with adding one. */
  lemma {:induction false} StripAddOther(rules: seq<PolicyRule>, r: PolicyRule, q: PolicyRule)
    requires r != q && r.priority <= q.priority
    ensures Stripped(AddRule(rules, q), r) == AddRule(Stripped(rules, r), q)
  {
    if rules == [] {
      assert [q][1..] == [];
    } else if rules[0].priority > q.priority {
      assert ([q] + rules)[1..] == rules;
    } else {
      StripAddOther(rules[1..], r, q);
      if rules[0] == r {
        assert Stripped(rules, r) == Stripped(rules[1..], r);
        assert AddRule(rules, q)[1..] == AddRule(rules[1..], q);
      }
    }
  }

  /** The list is ordered by priority. */
  ghost predicate Ordered(rules: seq<PolicyRule>) {
    forall i, j :: 0 <= i < j < |rules| ==> rules[i].priority <= rules[j].priority
  }

  lemma {:induction false} AddRuleOrdered(rules: seq<PolicyRule>, r: PolicyRule)
    requires Ordered(rules)
    ensures Ordered(AddRule(rules, r))
  {
    if rules != [] && rules[0].priority <= r.priority {
      AddRuleOrdered(rules[1..], r);
      AddRuleMembers(rules[1..], r);
      var next := AddRule(rules[1..], r);
      forall j | 0 <= j < |next| ensures rules[0].priority <= next[j].priority {
        assert next[j] in next;
        assert next[j] == r || next[j] in rules[1..];
      }
    }
  }

  lemma {:induction false} DelRuleOrdered(rules: seq<PolicyRule>, r: PolicyRule)
    requires Ordered(rules) && r in rules
    ensures Ordered(DelRule(rules, r))
  {
    if rules[0] != r {
      assert rules == [rules[0]] + rules[1..];
      DelRuleOrdered(rules[1..], r);
      DelRuleOnce(rules[1..], r);
      var next := DelRule(rules[1..], r);
      forall j | 0 <= j < |next| ensures rules[0].priority <= next[j].priority {
        assert next[j] in rules[1..];
      }
    }
  }

  // ---- steering ----

  /** The first rule that has anything to say about `p` sends it to table `id`. */
  ghost predicate Steered(e: Elsewhere, id: nat, rules: seq<PolicyRule>, p: Packet) {
    && rules != []
    && if Selects(e, rules[0].sel, p) && rules[0].table == id then true
       else Quiet(e, rules[0], p) && Steered(e, id, rules[1..], p)
  }

  /** A rule that selects nothing of `p`, or whose table has no route for it. */
  predicate Quiet(e: Elsewhere, r: PolicyRule, p: Packet) {
    !Selects(e, r.sel, p) || e.finds(r.table, p).None?
  }

  /** Rules numbered up to `limit` that lead to other tables leave `p` alone. The kernel's `local` table, rule 0,
      does so for every packet that is not for the host itself. */
  ghost predicate QuietUpTo(e: Elsewhere, id: nat, rules: seq<PolicyRule>, limit: nat, p: Packet) {
    forall i :: 0 <= i < |rules| && rules[i].priority <= limit && rules[i].table != id ==> Quiet(e, rules[i], p)
  }

  lemma {:induction false} PresentSteers(e: Elsewhere, id: nat, rules: seq<PolicyRule>, r: PolicyRule, p: Packet)
    requires r in rules && r.table == id && Selects(e, r.sel, p)
    requires Ordered(rules) && QuietUpTo(e, id, rules, r.priority, p)
    ensures Steered(e, id, rules, p)
  {
    var head := rules[0];
    if !(Selects(e, head.sel, p) && head.table == id) {
      assert rules == [head] + rules[1..];
      assert head.priority <= r.priority by {
        var k :| 0 <= k < |rules| && rules[k] == r;
      }
      PresentSteers(e, id, rules[1..], r, p);
    }
  }

  lemma {:induction false} SteeredWalk(e: Elsewhere, id: nat, own: Table, rules: seq<PolicyRule>, p: Packet)
    requires Steered(e, id, rules, p) && own != []
    ensures Walk(e, id, own, rules, p) == Lookup(own)
  {
    if !(Selects(e, rules[0].sel, p) && rules[0].table == id) {
      SteeredWalk(e, id, own, rules[1..], p);
    }
  }

  /** A rule that does not select a packet plays no part in its walk. */
  lemma {:induction false} WalkStripped(e: Elsewhere, id: nat, own: Table, rules: seq<PolicyRule>, r: PolicyRule,
                                        p: Packet)
    requires !Selects(e, r.sel, p)
    ensures Walk(e, id, own, Stripped(rules, r), p) == Walk(e, id, own, rules, p)
  {
    if rules != [] {
      WalkStripped(e, id, own, rules[1..], r, p);
      if rules[0] == r {
        assert Stripped(rules, r) == Stripped(rules[1..], r);
      } else {
        assert Stripped(rules, r)[0] == rules[0] && Stripped(rules, r)[1..] == Stripped(rules[1..], r);
      }
    }
  }

  /** Nor does Hamara's table, for a walk through rules that do not lead there. */
  lemma {:induction false} WalkElsewhere(e: Elsewhere, id: nat, a: Table, b: Table, rules: seq<PolicyRule>, p: Packet)
    requires forall r :: r in rules ==> r.table != id
    ensures Walk(e, id, a, rules, p) == Walk(e, id, b, rules, p)
  {
    if rules != [] {
      WalkElsewhere(e, id, a, b, rules[1..], p);
    }
  }

  // ---- editing a table ----

  /** `ip route replace` of a default route: the key is the metric. */
  function Replace(t: Table, r: Route): Table {
    if t == [] || t[0].metric > r.metric then [r] + t
    else if t[0].metric == r.metric then [r] + t[1..]
    else [t[0]] + Replace(t[1..], r)
  }

  /** `ip route del default dev d`: the first such route; no change when there is none. */
  function DelDev(t: Table, d: string): Table {
    if t == [] then [] else if t[0].hop == Dev(d) then t[1..] else [t[0]] + DelDev(t[1..], d)
  }

  /** What the kernel does when device `d` disappears. */
  function DropDev(t: Table, d: string): Table {
    if t == [] then [] else (if t[0].hop == Dev(d) then [] else [t[0]]) + DropDev(t[1..], d)
  }
}
