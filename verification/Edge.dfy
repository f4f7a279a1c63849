/** The Iran edge as a machine: the scripts of internal/render/render.go run command by command, systemd starts and
    stops them, and internal/app/app.go drives systemd. Any command may fail, and between any two commands other
    processes may take the link up or down, lose its device, or edit the OUTPUT chains. */
module Edge {
  import Address
  import opened Netfilter
  import opened Routing
  import opened Guard
  import opened Model

  /** `LinkUnit` is wg-quick@hamara0 or hamara-ipip, after the mode. */
  datatype Unit = GuardUnit | LinkUnit | AraClient | SshUnit
  datatype Verb = Start | Stop
  datatype Request = Request(verb: Verb, unit: Unit)

  /** One observable moment: the network and the active units. */
  datatype Snap = Snap(net: Net, active: set<Unit>)

  // ---- what holds at every moment ----

  /** The state of a host between any two commands, guard or no guard. */
  ghost predicate Regular(w: World, g: Params, s: Net) {
    && Unobstructed(w.strangers4, s.out4, MarkRule(g))
    && Unobstructed(w.strangers4, s.out4, SourceRule(g))
    && Unobstructed(w.strangers6, s.out6, MARK6)
    && OwnTable(g, s.table)
    && Ordered(s.rules)
  }

  predicate Installed(w: World, g: Params, s: Net) {
    MarkRule(g) in s.out4 && SourceRule(g) in s.out4 && (w.ip6tables ==> MARK6 in s.out6) && FALLBACK in s.table
  }

  /** The link is up only behind an active guard, and an active guard is fully installed. */
  ghost predicate Safe(w: World, g: Params, s: Snap) {
    && Regular(w, g, s.net)
    && (LinkUnit in s.active ==> GuardUnit in s.active)
    && (GuardUnit in s.active ==> Installed(w, g, s.net))
  }

  /** A policy rule that points at table T finds it backed by the fallback. */
  predicate Backed(g: Params, s: Net) {
    MarkPolicy(g) in s.rules || SourcePolicy(g) in s.rules ==> FALLBACK in s.table
  }

  /** A safe moment with an active guard is sealed, hence fail-closed. */
  lemma SafeIsFailClosed(w: World, g: Params, s: Snap)
    requires Safe(w, g, s) && GuardUnit in s.active
    ensures Sealed(w, g, s.net) && FailClosed(w, g, s.net)
  {
    UnobstructedShields(w.strangers4, s.net.out4, MarkRule(g));
    UnobstructedShields(w.strangers4, s.net.out4, SourceRule(g));
    if w.ip6tables {
      UnobstructedShields(w.strangers6, s.net.out6, MARK6);
    }
    SealedIsFailClosed(w, g, s.net);
  }

  predicate ScriptCmd(g: Params, c: Cmd) {
    UpCmd(g, c) || DownCmd(g, c) || LinkCmd(c)
  }

  lemma Insert4Step(w: World, g: Params, s: Net, r: Rule)
    requires Regular(w, g, s) && r in {MarkRule(g), SourceRule(g)}
    ensures Regular(w, g, s.(out4 := [r] + s.out4))
  {
    GuardRulesHarmless(w, g);
    UnobstructedInsert(w.strangers4, s.out4, MarkRule(g), 0, r);
    UnobstructedInsert(w.strangers4, s.out4, SourceRule(g), 0, r);
    assert s.out4[..0] + [r] + s.out4[0..] == [r] + s.out4;
  }

  lemma Insert6Step(w: World, g: Params, s: Net)
    requires Regular(w, g, s)
    ensures Regular(w, g, s.(out6 := [MARK6] + s.out6))
  {
    UnobstructedInsert(w.strangers6, s.out6, MARK6, 0, MARK6);
    assert s.out6[..0] + [MARK6] + s.out6[0..] == [MARK6] + s.out6;
  }

  lemma Delete4Step(w: World, g: Params, s: Net, r: Rule)
    requires Regular(w, g, s) && r in s.out4
    ensures Regular(w, g, s.(out4 := RemoveFirst(s.out4, r)))
  {
    var k := RemoveFirstAt(s.out4, r);
    UnobstructedDelete(w.strangers4, s.out4, MarkRule(g), k);
    UnobstructedDelete(w.strangers4, s.out4, SourceRule(g), k);
  }

  lemma Delete6Step(w: World, g: Params, s: Net)
    requires Regular(w, g, s) && MARK6 in s.out6
    ensures Regular(w, g, s.(out6 := RemoveFirst(s.out6, MARK6)))
  {
    var k := RemoveFirstAt(s.out6, MARK6);
    UnobstructedDelete(w.strangers6, s.out6, MARK6, k);
  }

  lemma RegularStep(w: World, g: Params, s: Net, c: Cmd)
    requires Regular(w, g, s) && ScriptCmd(g, c) && CanDo(g, s, c)
    ensures Regular(w, g, Apply(g, s, c))
  {
    TableStep(g, s, c);
    match c {
      case AddPolicy(rule) => AddRuleOrdered(s.rules, rule);
      case DelPolicy(rule) => DelRuleOrdered(s.rules, rule);
      case Insert4(r) => Insert4Step(w, g, s, r);
      case Delete4(r) => Delete4Step(w, g, s, r);
      case Insert6 => Insert6Step(w, g, s);
      case Delete6 => Delete6Step(w, g, s);
      case _ =>
    }
  }

  // ---- what other processes do between two commands ----

  /** What another process may do: a link command, the device going away, or an edit of a chain that puts a rule behind
      the guard's, or anywhere if it accepts nothing that a guard rule behind it stops, or takes a rule out that is not
      the guard's. While the guard is not installed, any edit is polite. */
  ghost predicate Polite(w: World, g: Params, s: Net, e: Event) {
    match e
    case Run(c) => LinkCmd(c) && CanDo(g, s, c)
    case Repolicy(_, _) => false
    case Insert(false, k, id) =>
      k <= |s.out4|
      && forall r :: r in {MarkRule(g), SourceRule(g)} ==> r !in s.out4[k..] || Harmless(w.strangers4, Stranger(id), r)
    case Insert(true, k, id) => k <= |s.out6| && (MARK6 !in s.out6[k..] || Harmless(w.strangers6, Stranger(id), MARK6))
    case Remove(false, k) => k < |s.out4| && s.out4[k] !in {MarkRule(g), SourceRule(g)}
    case Remove(true, k) => k < |s.out6| && s.out6[k] != MARK6
  }

  /** What the other processes of a host do: a choice among the polite events, for every state. */
  type Neighbours = (Net, Event) -> bool

  ghost predicate AllPolite(w: World, g: Params, others: Neighbours) {
    forall s, e :: others(s, e) ==> Polite(w, g, s, e)
  }

  /** Nobody else edits the chains. */
  ghost predicate NoEdits(others: Neighbours) {
    forall s, e :: others(s, e) ==> e.Run?
  }

  /** Nobody else does anything. */
  ghost predicate Nobody(others: Neighbours) {
    forall s, e :: !others(s, e)
  }

  /** How much politeness leaves open: any rule at the end of a chain, any rule that hits no guarded packet anywhere,
      any rule at all while the guard's are missing, and every link command that can run. */
  lemma PoliteAllows(w: World, g: Params, s: Net, k: nat, id: nat, c: Cmd)
    requires k <= |s.out4|
    ensures Polite(w, g, s, Insert(false, |s.out4|, id))
    ensures MarkRule(g) !in s.out4 && SourceRule(g) !in s.out4 ==> Polite(w, g, s, Insert(false, k, id))
    ensures (forall p :: Guarded(g, p) ==> w.strangers4(id, p).None?) ==> Polite(w, g, s, Insert(false, k, id))
    ensures LinkCmd(c) && CanDo(g, s, c) ==> Polite(w, g, s, Run(c))
  {
    forall p ensures Hits(MarkRule(g), p) || Hits(SourceRule(g), p) ==> Guarded(g, p) {
      Address.HostNet(g.source, p.src);
    }
  }

  /** A guard rule before and after edits of others. */
  predicate Untouched(a: Chain, b: Chain, r: Rule) {
    Copies(b, r) == Copies(a, r) && (r in b <==> r in a)
  }

  /** What other processes may have done between two commands: link commands and edits, in any number. Where nobody
      edits, `calm`, the chains are as they were; where nobody does anything, `alone`, everything is. */
  ghost predicate Drift(g: Params, calm: bool, alone: bool, a: Net, b: Net) {
    && (alone ==> b == a)
    && b.rules == a.rules
    && (calm ==> b.out4 == a.out4 && b.out6 == a.out6)
    && Untouched(a.out4, b.out4, MarkRule(g)) && Untouched(a.out4, b.out4, SourceRule(g))
    && Untouched(a.out6, b.out6, MARK6)
    && (OwnTable(g, a.table) ==> OwnTable(g, b.table))
    && (OwnTable(g, a.table) ==> (FALLBACK in b.table <==> FALLBACK in a.table))
  }

  lemma InsertUntouched(c: Chain, k: nat, x: Rule, r: Rule)
    requires k <= |c| && x != r
    ensures Untouched(c, c[..k] + [x] + c[k..], r)
  {
    assert c == c[..k] + c[k..];
    CopiesAppend(c[..k], c[k..], r);
    CopiesAppend(c[..k] + [x], c[k..], r);
    CopiesAppend(c[..k], [x], r);
    CopiesAppend(c, [], r);
    CopiesAppend(c[..k] + [x] + c[k..], [], r);
  }

  lemma RemoveUntouched(c: Chain, k: nat, r: Rule)
    requires k < |c| && c[k] != r
    ensures Untouched(c, c[..k] + c[k + 1..], r)
  {
    InsertUntouched(c[..k] + c[k + 1..], k, c[k], r);
    assert (c[..k] + c[k + 1..])[..k] == c[..k] && (c[..k] + c[k + 1..])[k..] == c[k + 1..];
    assert c == c[..k] + [c[k]] + c[k + 1..];
  }

  lemma InsertDrift(w: World, g: Params, s: Net, v6: bool, k: nat, id: nat)
    requires Regular(w, g, s) && Polite(w, g, s, Insert(v6, k, id))
    ensures Regular(w, g, After(g, s, Insert(v6, k, id))) && Drift(g, false, false, s, After(g, s, Insert(v6, k, id)))
  {
    if v6 {
      UnobstructedInsert(w.strangers6, s.out6, MARK6, k, Stranger(id));
      InsertUntouched(s.out6, k, Stranger(id), MARK6);
    } else {
      UnobstructedInsert(w.strangers4, s.out4, MarkRule(g), k, Stranger(id));
      UnobstructedInsert(w.strangers4, s.out4, SourceRule(g), k, Stranger(id));
      InsertUntouched(s.out4, k, Stranger(id), MarkRule(g));
      InsertUntouched(s.out4, k, Stranger(id), SourceRule(g));
    }
  }

  lemma RemoveDrift(w: World, g: Params, s: Net, v6: bool, k: nat)
    requires Regular(w, g, s) && Polite(w, g, s, Remove(v6, k))
    ensures Regular(w, g, After(g, s, Remove(v6, k))) && Drift(g, false, false, s, After(g, s, Remove(v6, k)))
  {
    if v6 {
      UnobstructedDelete(w.strangers6, s.out6, MARK6, k);
      RemoveUntouched(s.out6, k, MARK6);
    } else {
      UnobstructedDelete(w.strangers4, s.out4, MarkRule(g), k);
      UnobstructedDelete(w.strangers4, s.out4, SourceRule(g), k);
      RemoveUntouched(s.out4, k, MarkRule(g));
      RemoveUntouched(s.out4, k, SourceRule(g));
    }
  }

  lemma PoliteDrift(w: World, g: Params, s: Net, e: Event)
    requires Regular(w, g, s) && Polite(w, g, s, e) && !e.Run?
    ensures Regular(w, g, After(g, s, e)) && Drift(g, false, false, s, After(g, s, e))
  {
    match e {
      case Insert(v6, k, id) => InsertDrift(w, g, s, v6, k, id);
      case Remove(v6, k) => RemoveDrift(w, g, s, v6, k);
    }
  }

  lemma LinkDrift(w: World, g: Params, s: Net, c: Cmd)
    requires Regular(w, g, s) && LinkCmd(c) && CanDo(g, s, c)
    ensures Regular(w, g, Apply(g, s, c)) && Drift(g, true, false, s, Apply(g, s, c))
  {
    RegularStep(w, g, s, c);
    TableStep(g, s, c);
  }

  lemma NeighbourDrift(w: World, g: Params, others: Neighbours, s: Net, e: Event)
    requires Regular(w, g, s) && AllPolite(w, g, others) && others(s, e)
    ensures Polite(w, g, s, e) && Regular(w, g, After(g, s, e))
    ensures Drift(g, NoEdits(others), Nobody(others), s, After(g, s, e))
  {
    assert Polite(w, g, s, e);
    assert !Nobody(others);
    if e.Run? {
      LinkDrift(w, g, s, e.cmd);
    } else {
      PoliteDrift(w, g, s, e);
      assert !NoEdits(others);
    }
  }

  lemma DriftSafe(w: World, g: Params, calm: bool, alone: bool, a: Net, b: Net, active: set<Unit>)
    requires Safe(w, g, Snap(a, active)) && Regular(w, g, b) && Drift(g, calm, alone, a, b)
    ensures Safe(w, g, Snap(b, active)) && (Backed(g, a) ==> Backed(g, b))
  {
  }

  /** A command of the scripts keeps a moment safe: only `guard down` takes anything of the guard away, and it runs
      when the guard is not active. */
  lemma CommandSafe(w: World, g: Params, s: Net, active: set<Unit>, c: Cmd)
    requires Safe(w, g, Snap(s, active)) && ScriptCmd(g, c) && CanDo(g, s, c)
    requires DownCmd(g, c) && !UpCmd(g, c) ==> GuardUnit !in active
    ensures Safe(w, g, Snap(Apply(g, s, c), active))
  {
    RegularStep(w, g, s, c);
    TableStep(g, s, c);
  }

  lemma CommandBacked(w: World, g: Params, s: Net, c: Cmd)
    requires Regular(w, g, s) && ScriptCmd(g, c) && CanDo(g, s, c) && Backed(g, s)
    requires c.AddPolicy? ==> FALLBACK in s.table
    requires c.FlushTable? ==> MarkPolicy(g) !in s.rules && SourcePolicy(g) !in s.rules
    ensures Backed(g, Apply(g, s, c))
  {
    TableStep(g, s, c);
    if c.DelPolicy? {
      DelRuleOnce(s.rules, c.rule);
    }
  }

  /** How `-C || -I` may leave a chain: as Ensure does, or with one more copy when -C failed for another reason. */
  ghost predicate Reapplied(before: Chain, after: Chain, r: Rule, exact: bool) {
    if exact then after == Ensure(before, r) else after == [r] + before || (after == before && r in before)
  }

  /** The policy rules after `guard up`: exactly one copy of each of the guard's, whatever was there before. */
  function Repoliced(g: Params, rules: seq<PolicyRule>): seq<PolicyRule> {
    AddRule(AddRule(Stripped(Stripped(rules, MarkPolicy(g)), SourcePolicy(g)), MarkPolicy(g)), SourcePolicy(g))
  }

  /** The policy rules of others, in order. */
  function Unpoliced(g: Params, rules: seq<PolicyRule>): seq<PolicyRule> {
    Stripped(Stripped(rules, MarkPolicy(g)), SourcePolicy(g))
  }

  /** The OUTPUT rules of others, in order. */
  function Foreign4(g: Params, c: Chain): Chain {
    Purge(Purge(c, MarkRule(g)), SourceRule(g))
  }

  /** No rule of anybody else was touched in either chain. */
  predicate OthersKept(g: Params, a: Net, b: Net) {
    Foreign4(g, b.out4) == Foreign4(g, a.out4) && Purge(b.out6, MARK6) == Purge(a.out6, MARK6)
  }

  /** Whatever leaves a host and has nothing to do with the guard leaves it as before: the OUTPUT verdicts on packets
      that have neither the mark nor the source, or that use the tunnel, and on unmarked IPv6; and, where no policy
      rule of others leads to table T, the device that those packets leave by, if they leave. */
  ghost predicate UnguardedKept(w: World, g: Params, a: Net, b: Net) {
    && (forall p: Packet :: (p.mark != 72 && p.src != g.source) || p.outDev == g.iface ==>
          First(w.strangers4, b.out4, p) == First(w.strangers4, a.out4, p))
    && (forall p: Packet :: p.mark != 72 ==> First(w.strangers6, b.out6, p) == First(w.strangers6, a.out6, p))
    && (forall p: Packet :: p.mark != 72 ==> Leaves6(w, b, p) == Leaves6(w, a, p))
    && ((forall r :: r in Unpoliced(g, a.rules) ==> r.table != g.table) ==>
          forall p: Packet :: p.mark != 72 && p.src != g.source ==> Leaves4(w, g, b, p) == Leaves4(w, g, a, p))
  }

  lemma UnguardedFirst(w: World, g: Params, c: Chain, d: Chain, p: Packet)
    ensures (p.mark != 72 && p.src != g.source) || p.outDev == g.iface ==>
              First(w.strangers4, Foreign4(g, c), p) == First(w.strangers4, c, p)
    ensures p.mark != 72 ==> First(w.strangers6, Purge(d, MARK6), p) == First(w.strangers6, d, p)
  {
    Address.HostNet(g.source, p.src);
    if (p.mark != 72 && p.src != g.source) || p.outDev == g.iface {
      PurgeMissed(w.strangers4, c, MarkRule(g), p);
      PurgeMissed(w.strangers4, Purge(c, MarkRule(g)), SourceRule(g), p);
    }
    if p.mark != 72 {
      PurgeMissed(w.strangers6, d, MARK6, p);
    }
  }

  lemma UnguardedWalk(w: World, g: Params, a: Net, b: Net, p: Packet)
    requires Unpoliced(g, b.rules) == Unpoliced(g, a.rules) && p.mark != 72 && p.src != g.source
    requires forall r :: r in Unpoliced(g, a.rules) ==> r.table != g.table
    ensures Walk(w.elsewhere, g.table, b.table, b.rules, p) == Walk(w.elsewhere, g.table, a.table, a.rules, p)
  {
    WalkStripped(w.elsewhere, g.table, a.table, a.rules, MarkPolicy(g), p);
    WalkStripped(w.elsewhere, g.table, a.table, Stripped(a.rules, MarkPolicy(g)), SourcePolicy(g), p);
    WalkStripped(w.elsewhere, g.table, b.table, b.rules, MarkPolicy(g), p);
    WalkStripped(w.elsewhere, g.table, b.table, Stripped(b.rules, MarkPolicy(g)), SourcePolicy(g), p);
    WalkElsewhere(w.elsewhere, g.table, a.table, b.table, Unpoliced(g, a.rules), p);
  }

  /** Leaving the rules of others alone is enough for that, wherever a script stops. */
  lemma OthersKeptUnguarded(w: World, g: Params, a: Net, b: Net)
    requires OthersKept(g, a, b) && Unpoliced(g, b.rules) == Unpoliced(g, a.rules)
    ensures UnguardedKept(w, g, a, b)
  {
    forall p: Packet
      ensures (p.mark != 72 && p.src != g.source) || p.outDev == g.iface ==>
                First(w.strangers4, b.out4, p) == First(w.strangers4, a.out4, p)
      ensures p.mark != 72 ==> First(w.strangers6, b.out6, p) == First(w.strangers6, a.out6, p)
    {
      UnguardedFirst(w, g, a.out4, a.out6, p);
      UnguardedFirst(w, g, b.out4, b.out6, p);
    }
    if forall r :: r in Unpoliced(g, a.rules) ==> r.table != g.table {
      forall p: Packet | p.mark != 72 && p.src != g.source ensures Leaves4(w, g, b, p) == Leaves4(w, g, a, p) {
        UnguardedWalk(w, g, a, b, p);
      }
    }
  }

  lemma Foreign4Kept(g: Params, a: Chain, b: Chain, r: Rule)
    requires r in {MarkRule(g), SourceRule(g)} && Purge(b, r) == Purge(a, r)
    ensures Foreign4(g, b) == Foreign4(g, a)
  {
    PurgeCommutes(a, MarkRule(g), SourceRule(g));
    PurgeCommutes(b, MarkRule(g), SourceRule(g));
  }

  lemma UnpolicedKept(g: Params, a: seq<PolicyRule>, b: seq<PolicyRule>, r: PolicyRule)
    requires r in {MarkPolicy(g), SourcePolicy(g)} && Stripped(b, r) == Stripped(a, r)
    ensures Unpoliced(g, b) == Unpoliced(g, a)
  {
    StripCommutes(a, MarkPolicy(g), SourcePolicy(g));
    StripCommutes(b, MarkPolicy(g), SourcePolicy(g));
  }

  /** Stripping undoes `guard up` on the rule list, and `guard up` again changes nothing. */
  lemma RepolicedLaws(g: Params, rules: seq<PolicyRule>)
    ensures Unpoliced(g, Repoliced(g, rules)) == Unpoliced(g, rules)
    ensures Repoliced(g, Repoliced(g, rules)) == Repoliced(g, rules)
  {
    var bare, m, s := Unpoliced(g, rules), MarkPolicy(g), SourcePolicy(g);
    StrippedBoth(rules, m, s);
    StripAddOther(AddRule(bare, m), m, s);
    StripAdded(bare, m);
    StrippedFree(bare, m);
    StripAdded(bare, s);
    StrippedFree(bare, s);
  }

  /** The chain after `guard up` and after `guard down`: a second `up` changes nothing, `down` takes away what `up`
      added, and gives back exactly a chain that held neither rule. */
  lemma GuardChainLaws(g: Params, c: Chain)
    ensures var up := Ensure(Ensure(c, MarkRule(g)), SourceRule(g));
            Ensure(Ensure(up, MarkRule(g)), SourceRule(g)) == up
    ensures Purge(Purge(Ensure(Ensure(c, MarkRule(g)), SourceRule(g)), MarkRule(g)), SourceRule(g))
         == Purge(Purge(c, MarkRule(g)), SourceRule(g))
    ensures Purge(Purge(c, MarkRule(g)), SourceRule(g)) == c <==> MarkRule(g) !in c && SourceRule(g) !in c
  {
    PurgeTwoEnsures(c, MarkRule(g), SourceRule(g));
    PurgeTwoFree(c, MarkRule(g), SourceRule(g));
  }

  lemma PurgeTwoEnsures(c: Chain, m: Rule, s: Rule)
    requires m != s
    ensures Purge(Purge(Ensure(Ensure(c, m), s), m), s) == Purge(Purge(c, m), s)
  {
    PurgeEnsureOther(Ensure(c, m), m, s);
    PurgeEnsure(c, m);
    PurgeEnsure(Purge(c, m), s);
  }

  lemma PurgeTwoFree(c: Chain, m: Rule, s: Rule)
    ensures Purge(Purge(c, m), s) == c <==> m !in c && s !in c
  {
    PurgeFree(c, m);
    PurgeFree(Purge(c, m), s);
  }

  lemma RepolicedMembers(g: Params, rules: seq<PolicyRule>)
    ensures MarkPolicy(g) in Repoliced(g, rules) && SourcePolicy(g) in Repoliced(g, rules)
  {
    var bare := Stripped(Stripped(rules, MarkPolicy(g)), SourcePolicy(g));
    AddRuleMembers(bare, MarkPolicy(g));
    AddRuleMembers(AddRule(bare, MarkPolicy(g)), SourcePolicy(g));
  }

  lemma StrippedBoth(rules: seq<PolicyRule>, a: PolicyRule, b: PolicyRule)
    ensures a !in Stripped(Stripped(rules, a), b) && b !in Stripped(Stripped(rules, a), b)
  {
    StrippedFree(rules, a);
    StrippedFree(Stripped(rules, a), b);
  }

  /** Two delete loops, either of which may have ended early: if both rules are gone, both were stripped. */
  lemma PolicyGone(start: seq<PolicyRule>, first: seq<PolicyRule>, second: seq<PolicyRule>, a: PolicyRule,
                   b: PolicyRule)
    requires a != b
    requires a !in first ==> first == Stripped(start, a)
    requires b !in second ==> second == Stripped(first, b)
    requires Stripped(second, b) == Stripped(first, b)
    ensures a !in second && b !in second ==> second == Stripped(Stripped(start, a), b)
  {
    StrippedFree(first, b);
    StrippedFree(second, b);
  }

  /** The guard is sealed, both its policy rules are installed and the tunnel route is there. */
  ghost predicate Carrying(w: World, g: Params, s: Net) {
    Sealed(w, g, s) && Policed(g, s) && LinkRoute(g) in s.table
  }

  /** Both of the guard's policy rules are in the list. */
  predicate Policed(g: Params, s: Net) {
    MarkPolicy(g) in s.rules && SourcePolicy(g) in s.rules
  }

  /** The device is gone, and so is its route in table T. */
  predicate Unlinked(g: Params, s: Net) {
    g.iface !in s.devs && LinkRoute(g) !in s.table
  }

  /** What a link command does to the device and its route. */
  predicate LinkMoved(g: Params, a: Net, c: Cmd, b: Net) {
    && (c.DelDevice? ==> g.iface !in b.devs)
    && (c.DelDevice? && g.iface in a.devs ==> LinkRoute(g) !in b.table)
    && (c.AddDevice? ==> g.iface in b.devs)
    && (c.Configure? || c.ReplaceLink? || c.DelLink? ==> b.devs == a.devs)
    && (c.DelLink? ==> LinkRoute(g) !in b.table)
    && (!c.ReplaceLink? && LinkRoute(g) !in a.table ==> LinkRoute(g) !in b.table)
  }

  lemma LinkFacts(g: Params, s: Net, c: Cmd)
    requires OwnTable(g, s.table) && LinkCmd(c)
    ensures LinkMoved(g, s, c, if CanDo(g, s, c) then Apply(g, s, c) else s)
  {
    TableOps(g, s.table);
    if c.DelLink? && LinkRoute(g) in s.table {
      assert s.table[0] == LinkRoute(g);
      assert CanDo(g, s, c);
    }
  }

  class Machine {
    const w: World
    const g: Params
    const mode: Mode
    const reliable: bool          // no command fails that finds what it needs
    const others: Neighbours
    var net: Net
    var active: set<Unit>
    ghost var history: seq<Snap>
    ghost var requests: seq<Request>

    /** No other program edits the chains. */
    ghost predicate Calm() {
      NoEdits(others)
    }

    /** No other process does anything. */
    ghost predicate Alone() {
      Nobody(others)
    }

    ghost predicate Inv()
      reads this
    {
      && AllPolite(w, g, others)
      && history != []
      && history[|history| - 1] == Snap(net, active)
      && forall i :: 0 <= i < |history| ==> Safe(w, g, history[i]) && (reliable ==> Backed(g, history[i].net))
    }

    /** A host where Hamara has never run: any rules of others, none of the guard's. */
    constructor (w: World, g: Params, mode: Mode, reliable: bool, others: Neighbours, net: Net)
      requires AllPolite(w, g, others)
      requires MarkRule(g) !in net.out4 && SourceRule(g) !in net.out4 && MARK6 !in net.out6
      requires net.table == [] && Ordered(net.rules)
      requires MarkPolicy(g) !in net.rules && SourcePolicy(g) !in net.rules
      ensures Inv() && this.w == w && this.g == g && this.mode == mode && this.reliable == reliable
      ensures this.others == others
      ensures this.net == net && active == {} && requests == []
    {
      this.w, this.g, this.mode, this.reliable, this.others := w, g, mode, reliable, others;
      this.net, active, history, requests := net, {}, [Snap(net, {})], [];
    }

    /** Other processes run link commands and edit the chains; the device may go away. */
    method Interfere()
      requires Inv()
      modifies this`net, this`history
      ensures Inv() && old(history) <= history && Drift(g, Calm(), Alone(), old(net), net)
    {
      var rounds: nat := *;
      while rounds > 0
        invariant Inv() && old(history) <= history && Drift(g, Calm(), Alone(), old(net), net)
      {
        var e: Event := *;
        if others(net, e) {
          NeighbourDrift(w, g, others, net, e);
          DriftSafe(w, g, Calm(), Alone(), net, After(g, net, e), active);
          net := After(g, net, e);
          history := history + [Snap(net, active)];
        }
        rounds := rounds - 1;
      }
    }

    /** One command: after some drift it takes effect, or fails and changes nothing. */
    method Do(c: Cmd) returns (ok: bool, ghost seen: Net)
      requires Inv() && ScriptCmd(g, c)
      requires DownCmd(g, c) && !UpCmd(g, c) ==> GuardUnit !in active
      requires c.AddPolicy? ==> FALLBACK in net.table
      requires c.FlushTable? && reliable ==> MarkPolicy(g) !in net.rules && SourcePolicy(g) !in net.rules
      modifies this`net, this`history
      ensures Inv() && old(history) <= history
      ensures Drift(g, Calm(), Alone(), old(net), seen)
      ensures if ok then CanDo(g, seen, c) && net == Apply(g, seen, c) else net == seen
      ensures reliable ==> (ok <==> CanDo(g, seen, c))
    {
      Interfere();
      seen := net;
      var glitch: bool := *;
      ok := CanDo(g, net, c) && (reliable || !glitch);
      if ok {
        CommandSafe(w, g, net, active, c);
        if reliable {
          CommandBacked(w, g, net, c);
        }
        net := Apply(g, net, c);
        history := history + [Snap(net, active)];
      }
    }

    method SetActive(units: set<Unit>)
      requires Inv() && Safe(w, g, Snap(net, units))
      modifies this`active, this`history
      ensures Inv() && old(history) <= history && active == units
    {
      active := units;
      history := history + [Snap(net, active)];
    }

    // ---- the guard script ----

    method IptAdd(r: Rule) returns (ok: bool)
      requires Inv() && r in {MarkRule(g), SourceRule(g)}
      modifies this`net, this`history
      ensures Inv() && old(history) <= history && (reliable ==> ok)
      ensures Drift(g, Calm(), Alone(), old(net).(out4 := net.out4), net)
      ensures forall q :: q in {MarkRule(g), SourceRule(g)} && q in old(net).out4 ==> q in net.out4
      ensures ok ==> r in net.out4
      ensures Calm() && ok ==> Reapplied(old(net).out4, net.out4, r, reliable)
      ensures Calm() && !ok ==> net.out4 == old(net).out4
      ensures Calm() ==> OthersKept(g, old(net), net)
    {
      ghost var seen;
      ok, seen := Do(Check4(r));
      if !ok {
        ok, seen := Do(Insert4(r));
        PurgeAppend([r], seen.out4, r);
        Foreign4Kept(g, seen.out4, [r] + seen.out4, r);
      }
    }

    method Ip6Add() returns (ok: bool)
      requires Inv()
      modifies this`net, this`history
      ensures Inv() && old(history) <= history && (reliable ==> ok)
      ensures Drift(g, Calm(), Alone(), old(net).(out6 := net.out6), net)
      ensures !w.ip6tables ==> ok && net == old(net)
      ensures w.ip6tables && ok ==> MARK6 in net.out6
      ensures Calm() && w.ip6tables && ok ==> Reapplied(old(net).out6, net.out6, MARK6, reliable)
      ensures Calm() && !ok ==> net.out6 == old(net).out6
      ensures Calm() ==> OthersKept(g, old(net), net)
    {
      if !w.ip6tables {
        return true;
      }
      ghost var seen;
      ok, seen := Do(Check6);
      if !ok {
        ok, seen := Do(Insert6);
        PurgeAppend([MARK6], seen.out6, MARK6);
      }
    }

    /** `ip rule del`, once. */
    method DelRuleOnce'(rule: PolicyRule) returns (ok: bool)
      requires Inv() && rule in {MarkPolicy(g), SourcePolicy(g)}
      modifies this`net, this`history
      ensures Inv() && old(history) <= history
      ensures Drift(g, Calm(), Alone(), old(net).(rules := net.rules), net)
      ensures Stripped(net.rules, rule) == Stripped(old(net).rules, rule)
      ensures if ok then |net.rules| < |old(net).rules| else net.rules == old(net).rules
      ensures reliable && !ok ==> rule !in net.rules
    {
      ghost var seen;
      ok, seen := Do(DelPolicy(rule));
      if ok {
        DelRuleOnce(seen.rules, rule);
      }
    }

    /** `while ip rule del ...; do :; done` */
    method DelRules(rule: PolicyRule)
      requires Inv() && rule in {MarkPolicy(g), SourcePolicy(g)}
      modifies this`net, this`history
      ensures Inv() && old(history) <= history
      ensures Drift(g, Calm(), Alone(), old(net).(rules := net.rules), net)
      ensures Stripped(net.rules, rule) == Stripped(old(net).rules, rule)
      ensures reliable || rule !in net.rules ==> net.rules == Stripped(old(net).rules, rule)
    {
      var ok := DelRuleOnce'(rule);
      while ok
        invariant Inv() && old(history) <= history
        invariant Drift(g, Calm(), Alone(), old(net).(rules := net.rules), net)
        invariant Stripped(net.rules, rule) == Stripped(old(net).rules, rule)
        invariant !ok && reliable ==> rule !in net.rules
        decreases |net.rules|, ok
      {
        ok := DelRuleOnce'(rule);
      }
      StrippedFree(net.rules, rule);
    }

    /** `del_rules` */
    method DelBothRules()
      requires Inv()
      modifies this`net, this`history
      ensures Inv() && old(history) <= history
      ensures Drift(g, Calm(), Alone(), old(net).(rules := net.rules), net)
      ensures reliable || (MarkPolicy(g) !in net.rules && SourcePolicy(g) !in net.rules)
              ==> net.rules == Unpoliced(g, old(net).rules)
      ensures Unpoliced(g, net.rules) == Unpoliced(g, old(net).rules)
    {
      DelRules(MarkPolicy(g));
      ghost var first := net.rules;
      DelRules(SourcePolicy(g));
      PolicyGone(old(net).rules, first, net.rules, MarkPolicy(g), SourcePolicy(g));
      UnpolicedKept(g, first, net.rules, SourcePolicy(g));
    }

    method AddBothRules() returns (ok: bool)
      requires Inv() && FALLBACK in net.table
      requires reliable ==> MarkPolicy(g) !in net.rules && SourcePolicy(g) !in net.rules
      modifies this`net, this`history
      ensures Inv() && old(history) <= history && (reliable ==> ok)
      ensures Drift(g, Calm(), Alone(), old(net).(rules := net.rules), net)
      ensures ok ==> MarkPolicy(g) !in old(net).rules && SourcePolicy(g) !in old(net).rules
      ensures ok ==> net.rules == AddRule(AddRule(old(net).rules, MarkPolicy(g)), SourcePolicy(g))
      ensures Unpoliced(g, net.rules) == Unpoliced(g, old(net).rules)
    {
      ghost var seen;
      ok, seen := Do(AddPolicy(MarkPolicy(g)));
      if !ok { return; }
      AddRuleMembers(seen.rules, MarkPolicy(g));
      StripAdded(seen.rules, MarkPolicy(g));
      UnpolicedKept(g, seen.rules, net.rules, MarkPolicy(g));
      ok, seen := Do(AddPolicy(SourcePolicy(g)));
      if !ok { return; }
      StripAdded(seen.rules, SourcePolicy(g));
      UnpolicedKept(g, seen.rules, net.rules, SourcePolicy(g));
    }

    /** The routing half of `guard up`. */
    method GuardPolicy() returns (ok: bool)
      requires Inv()
      modifies this`net, this`history
      ensures Inv() && old(history) <= history && (reliable ==> ok)
      ensures Calm() ==> net.out4 == old(net).out4 && net.out6 == old(net).out6
      ensures Unpoliced(g, net.rules) == Unpoliced(g, old(net).rules)
      ensures ok ==> FALLBACK in net.table && net.rules == Repoliced(g, old(net).rules)
    {
      ghost var seen;
      ok, seen := Do(ReplaceFallback);
      if !ok { return; }
      TableStep(g, seen, ReplaceFallback);
      DelBothRules();
      StrippedBoth(old(net).rules, MarkPolicy(g), SourcePolicy(g));
      ok := AddBothRules();
    }

    /** `guard up`. Stopping at the first failure leaves every completed command in force, and everybody else's rules
        where they were. */
    method GuardUp() returns (ok: bool)
      requires Inv()
      modifies this`net, this`history
      ensures Inv() && old(history) <= history && (reliable ==> ok)
      ensures ok ==> Installed(w, g, net) && net.rules == Repoliced(g, old(net).rules)
      ensures Unpoliced(g, net.rules) == Unpoliced(g, old(net).rules)
      ensures Calm() ==> OthersKept(g, old(net), net) && UnguardedKept(w, g, old(net), net)
      ensures Calm() && !w.ip6tables ==> net.out6 == old(net).out6
      ensures Calm() && reliable ==> net.out4 == Ensure(Ensure(old(net).out4, MarkRule(g)), SourceRule(g))
      ensures Calm() && reliable ==> net.out6 == if w.ip6tables then Ensure(old(net).out6, MARK6) else old(net).out6
    {
      ok := GuardPolicy();
      if ok {
        ok := IptAdd(MarkRule(g));
      }
      if ok {
        ok := IptAdd(SourceRule(g));
      }
      if ok {
        ok := Ip6Add();
      }
      if Calm() {
        OthersKeptUnguarded(w, g, old(net), net);
      }
    }

    /** `iptables -D`, once. */
    method DelCopy4(r: Rule) returns (ok: bool)
      requires Inv() && r in {MarkRule(g), SourceRule(g)} && GuardUnit !in active && r in net.out4
      modifies this`net, this`history
      ensures Inv() && old(history) <= history && (reliable ==> ok)
      ensures Drift(g, Calm(), Alone(), old(net).(out4 := net.out4), net)
      ensures Calm() ==> Purge(net.out4, r) == Purge(old(net).out4, r) && OthersKept(g, old(net), net)
      ensures ok ==> Copies(net.out4, r) < Copies(old(net).out4, r)
    {
      ghost var seen;
      ok, seen := Do(Delete4(r));
      if ok {
        RemoveFirstPurge(seen.out4, r);
        RemoveFirstCopies(seen.out4, r);
        Foreign4Kept(g, seen.out4, net.out4, r);
      }
    }

    /** `while -C r; do -D r; done`; a failing -D ends the script. */
    method IptDel(r: Rule) returns (ok: bool)
      requires Inv() && r in {MarkRule(g), SourceRule(g)} && GuardUnit !in active
      modifies this`net, this`history
      ensures Inv() && old(history) <= history && (reliable ==> ok)
      ensures Drift(g, Calm(), Alone(), old(net).(out4 := net.out4), net)
      ensures Calm() ==> Purge(net.out4, r) == Purge(old(net).out4, r) && OthersKept(g, old(net), net)
      ensures reliable ==> r !in net.out4
      ensures Calm() && reliable ==> net.out4 == Purge(old(net).out4, r)
    {
      ghost var seen;
      ok, seen := Do(Check4(r));
      while ok
        invariant Inv() && old(history) <= history
        invariant Drift(g, Calm(), Alone(), old(net).(out4 := net.out4), net)
        invariant Calm() ==> Purge(net.out4, r) == Purge(old(net).out4, r) && OthersKept(g, old(net), net)
        invariant ok ==> r in net.out4
        invariant !ok && reliable ==> r !in net.out4
        decreases Copies(net.out4, r), ok
      {
        ok := DelCopy4(r);
        if !ok { return; }
        ok, seen := Do(Check4(r));
      }
      PurgeFree(net.out4, r);
      ok := true;
    }

    method DelCopy6() returns (ok: bool)
      requires Inv() && GuardUnit !in active && MARK6 in net.out6
      modifies this`net, this`history
      ensures Inv() && old(history) <= history && (reliable ==> ok)
      ensures Drift(g, Calm(), Alone(), old(net).(out6 := net.out6), net)
      ensures Calm() ==> Purge(net.out6, MARK6) == Purge(old(net).out6, MARK6)
      ensures ok ==> Copies(net.out6, MARK6) < Copies(old(net).out6, MARK6)
    {
      ghost var seen;
      ok, seen := Do(Delete6);
      if ok {
        RemoveFirstPurge(seen.out6, MARK6);
        RemoveFirstCopies(seen.out6, MARK6);
      }
    }

    method Ip6Del() returns (ok: bool)
      requires Inv() && GuardUnit !in active
      modifies this`net, this`history
      ensures Inv() && old(history) <= history && (reliable ==> ok)
      ensures Drift(g, Calm(), Alone(), old(net).(out6 := net.out6), net)
      ensures Calm() ==> Purge(net.out6, MARK6) == Purge(old(net).out6, MARK6)
      ensures !w.ip6tables ==> ok && net == old(net)
      ensures reliable && w.ip6tables ==> MARK6 !in net.out6
      ensures Calm() && reliable && w.ip6tables ==> net.out6 == Purge(old(net).out6, MARK6)
    {
      if !w.ip6tables {
        return true;
      }
      ghost var seen;
      ok, seen := Do(Check6);
      while ok
        invariant Inv() && old(history) <= history
        invariant Drift(g, Calm(), Alone(), old(net).(out6 := net.out6), net)
        invariant Calm() ==> Purge(net.out6, MARK6) == Purge(old(net).out6, MARK6)
        invariant ok ==> MARK6 in net.out6
        invariant !ok && reliable ==> MARK6 !in net.out6
        decreases Copies(net.out6, MARK6), ok
      {
        ok := DelCopy6();
        if !ok { return; }
        ok, seen := Do(Check6);
      }
      PurgeFree(net.out6, MARK6);
      ok := true;
    }

    /** `guard down`. The rejects go first and the table last, so that no policy rule ever outlives its fallback. */
    method GuardDown() returns (ok: bool)
      requires Inv() && GuardUnit !in active
      modifies this`net, this`history
      ensures Inv() && old(history) <= history && (reliable ==> ok)
      ensures Unpoliced(g, net.rules) == Unpoliced(g, old(net).rules)
      ensures Calm() ==> OthersKept(g, old(net), net)
      ensures Calm() && !w.ip6tables ==> net.out6 == old(net).out6
      ensures Calm() && reliable ==> net.out4 == Foreign4(g, old(net).out4)
      ensures Calm() && reliable ==> net.out6 == if w.ip6tables then Purge(old(net).out6, MARK6) else old(net).out6
      ensures reliable ==> net.rules == Unpoliced(g, old(net).rules)
      ensures reliable ==> net.table == []
    {
      ok := IptDel(MarkRule(g));
      if !ok { return; }
      ok := IptDel(SourceRule(g));
      if !ok { return; }
      ok := Ip6Del();
      if !ok { return; }
      StrippedBoth(net.rules, MarkPolicy(g), SourcePolicy(g));
      DelBothRules();
      var _, _ := Do(FlushTable);
      ok := true;
    }

    /** The OUTPUT chains are the ones of `before` without any of the guard's rules. */
    ghost predicate Unguarded(before: Net)
      reads this`net
    {
      && net.out4 == Foreign4(g, before.out4)
      && net.out6 == if w.ip6tables then Purge(before.out6, MARK6) else before.out6
    }

    // ---- the link scripts ----

    method DoLink(c: Cmd) returns (ok: bool)
      requires Inv() && LinkCmd(c)
      modifies this`net, this`history
      ensures Inv() && old(history) <= history && Drift(g, Calm(), false, old(net), net)
      ensures ok && c.ReplaceLink? ==> LinkRoute(g) in net.table && g.iface in net.devs
      ensures Alone() && reliable ==> (ok <==> CanDo(g, old(net), c)) && LinkMoved(g, old(net), c, net)
    {
      ghost var seen;
      ok, seen := Do(c);
      LinkFacts(g, seen, c);
      if ok {
        TableStep(g, seen, c);
      }
    }

    /** The device configured, then the tunnel route. */
    method RouteLink() returns (ok: bool)
      requires Inv()
      modifies this`net, this`history
      ensures Inv() && old(history) <= history && Drift(g, Calm(), false, old(net), net)
      ensures ok ==> LinkRoute(g) in net.table && g.iface in net.devs
      ensures Alone() && reliable ==> (ok <==> g.iface in old(net).devs) && net.devs == old(net).devs
    {
      ok := DoLink(Configure);
      if ok {
        ok := DoLink(ReplaceLink);
      }
    }

    /** wg-quick up: the device, its addresses, then PostUp; a failure after the device was made removes it again. */
    method WireGuardUp() returns (ok: bool)
      requires Inv()
      modifies this`net, this`history
      ensures Inv() && old(history) <= history && Drift(g, Calm(), false, old(net), net)
      ensures Alone() && reliable ==> (ok <==> g.iface !in old(net).devs)
      ensures ok ==> LinkRoute(g) in net.table && g.iface in net.devs
    {
      ok := DoLink(AddDevice);
      if !ok { return; }
      ok := RouteLink();
      if !ok {
        var _ := DoLink(DelDevice);
      }
    }

    /** wg-quick down: the device, then PostDown, whose failure is ignored. */
    method WireGuardDown() returns (ok: bool)
      requires Inv()
      modifies this`net, this`history
      ensures Inv() && old(history) <= history && Drift(g, Calm(), false, old(net), net)
      ensures Alone() && reliable ==> (ok <==> g.iface in old(net).devs)
      ensures Alone() && reliable && ok ==> Unlinked(g, net)
    {
      ok := DoLink(DelDevice);
      if !ok { return; }
      var _ := DoLink(DelLink);
    }

    /** `ipip up` */
    method IpipUp() returns (ok: bool)
      requires Inv()
      modifies this`net, this`history
      ensures Inv() && old(history) <= history && Drift(g, Calm(), false, old(net), net)
      ensures Alone() && reliable ==> ok
      ensures ok ==> LinkRoute(g) in net.table && g.iface in net.devs
    {
      var _ := DoLink(DelDevice);
      ok := DoLink(AddDevice);
      if !ok { return; }
      ok := DoLink(Configure);
      if !ok { return; }
      ok := RouteLink();
    }

    /** `ipip down`: both commands' failures are ignored. */
    method IpipDown() returns (ok: bool)
      requires Inv()
      modifies this`net, this`history
      ensures Inv() && old(history) <= history && Drift(g, Calm(), false, old(net), net) && ok
      ensures Alone() && reliable ==> Unlinked(g, net)
    {
      var _ := DoLink(DelLink);
      var _ := DoLink(DelDevice);
      ok := true;
    }

    // ---- systemd ----

    /** Starting the guard unit runs `guard up`; the unit is active when the script succeeded. */
    method StartGuard() returns (ok: bool)
      requires Inv()
      modifies this`net, this`active, this`history
      ensures Inv() && old(history) <= history
      ensures active == if ok then old(active) + {GuardUnit} else old(active)
      ensures reliable ==> ok
      ensures GuardUnit in old(active) ==> net == old(net)
      ensures Unpoliced(g, net.rules) == Unpoliced(g, old(net).rules)
      ensures Calm() ==> OthersKept(g, old(net), net)
      ensures Calm() && !w.ip6tables ==> net.out6 == old(net).out6
      ensures ok && GuardUnit !in old(active) ==> Policed(g, net)
    {
      if GuardUnit in active {
        assert active == active + {GuardUnit};
        return true;
      }
      ghost var before := net.rules;
      ok := GuardUp();
      if ok {
        RepolicedMembers(g, before);
        SetActive(active + {GuardUnit});
      }
    }

    /** Starting the link unit first starts the guard it requires, and gives up when that fails. */
    method StartLink() returns (ok: bool)
      requires Inv()
      modifies this`net, this`active, this`history
      ensures Inv() && old(history) <= history
      ensures old(active) <= active <= old(active) + {GuardUnit, LinkUnit}
      ensures ok ==> {GuardUnit, LinkUnit} <= active
      ensures Unpoliced(g, net.rules) == Unpoliced(g, old(net).rules)
      ensures Calm() ==> OthersKept(g, old(net), net)
      ensures Calm() && !w.ip6tables ==> net.out6 == old(net).out6
      ensures reliable ==> GuardUnit in active
      ensures ok && LinkUnit !in old(active) ==> LinkRoute(g) in net.table
      ensures ok && LinkUnit !in old(active) && (GuardUnit !in old(active) || Policed(g, old(net))) ==> Policed(g, net)
    {
      if LinkUnit in active {
        return true;
      }
      ok := StartGuard();
      if !ok { return; }
      if mode == Ipip {
        ok := IpipUp();
      } else {
        ok := WireGuardUp();
      }
      if ok {
        SetActive(active + {LinkUnit});
      }
    }

    /** A stopped link unit is inactive however its script ended. */
    method StopLink()
      requires Inv()
      modifies this`net, this`active, this`history
      ensures Inv() && old(history) <= history && active == old(active) - {LinkUnit}
      ensures Drift(g, Calm(), false, old(net), net)
      ensures Alone() && reliable && LinkUnit in old(active) && (mode == Ipip || g.iface in old(net).devs) ==>
                Unlinked(g, net)
    {
      if LinkUnit in active {
        if mode == Ipip {
          var _ := IpipDown();
        } else {
          var _ := WireGuardDown();
        }
        SetActive(active - {LinkUnit});
      }
    }

    /** Stopping the guard first stops the link that requires it. */
    method StopGuard()
      requires Inv()
      modifies this`net, this`active, this`history
      ensures Inv() && old(history) <= history && active == old(active) - {GuardUnit, LinkUnit}
      ensures GuardUnit !in old(active) ==> net == old(net)
      ensures Unpoliced(g, net.rules) == Unpoliced(g, old(net).rules)
      ensures Calm() ==> OthersKept(g, old(net), net)
      ensures Calm() && !w.ip6tables ==> net.out6 == old(net).out6
      ensures GuardUnit in old(active) && reliable ==> net.rules == Unpoliced(g, old(net).rules) && net.table == []
      ensures GuardUnit in old(active) && reliable && Calm() ==> Unguarded(old(net))
    {
      if GuardUnit in active {
        StopLink();
        SetActive(active - {GuardUnit});
        var _ := GuardDown();
      }
    }

    /** `systemctl enable --now`, `start`, `stop` or `disable --now`. The call itself may fail without any effect. */
    method Systemctl(verb: Verb, unit: Unit) returns (ok: bool)
      requires Inv()
      modifies this
      ensures Inv() && old(history) <= history && requests == old(requests) + [Request(verb, unit)]
      ensures ok && verb == Start ==> unit in active
      ensures ok && verb == Stop ==> unit !in active
      ensures verb == Start ==> old(active) <= active
      ensures ok && verb == Start && unit == GuardUnit && GuardUnit !in old(active) ==> Policed(g, net)
      ensures ok && verb == Start && unit == LinkUnit && LinkUnit !in old(active) ==> LinkRoute(g) in net.table
      ensures ok && verb == Start && unit == LinkUnit && LinkUnit !in old(active)
              && (GuardUnit !in old(active) || Policed(g, old(net)))
              ==> Policed(g, net)
      ensures unit in {AraClient, SshUnit} ==> net == old(net)
      ensures Unpoliced(g, net.rules) == Unpoliced(g, old(net).rules)
      ensures Calm() ==> OthersKept(g, old(net), net)
      ensures Calm() && !w.ip6tables ==> net.out6 == old(net).out6
      ensures verb == Stop && unit == LinkUnit ==> Drift(g, Calm(), false, old(net), net)
      ensures reliable && GuardUnit !in old(active) && GuardUnit !in active ==>
                Drift(g, Calm(), false, old(net), net)
      ensures reliable && GuardUnit in old(active) && GuardUnit !in active ==>
                net.rules == Unpoliced(g, old(net).rules) && net.table == [] && (Calm() ==> Unguarded(old(net)))
      ensures reliable && Alone() && ok && verb == Stop && unit == LinkUnit && LinkUnit in old(active)
              && (mode == Ipip || g.iface in old(net).devs)
              ==> Unlinked(g, net)
      ensures verb == Start && unit != LinkUnit ==> active <= old(active) + {unit}
      ensures verb == Start && unit == LinkUnit ==> active <= old(active) + {LinkUnit, GuardUnit}
      ensures verb == Stop && unit != GuardUnit ==> old(active) - {unit} <= active <= old(active)
      ensures verb == Stop && unit == GuardUnit ==> old(active) - {GuardUnit, LinkUnit} <= active <= old(active)
    {
      requests := requests + [Request(verb, unit)];
      var refused: bool := *;
      if refused || (!IsRouted(mode) && unit in {GuardUnit, LinkUnit}) { // systemctl fails, or has no such unit file
        return false;
      }
      match (verb, unit) {
        case (Start, GuardUnit) => ok := StartGuard();
        case (Start, LinkUnit) => ok := StartLink();
        case (Stop, GuardUnit) =>
          StopGuard();
          ok := *;
        case (Stop, LinkUnit) =>
          StopLink();
          ok := *;
        case (Start, _) =>
          ok := *;
          if ok {
            SetActive(active + {unit});
          }
        case (Stop, _) =>
          ok := true;
          SetActive(active - {unit});
      }
    }
  }
}
