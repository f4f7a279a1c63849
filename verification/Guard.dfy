/** The Iran edge's egress guard: its rules, the commands that touch them, and what every run keeps. */
module Guard {
  import opened Text
  import opened Address
  import opened Netfilter
  import opened Routing

  const XRAY_MARK := 72
  const FALLBACK := Route(32767, Unreachable)

  /** TABLE, SOURCE and IFACE of the guard script. */
  datatype Params = Params(table: nat, source: nat, iface: string)

  /** Everything on the host that is not Hamara's: other rules, other tables, IPv6 routing, chain policies, and
      whether ip6tables is installed. */
  datatype World = World(strangers4: Strangers, strangers6: Strangers, elsewhere: Elsewhere,
                         route6: Packet -> Option<string>, policy4: Target, policy6: Target, ip6tables: bool)

  datatype Net = Net(rules: seq<PolicyRule>, table: Table, out4: Chain, out6: Chain, devs: set<string>)

  function MarkRule(g: Params): Rule {
    ANY.(mark := Some(XRAY_MARK), notOut := Some(g.iface), target := Reject)
  }

  function SourceRule(g: Params): Rule {
    ANY.(src := Some(Cidr(g.source, 32)), notOut := Some(g.iface), target := Reject)
  }

  const MARK6 := ANY.(mark := Some(XRAY_MARK), target := Reject)

  function MarkPolicy(g: Params): PolicyRule {
    PolicyRule(109, FwMark(XRAY_MARK), g.table)
  }

  function SourcePolicy(g: Params): PolicyRule {
    PolicyRule(110, From(g.source), g.table)
  }

  function LinkRoute(g: Params): Route {
    Route(10, Dev(g.iface))
  }

  // ---- packets ----

  /** The device an IPv4 packet leaves by, if it leaves: the policy-rule walk, then the OUTPUT chain. */
  function Leaves4(w: World, g: Params, s: Net, p: Packet): Option<string> {
    match Walk(w.elsewhere, g.table, s.table, s.rules, p)
    case Some(Dev(d)) =>
      var verdict := First(w.strangers4, s.out4, p.(outDev := d));
      if (if verdict.Some? then verdict.value else w.policy4) == Accept then Some(d) else None
    case _ => None
  }

  function Leaves6(w: World, s: Net, p: Packet): Option<string> {
    var route := w.route6(p);
    if route.None? then None
    else
      var verdict := First(w.strangers6, s.out6, p.(outDev := route.value));
      if (if verdict.Some? then verdict.value else w.policy6) == Accept then route else None
  }

  predicate Guarded(g: Params, p: Packet) {
    p.mark == XRAY_MARK || p.src == g.source
  }

  /** No guarded IPv4 packet leaves by another device than the tunnel, and no marked IPv6 packet leaves at all. */
  ghost predicate FailClosed(w: World, g: Params, s: Net) {
    && (forall p :: Guarded(g, p) ==> Leaves4(w, g, s, p) in {None, Some(g.iface)})
    && (w.ip6tables ==> forall p: Packet :: p.mark == XRAY_MARK ==> Leaves6(w, s, p) == None)
  }

  // ---- commands ----

  /** The commands of the guard, WireGuard and IPIP scripts, each one atomic. */
  datatype Cmd =
    | ReplaceFallback                  // ip route replace unreachable default metric 32767 table T
    | FlushTable                       // ip route flush table T
    | AddPolicy(rule: PolicyRule)      // ip rule add
    | DelPolicy(rule: PolicyRule)      // ip rule del
    | Check4(r: Rule) | Insert4(r: Rule) | Delete4(r: Rule)
    | Check6 | Insert6 | Delete6
    | ReplaceLink                      // ip route replace default dev IFACE metric 10 table T
    | DelLink                          // ip route del default dev IFACE table T
    | AddDevice                        // ip tunnel add, ip link add
    | Configure                        // ip addr add, ip link set up
    | DelDevice                        // ip tunnel del, ip link del, or the device going away by itself

  /** Whether the command finds what it needs. */
  predicate CanDo(g: Params, s: Net, c: Cmd) {
    match c
    case AddPolicy(rule) => rule !in s.rules
    case DelPolicy(rule) => rule in s.rules
    case Check4(r) => r in s.out4
    case Delete4(r) => r in s.out4
    case Check6 => MARK6 in s.out6
    case Delete6 => MARK6 in s.out6
    case ReplaceLink => g.iface in s.devs
    case DelLink => exists i :: 0 <= i < |s.table| && s.table[i].hop == Dev(g.iface)
    case AddDevice => g.iface !in s.devs
    case Configure => g.iface in s.devs
    case DelDevice => g.iface in s.devs
    case _ => true
  }

  function Apply(g: Params, s: Net, c: Cmd): Net
    requires CanDo(g, s, c)
  {
    match c
    case ReplaceFallback => s.(table := Replace(s.table, FALLBACK))
    case FlushTable => s.(table := [])
    case AddPolicy(rule) => s.(rules := AddRule(s.rules, rule))
    case DelPolicy(rule) => s.(rules := DelRule(s.rules, rule))
    case Insert4(r) => s.(out4 := [r] + s.out4)
    case Delete4(r) => s.(out4 := RemoveFirst(s.out4, r))
    case Insert6 => s.(out6 := [MARK6] + s.out6)
    case Delete6 => s.(out6 := RemoveFirst(s.out6, MARK6))
    case ReplaceLink => s.(table := Replace(s.table, LinkRoute(g)))
    case DelLink => s.(table := DelDev(s.table, g.iface))
    case AddDevice => s.(devs := s.devs + {g.iface})
    case DelDevice => s.(devs := s.devs - {g.iface}, table := DropDev(s.table, g.iface))
    case Check4(_) => s
    case Check6 => s
    case Configure => s
  }

  /** Commands of link scripts, and the device going away. */
  predicate LinkCmd(c: Cmd) {
    c.ReplaceLink? || c.DelLink? || c.AddDevice? || c.Configure? || c.DelDevice?
  }

  /** Commands of `guard up`. */
  predicate UpCmd(g: Params, c: Cmd) {
    match c
    case ReplaceFallback => true
    case AddPolicy(rule) => rule in {MarkPolicy(g), SourcePolicy(g)}
    case DelPolicy(rule) => rule in {MarkPolicy(g), SourcePolicy(g)}
    case Check4(r) => r in {MarkRule(g), SourceRule(g)}
    case Insert4(r) => r in {MarkRule(g), SourceRule(g)}
    case Check6 => true
    case Insert6 => true
    case _ => false
  }

  /** Commands of `guard down`. */
  predicate DownCmd(g: Params, c: Cmd) {
    match c
    case FlushTable => true
    case DelPolicy(rule) => rule in {MarkPolicy(g), SourcePolicy(g)}
    case Check4(r) => r in {MarkRule(g), SourceRule(g)}
    case Delete4(r) => r in {MarkRule(g), SourceRule(g)}
    case Check6 => true
    case Delete6 => true
    case _ => false
  }

  // ---- the table ----

  /** Table T holds Hamara's routes only, in metric order. */
  predicate OwnTable(g: Params, t: Table) {
    t == [] || t == [FALLBACK] || t == [LinkRoute(g)] || t == [LinkRoute(g), FALLBACK]
  }

  /** A lookup finds the tunnel when the link route is there, else the unreachable fallback, and never nothing. */
  lemma ClosedLookup(g: Params, t: Table)
    requires OwnTable(g, t) && FALLBACK in t
    ensures Lookup(t) == Some(if LinkRoute(g) in t then Dev(g.iface) else Unreachable)
  {
  }

  /** The three edits, as Hamara's own table sees them. */
  lemma TableOps(g: Params, t: Table)
    requires OwnTable(g, t)
    ensures Replace(t, FALLBACK) == if LinkRoute(g) in t then [LinkRoute(g), FALLBACK] else [FALLBACK]
    ensures Replace(t, LinkRoute(g)) == if FALLBACK in t then [LinkRoute(g), FALLBACK] else [LinkRoute(g)]
    ensures DelDev(t, g.iface) == DropDev(t, g.iface) == if FALLBACK in t then [FALLBACK] else []
  {
    var l, f, none: Table := LinkRoute(g), FALLBACK, [];
    assert [l, f][1..] == [f] && [f][1..] == none && [l][1..] == none;
    assert DropDev(none, g.iface) == none && DropDev([f], g.iface) == [f] + DropDev(none, g.iface);
    assert Replace(none, f) == [f] && Replace(none, l) == [l];
  }

  lemma TableStep(g: Params, s: Net, c: Cmd)
    requires OwnTable(g, s.table) && CanDo(g, s, c)
    ensures OwnTable(g, Apply(g, s, c).table)
    ensures FALLBACK in Apply(g, s, c).table <==> c.ReplaceFallback? || (FALLBACK in s.table && !c.FlushTable?)
    ensures c.ReplaceLink? ==> LinkRoute(g) in Apply(g, s, c).table
  {
    TableOps(g, s.table);
  }

  // ---- sealed states ----

  /** Both layers in place: the OUTPUT rejects ahead of any accepting stranger, and a table that always answers. */
  ghost predicate Sealed(w: World, g: Params, s: Net) {
    && Shields(w.strangers4, s.out4, MarkRule(g))
    && Shields(w.strangers4, s.out4, SourceRule(g))
    && (w.ip6tables ==> Shields(w.strangers6, s.out6, MARK6))
    && OwnTable(g, s.table) && FALLBACK in s.table
    && Ordered(s.rules)
  }

  /** Layer one alone: while the packet's own reject works, the chain stops it on every other device, whatever policy
      rules and table the host has. */
  lemma OutputLayer(w: World, g: Params, s: Net, p: Packet, d: string)
    requires (p.mark == XRAY_MARK && Shields(w.strangers4, s.out4, MarkRule(g)))
             || (p.src == g.source && Shields(w.strangers4, s.out4, SourceRule(g)))
    requires d != g.iface
    ensures First(w.strangers4, s.out4, p.(outDev := d)).Some?
    ensures Stops(First(w.strangers4, s.out4, p.(outDev := d)).value)
  {
    HostNet(g.source, p.src);
    var marked := p.mark == XRAY_MARK && Shields(w.strangers4, s.out4, MarkRule(g));
    ShieldStops(w.strangers4, s.out4, if marked then MarkRule(g) else SourceRule(g), p.(outDev := d));
  }

  /** Layer two alone: while the packet's own policy rule is installed, routing knows only the tunnel or nothing,
      whatever the OUTPUT chains hold, for every packet that the lower-numbered rules of others have no route for. */
  lemma RoutingLayer(w: World, g: Params, s: Net, p: Packet)
    requires OwnTable(g, s.table) && FALLBACK in s.table && Ordered(s.rules)
    requires (p.mark == XRAY_MARK && MarkPolicy(g) in s.rules) || (p.src == g.source && SourcePolicy(g) in s.rules)
    requires QuietUpTo(w.elsewhere, g.table, s.rules, 110, p)
    ensures Walk(w.elsewhere, g.table, s.table, s.rules, p)
         == Some(if LinkRoute(g) in s.table then Dev(g.iface) else Unreachable)
  {
    var r := if p.mark == XRAY_MARK && MarkPolicy(g) in s.rules then MarkPolicy(g) else SourcePolicy(g);
    PresentSteers(w.elsewhere, g.table, s.rules, r, p);
    SteeredWalk(w.elsewhere, g.table, s.table, s.rules, p);
    ClosedLookup(g, s.table);
  }

  /** A sealed state is fail-closed whatever policy rules it has. */
  lemma SealedIsFailClosed(w: World, g: Params, s: Net)
    requires Sealed(w, g, s)
    ensures FailClosed(w, g, s)
  {
    forall p | Guarded(g, p) ensures Leaves4(w, g, s, p) in {None, Some(g.iface)} {
      match Walk(w.elsewhere, g.table, s.table, s.rules, p) {
        case Some(Dev(d)) =>
          if d != g.iface {
            OutputLayer(w, g, s, p, d);
          }
        case _ =>
      }
    }
    if w.ip6tables {
      forall p: Packet | p.mark == XRAY_MARK ensures Leaves6(w, s, p) == None {
        if w.route6(p).Some? {
          ShieldStops(w.strangers6, s.out6, MARK6, p.(outDev := w.route6(p).value));
        }
      }
    }
  }

  lemma GuardRulesHarmless(w: World, g: Params)
    ensures Harmless(w.strangers4, MarkRule(g), SourceRule(g)) && Harmless(w.strangers4, SourceRule(g), MarkRule(g))
  {
  }

  /** Every command of `guard up` and of the link scripts, at any moment, keeps a sealed state sealed. */
  lemma SealedStep(w: World, g: Params, s: Net, c: Cmd)
    requires Sealed(w, g, s) && (UpCmd(g, c) || LinkCmd(c)) && CanDo(g, s, c)
    ensures Sealed(w, g, Apply(g, s, c))
  {
    TableStep(g, s, c);
    match c {
      case AddPolicy(rule) => AddRuleOrdered(s.rules, rule);
      case DelPolicy(rule) => DelRuleOrdered(s.rules, rule);
      case Insert4(r) => GuardRulesHarmless(w, g);
      case _ =>
    }
  }

  // ---- all runs, all interleavings ----

  /** One event on the host: a command of any number of concurrent `guard up` and link processes, or another program
      editing a chain or the policy rules. */
  datatype Event =
    | Run(cmd: Cmd)
    | Repolicy(add: bool, rule: PolicyRule)
    | Insert(v6: bool, at: nat, id: nat)
    | Remove(v6: bool, at: nat)

  /** Another program may put a chain rule anywhere behind the guard's rejects, or ahead of them if it never accepts
      what they stop; it may remove any chain rule that is not the guard's, and add and remove policy rules at will. */
  ghost predicate Enabled(w: World, g: Params, s: Net, e: Event) {
    match e
    case Run(c) => (UpCmd(g, c) || LinkCmd(c)) && CanDo(g, s, c)
    case Repolicy(add, rule) => add || rule in s.rules
    case Insert(false, k, id) =>
      k <= |s.out4|
      && forall r :: r in {MarkRule(g), SourceRule(g)}
           ==> r in s.out4[..k] || Harmless(w.strangers4, Stranger(id), r)
    case Insert(true, k, id) => k <= |s.out6| && (MARK6 in s.out6[..k] || Harmless(w.strangers6, Stranger(id), MARK6))
    case Remove(false, k) => k < |s.out4| && s.out4[k] !in {MarkRule(g), SourceRule(g)}
    case Remove(true, k) => k < |s.out6| && s.out6[k] != MARK6
  }

  function After(g: Params, s: Net, e: Event): Net
    requires match e
             case Run(c) => CanDo(g, s, c)
             case Repolicy(add, rule) => add || rule in s.rules
             case Insert(v6, k, _) => k <= |if v6 then s.out6 else s.out4|
             case Remove(v6, k) => k < |if v6 then s.out6 else s.out4|
  {
    match e
    case Run(c) => Apply(g, s, c)
    case Repolicy(add, rule) => s.(rules := if add then AddRule(s.rules, rule) else DelRule(s.rules, rule))
    case Insert(false, k, id) => s.(out4 := s.out4[..k] + [Stranger(id)] + s.out4[k..])
    case Insert(true, k, id) => s.(out6 := s.out6[..k] + [Stranger(id)] + s.out6[k..])
    case Remove(false, k) => s.(out4 := s.out4[..k] + s.out4[k + 1..])
    case Remove(true, k) => s.(out6 := s.out6[..k] + s.out6[k + 1..])
  }

  /** A step happens, or the command fails and changes nothing. */
  ghost predicate Next(w: World, g: Params, s: Net, e: Event, s': Net) {
    s' == s || (Enabled(w, g, s, e) && s' == After(g, s, e))
  }

  ghost predicate IsRun(w: World, g: Params, states: seq<Net>, events: seq<Event>) {
    && |states| == |events| + 1
    && forall i :: 0 <= i < |events| ==> Next(w, g, states[i], events[i], states[i + 1])
  }

  lemma EventKeepsSealed(w: World, g: Params, s: Net, e: Event)
    requires Sealed(w, g, s) && Enabled(w, g, s, e)
    ensures Sealed(w, g, After(g, s, e))
  {
    match e {
      case Run(c) => SealedStep(w, g, s, c);
      case Repolicy(add, rule) =>
        if add {
          AddRuleOrdered(s.rules, rule);
        } else {
          DelRuleOrdered(s.rules, rule);
        }
      case Insert(false, k, id) =>
        ShieldInsert(w.strangers4, s.out4, MarkRule(g), k, Stranger(id));
        ShieldInsert(w.strangers4, s.out4, SourceRule(g), k, Stranger(id));
      case Insert(true, k, id) =>
        if w.ip6tables {
          ShieldInsert(w.strangers6, s.out6, MARK6, k, Stranger(id));
        }
      case Remove(false, k) =>
        ShieldDelete(w.strangers4, s.out4, MarkRule(g), k);
        ShieldDelete(w.strangers4, s.out4, SourceRule(g), k);
      case Remove(true, k) =>
        if w.ip6tables {
          ShieldDelete(w.strangers6, s.out6, MARK6, k);
        }
    }
  }

  /** The same chain rules and tools; routing outside table T and the chains' policies may differ. */
  ghost predicate SameRules(v: World, w: World) {
    v.strangers4 == w.strangers4 && v.strangers6 == w.strangers6 && v.ip6tables == w.ip6tables
  }

  /** Once sealed, every state of every run is fail-closed: through re-runs of `guard up` that take the policy rules
      away, links going up and down, devices vanishing, and commands failing; and whatever the other tables, the IPv6
      routes and the chains' policies are in that state. */
  lemma {:induction false} AlwaysFailClosed(w: World, g: Params, states: seq<Net>, events: seq<Event>, i: nat)
    requires IsRun(w, g, states, events) && i < |states| && Sealed(w, g, states[0])
    ensures Sealed(w, g, states[i])
    ensures forall v :: SameRules(v, w) ==> FailClosed(v, g, states[i])
    ensures Lookup(states[i].table) == Some(if LinkRoute(g) in states[i].table then Dev(g.iface) else Unreachable)
  {
    if i > 0 {
      AlwaysFailClosed(w, g, states, events, i - 1);
      assert Next(w, g, states[i - 1], events[i - 1], states[i]);
      if states[i] != states[i - 1] {
        EventKeepsSealed(w, g, states[i - 1], events[i - 1]);
      }
    }
    forall v | SameRules(v, w) ensures FailClosed(v, g, states[i]) {
      SealedIsFailClosed(v, g, states[i]);
    }
    ClosedLookup(g, states[i].table);
  }

  /** A step that leaves policy rule `r` alone: a link command, the fallback put back, or any change whatever to the
      chains and to the other policy rules. */
  ghost predicate Unruly(g: Params, r: PolicyRule, s: Net, s': Net) {
    || (exists c :: (LinkCmd(c) || c.ReplaceFallback?) && CanDo(g, s, c) && s' == Apply(g, s, c))
    || (s'.table == s.table && s'.devs == s.devs && r in s'.rules && Ordered(s'.rules))
  }

  /** The routing half of a state, for the packets of one policy rule. */
  ghost predicate Steering(g: Params, r: PolicyRule, s: Net) {
    OwnTable(g, s.table) && FALLBACK in s.table && Ordered(s.rules) && r in s.rules
  }

  lemma UnrulyStep(g: Params, r: PolicyRule, s: Net, s': Net)
    requires Steering(g, r, s) && Unruly(g, r, s, s')
    ensures Steering(g, r, s')
  {
    if c :| (LinkCmd(c) || c.ReplaceFallback?) && CanDo(g, s, c) && s' == Apply(g, s, c) {
      TableStep(g, s, c);
    }
  }

  /** The other half of the two layers over all runs: as long as nobody takes its policy rule away, a guarded packet
      leaves by the tunnel or not at all, even if every OUTPUT chain has been flushed or opened. */
  lemma {:induction false} RoutingAlone(w: World, g: Params, r: PolicyRule, states: seq<Net>, i: nat, p: Packet)
    requires r in {MarkPolicy(g), SourcePolicy(g)} && Selects(w.elsewhere, r.sel, p)
    requires i < |states| && Steering(g, r, states[0])
    requires forall m :: 0 <= m < |states| - 1 ==> Unruly(g, r, states[m], states[m + 1])
    ensures Steering(g, r, states[i])
    ensures QuietUpTo(w.elsewhere, g.table, states[i].rules, 110, p) ==>
              Leaves4(w, g, states[i], p) in {None, Some(g.iface)}
  {
    if i > 0 {
      RoutingAlone(w, g, r, states, i - 1, p);
      UnrulyStep(g, r, states[i - 1], states[i]);
    }
    if QuietUpTo(w.elsewhere, g.table, states[i].rules, 110, p) {
      RepairMissContained(w, g, states[i], p);
    }
  }

  // ---- what the guard leaves alone ----

  /** Re-applying the guard's rules to any chains decides nothing about a packet that has neither the mark nor the
      source address, about one that leaves by the tunnel, or about an unmarked IPv6 packet. */
  lemma UnguardedVerdicts(w: World, g: Params, c: Chain, p: Packet)
    ensures (p.mark != 72 && p.src != g.source) || p.outDev == g.iface ==>
              First(w.strangers4, Ensure(Ensure(c, MarkRule(g)), SourceRule(g)), p) == First(w.strangers4, c, p)
    ensures p.mark != 72 ==> First(w.strangers6, Ensure(c, MARK6), p) == First(w.strangers6, c, p)
  {
    HostNet(g.source, p.src);
    EnsureVerdict(w.strangers4, c, MarkRule(g), p);
    EnsureVerdict(w.strangers4, Ensure(c, MarkRule(g)), SourceRule(g), p);
    EnsureVerdict(w.strangers6, c, MARK6, p);
  }

  /** And it decides about exactly the marked IPv6 packets where its rule was missing. */
  lemma MarkedV6Rejected(w: World, c: Chain, p: Packet)
    ensures First(w.strangers6, Ensure(c, MARK6), p)
         == if MARK6 !in c && p.mark == 72 then Some(Reject) else First(w.strangers6, c, p)
  {
    EnsureVerdict(w.strangers6, c, MARK6, p);
  }

  // ---- where the promise stops ----

  /** `hamara repair` on an arbitrary chain: a guarded packet on another device is stopped exactly when some guard rule
      that hits it was missing, and so goes to the head, or the chain already decided to stop it. A reject that is
      present behind somebody's ACCEPT is found by -C and stays where it is. */
  lemma RepairExact(w: World, g: Params, c: Chain, p: Packet)
    requires Guarded(g, p) && p.outDev != g.iface
    ensures var repaired := Ensure(Ensure(c, MarkRule(g)), SourceRule(g));
            var before := First(w.strangers4, c, p);
            var missing := (p.mark == XRAY_MARK && MarkRule(g) !in c) || (p.src == g.source && SourceRule(g) !in c);
            First(w.strangers4, repaired, p) == if missing then Some(Reject) else before
  {
    HostNet(g.source, p.src);
    EnsureVerdict(w.strangers4, c, MarkRule(g), p);
    EnsureVerdict(w.strangers4, Ensure(c, MarkRule(g)), SourceRule(g), p);
    assert SourceRule(g) in Ensure(c, MarkRule(g)) <==> SourceRule(g) in c;
  }

  /** The witness: one ACCEPT inserted ahead of an installed guard, and a repair changes nothing. */
  lemma RepairCanMiss(g: Params, p: Packet)
    requires p.mark == XRAY_MARK && p.outDev != g.iface
    ensures var open: Strangers := (id, q) => Some(Accept);
            var c := [Stranger(0), SourceRule(g), MarkRule(g)];
            && Ensure(Ensure(c, MarkRule(g)), SourceRule(g)) == c
            && First(open, c, p) == Some(Accept)
  {
  }

  /** What such a chain leaves standing, as any other does: with its policy rule installed, a packet still gets the
      tunnel or nothing, even where the OUTPUT chain accepts everything. */
  lemma RepairMissContained(w: World, g: Params, s: Net, p: Packet)
    requires OwnTable(g, s.table) && FALLBACK in s.table && Ordered(s.rules)
    requires (p.mark == XRAY_MARK && MarkPolicy(g) in s.rules) || (p.src == g.source && SourcePolicy(g) in s.rules)
    requires QuietUpTo(w.elsewhere, g.table, s.rules, 110, p)
    ensures Leaves4(w, g, s, p) in {None, Some(g.iface)}
  {
    RoutingLayer(w, g, s, p);
  }

  /** Without ip6tables the script skips its IPv6 rule and still reports success, so that the IPv6 chain is what others
      made of it. On an empty one, marked IPv6 packets are kept in exactly when the chain's policy does not accept or
      no marked packet has an IPv6 route. */
  lemma MarkedV6Escapes(w: World, s: Net)
    requires s.out6 == []
    ensures (forall p: Packet :: p.mark == XRAY_MARK ==> Leaves6(w, s, p) == None)
       <==> w.policy6 != Accept || forall p: Packet :: p.mark == XRAY_MARK ==> w.route6(p) == None
  {
    if w.policy6 == Accept {
      forall p: Packet | p.mark == XRAY_MARK ensures Leaves6(w, s, p) == w.route6(p) {
      }
    }
  }
}
