/** What internal/app/app.go asks systemd to do on the Iran edge: join, start, stop, restart, repair, leak test and
    uninstall, each as a run of the machine of module Edge. */
module LinkControl {
  import opened Text
  import opened Netfilter
  import opened Guard
  import opened Edge
  import opened Model
  import opened Routing

  /** managedLinkUnits for the Iran role. */
  function StartUnits(m: Mode): seq<Unit> {
    match m
    case Ara => [GuardUnit, AraClient, LinkUnit]
    case WireGuard => [GuardUnit, LinkUnit]
    case Ipip => [GuardUnit, LinkUnit]
    case SshSocks => [SshUnit]
    case OtherMode(_) => []
  }

  function StopUnits(m: Mode): seq<Unit> {
    match m
    case Ara => [LinkUnit, AraClient]
    case WireGuard => [LinkUnit]
    case Ipip => [LinkUnit]
    case SshSocks => [SshUnit]
    case OtherMode(_) => []
  }

  /** What the tables are for: every start has the guard first and the link last, with the ARA relay up before the
      link; a stop takes down what a start has brought up, in the opposite order, except for the guard. */
  lemma UnitTables(m: Mode)
    ensures IsRouted(m) ==>
              && |StartUnits(m)| >= 2 && StartUnits(m)[0] == GuardUnit && StartUnits(m)[|StartUnits(m)| - 1] == LinkUnit
              && (AraClient in StartUnits(m) <==> m == Ara) && SshUnit !in StartUnits(m)
              && |StopUnits(m)| == |StartUnits(m)| - 1
              && forall i :: 0 <= i < |StopUnits(m)| ==> StopUnits(m)[i] == StartUnits(m)[|StartUnits(m)| - 1 - i]
    ensures m == SshSocks ==> StartUnits(m) == StopUnits(m) == [SshUnit]
  {
  }

  /** An uninstall stops every unit there is, the guard last. */
  lemma UninstallTable(m: Mode)
    ensures |UninstallUnits(m)| == 4 && UninstallUnits(m)[3] == GuardUnit
    ensures forall u: Unit :: u in UninstallUnits(m)
  {
    forall u: Unit ensures u in UninstallUnits(m) {
      match u {
        case GuardUnit => assert UninstallUnits(m)[3] == u;
        case LinkUnit => assert UninstallUnits(m)[if m == Ipip then 1 else 2] == u;
        case AraClient => assert UninstallUnits(m)[0] == u;
        case SshUnit => assert UninstallUnits(m)[if m == Ipip then 2 else 1] == u;
      }
    }
  }

  function Calls(verb: Verb, units: seq<Unit>): seq<Request> {
    seq(|units|, i requires 0 <= i < |units| => Request(verb, units[i]))
  }

  /** At every moment of every run the link unit is up only if no guarded packet can leave by another device. */
  lemma EveryMoment(m: Machine)
    requires m.Inv()
    ensures forall i :: 0 <= i < |m.history| && LinkUnit in m.history[i].active ==>
              FailClosed(m.w, m.g, m.history[i].net)
    ensures forall i :: 0 <= i < |m.history| && GuardUnit in m.history[i].active ==>
              FailClosed(m.w, m.g, m.history[i].net)
  {
    forall i | 0 <= i < |m.history| && GuardUnit in m.history[i].active
      ensures FailClosed(m.w, m.g, m.history[i].net)
    {
      SafeIsFailClosed(m.w, m.g, m.history[i]);
    }
    assert forall i :: 0 <= i < |m.history| && LinkUnit in m.history[i].active ==> GuardUnit in m.history[i].active by {
      assert forall i :: 0 <= i < |m.history| ==> Safe(m.w, m.g, m.history[i]);
    }
  }

  /** When no command fails by accident, a policy rule of the guard never points at an empty table: at every moment of
      every run, `guard down` included, it answers with the tunnel or with unreachable and nothing falls through. */
  lemma EveryRuleAnswers(m: Machine)
    requires m.Inv() && m.reliable
    ensures forall i :: 0 <= i < |m.history|
              && (MarkPolicy(m.g) in m.history[i].net.rules || SourcePolicy(m.g) in m.history[i].net.rules)
              ==> var t := m.history[i].net.table;
                  Lookup(t) == Some(if LinkRoute(m.g) in t then Dev(m.g.iface) else Unreachable)
  {
    forall i | 0 <= i < |m.history|
               && (MarkPolicy(m.g) in m.history[i].net.rules || SourcePolicy(m.g) in m.history[i].net.rules)
      ensures var t := m.history[i].net.table;
              Lookup(t) == Some(if LinkRoute(m.g) in t then Dev(m.g.iface) else Unreachable)
    {
      assert Safe(m.w, m.g, m.history[i]) && Backed(m.g, m.history[i].net);
      ClosedLookup(m.g, m.history[i].net.table);
    }
  }

  lemma CallsStep(verb: Verb, units: seq<Unit>, i: nat)
    requires i < |units|
    ensures units[i] in units
    ensures Calls(verb, units[..i + 1]) == Calls(verb, units[..i]) + [Request(verb, units[i])]
    ensures forall u :: u in units[..i + 1] <==> u in units[..i] || u == units[i]
  {
    assert units[..i + 1] == units[..i] + [units[i]];
  }

  /** The rules of others are where they were before. */
  ghost predicate Framed(m: Machine, before: Net)
    reads m
  {
    && Unpoliced(m.g, m.net.rules) == Unpoliced(m.g, before.rules)
    && (m.Calm() ==> OthersKept(m.g, before, m.net))
    && (m.Calm() && !m.w.ip6tables ==> m.net.out6 == before.out6)
  }

  method StartAll(m: Machine, units: seq<Unit>) returns (ok: bool)
    requires m.Inv()
    modifies m
    ensures m.Inv() && old(m.history) <= m.history && old(m.active) <= m.active
    ensures ok ==> m.requests == old(m.requests) + Calls(Start, units) && forall u :: u in units ==> u in m.active
    ensures Framed(m, old(m.net))
  {
    for i := 0 to |units|
      invariant m.Inv() && old(m.history) <= m.history && old(m.active) <= m.active
      invariant m.requests == old(m.requests) + Calls(Start, units[..i])
      invariant Framed(m, old(m.net))
      invariant forall u :: u in units[..i] ==> u in m.active
    {
      CallsStep(Start, units, i);
      ok := m.Systemctl(Start, units[i]);
      if !ok { return; }
    }
    assert units[..|units|] == units;
    ok := true;
  }

  method StopAll(m: Machine, units: seq<Unit>) returns (ok: bool)
    requires m.Inv()
    requires GuardUnit !in units
    modifies m
    ensures m.Inv() && old(m.history) <= m.history && m.active <= old(m.active)
    ensures GuardUnit in old(m.active) ==> GuardUnit in m.active
    ensures ok ==> m.requests == old(m.requests) + Calls(Stop, units) && forall u :: u in units ==> u !in m.active
    ensures Framed(m, old(m.net))
  {
    for i := 0 to |units|
      invariant m.Inv() && old(m.history) <= m.history && m.active <= old(m.active)
      invariant GuardUnit in old(m.active) ==> GuardUnit in m.active
      invariant m.requests == old(m.requests) + Calls(Stop, units[..i])
      invariant Framed(m, old(m.net))
      invariant forall u :: u in units[..i] ==> u !in m.active
    {
      CallsStep(Stop, units, i);
      ok := m.Systemctl(Stop, units[i]);
      if !ok { return; }
    }
    assert units[..|units|] == units;
    ok := true;
  }

  datatype Action = DoStart | DoStop | DoRestart | OtherAction(text: string)

  /** ManageLink on the Iran edge. Stopping leaves the guard as it is, whatever fails. */
  method ManageLink(m: Machine, action: Action) returns (ok: bool)
    requires m.Inv()
    modifies m
    ensures m.Inv() && old(m.history) <= m.history
    ensures GuardUnit in old(m.active) ==> GuardUnit in m.active
    ensures ok && action == DoStop ==>
              m.requests == old(m.requests) + Calls(Stop, StopUnits(m.mode))
              && forall u :: u in StopUnits(m.mode) ==> u !in m.active
    ensures ok && action == DoStart ==> m.requests == old(m.requests) + Calls(Start, StartUnits(m.mode))
    ensures ok && action == DoRestart ==>
              m.requests == old(m.requests) + Calls(Stop, StopUnits(m.mode)) + Calls(Start, StartUnits(m.mode))
    ensures action.OtherAction? ==> !ok && m.requests == old(m.requests) && m.net == old(m.net)
    ensures Framed(m, old(m.net))
    ensures ok && action != DoStop ==> forall u :: u in StartUnits(m.mode) ==> u in m.active
  {
    match action {
      case DoStart => ok := StartAll(m, StartUnits(m.mode));
      case DoStop => ok := StopAll(m, StopUnits(m.mode));
      case DoRestart =>
        ok := StopAll(m, StopUnits(m.mode));
        if ok {
          ok := StartAll(m, StartUnits(m.mode));
        }
      case OtherAction(_) => ok := false;
    }
  }

  lemma ActiveIsSealed(m: Machine)
    requires m.Inv() && GuardUnit in m.active
    ensures Sealed(m.w, m.g, m.net)
  {
    SafeIsFailClosed(m.w, m.g, m.history[|m.history| - 1]);
  }

  /** The routed cases of activateIran's switch. */
  method StartTunnel(m: Machine) returns (ok: bool)
    requires m.Inv() && IsRouted(m.mode) && GuardUnit in m.active
    modifies m
    ensures m.Inv() && old(m.history) <= m.history && old(m.active) <= m.active
    ensures ok ==> LinkUnit in m.active && (m.mode == Ara ==> AraClient in m.active)
    ensures ok ==>
              m.requests == old(m.requests) + Calls(Start, if m.mode == Ara then [AraClient, LinkUnit] else [LinkUnit])
    ensures ok && LinkUnit !in old(m.active) ==> LinkRoute(m.g) in m.net.table
    ensures ok && LinkUnit !in old(m.active) && Policed(m.g, old(m.net)) ==> Policed(m.g, m.net)
    ensures Framed(m, old(m.net))
  {
    if m.mode == Ara {
      ok := m.Systemctl(Start, AraClient);
      if !ok { return; }
    }
    ok := m.Systemctl(Start, LinkUnit);
  }

  /** activateIran in a routed mode: the tunnel is started only after the guard's start succeeded. */
  method ActivateRouted(m: Machine) returns (ok: bool)
    requires m.Inv() && IsRouted(m.mode)
    modifies m
    ensures m.Inv() && old(m.history) <= m.history && old(m.active) <= m.active
    ensures ok ==> m.requests == old(m.requests) + Calls(Start, StartUnits(m.mode))
    ensures ok ==> forall u :: u in StartUnits(m.mode) ==> u in m.active
    ensures ok && old(m.active) == {} ==> Carrying(m.w, m.g, m.net)
    ensures Framed(m, old(m.net))
    ensures m.reliable && GuardUnit !in old(m.active) && GuardUnit !in m.active ==>
              Drift(m.g, m.Calm(), false, old(m.net), m.net)
  {
    ok := m.Systemctl(Start, GuardUnit);
    if !ok { return; }
    ok := StartTunnel(m);
    if ok {
      ActiveIsSealed(m);
    }
  }

  method ActivateIran(m: Machine) returns (ok: bool)
    requires m.Inv()
    modifies m
    ensures m.Inv() && old(m.history) <= m.history && old(m.active) <= m.active
    ensures ok && IsRouted(m.mode) && old(m.active) == {} ==> Carrying(m.w, m.g, m.net)
    ensures !IsRouted(m.mode) ==> m.active <= old(m.active) + {SshUnit}
    ensures ok ==> m.requests == old(m.requests) + Calls(Start, StartUnits(m.mode))
    ensures ok && IsRouted(m.mode) ==> forall u :: u in StartUnits(m.mode) ==> u in m.active
    ensures Framed(m, old(m.net))
    ensures m.reliable && GuardUnit !in old(m.active) && GuardUnit !in m.active ==>
              Drift(m.g, m.Calm(), false, old(m.net), m.net)
  {
    ok := *; // systemctl daemon-reload
    if !ok { return; }
    if IsRouted(m.mode) {
      ok := ActivateRouted(m);
    } else if m.mode == SshSocks {
      var _ := m.Systemctl(Start, SshUnit);
    }
  }

  /** RepairGuards on the edge; a mode without a guard is refused. */
  method RepairGuards(m: Machine) returns (ok: bool)
    requires m.Inv()
    modifies m
    ensures m.Inv() && old(m.history) <= m.history && old(m.active) <= m.active <= old(m.active) + {GuardUnit}
    ensures ok ==> GuardUnit in m.active && Installed(m.w, m.g, m.net)
                   && MarkPolicy(m.g) in m.net.rules && SourcePolicy(m.g) in m.net.rules
    ensures Framed(m, old(m.net))
    ensures !IsRouted(m.mode) ==> !ok && m.net == old(m.net)
  {
    if !IsRouted(m.mode) {
      return false;
    }
    ok := m.Systemctl(Start, GuardUnit);
    if !ok { return; }
    ghost var before := m.net.rules;
    ok := m.GuardUp();
    if ok {
      RepolicedMembers(m.g, before);
    }
  }

  datatype LeakResult = NotRun | StopFailed | Leaked | RestartFailed | Passed

  /** What `ip route get` for a marked packet says: a device it would leave by, if the command succeeds at all. */
  predicate FoundRoute(answer: Option<Hop>) {
    answer.Some? && answer.value.Dev?
  }

  /** LeakTest; `baseline` and `escaped` say whether the two source-bound requests got through. It reports a leak
      exactly when one of its two probes finds one with the link stopped. Once the stop succeeded, every exit has asked
      for a start of the same unit: the deferred one covers the failing probes, and follows a failed restart once more.
      The guard stays active throughout. */
  method LeakTest(m: Machine, baseline: bool, answer: Option<Hop>, escaped: bool) returns (result: LeakResult)
    requires m.Inv()
    modifies m
    ensures m.Inv() && old(m.history) <= m.history
    ensures result == NotRun <==> GuardUnit !in old(m.active) || !IsRouted(m.mode) || !baseline
    ensures result == NotRun ==> m.net == old(m.net) && m.active == old(m.active)
    ensures result == Leaked ==> FoundRoute(answer) || escaped
    ensures result in {RestartFailed, Passed} ==> !FoundRoute(answer) && !escaped
    ensures GuardUnit in old(m.active) ==> GuardUnit in m.active
    ensures result == Passed ==> LinkUnit in m.active
    ensures Framed(m, old(m.net))
    ensures m.requests == old(m.requests) +
              match result
              case NotRun => []
              case StopFailed => Calls(Stop, [LinkUnit])
              case Leaked => [Request(Stop, LinkUnit), Request(Start, LinkUnit)]
              case RestartFailed => [Request(Stop, LinkUnit), Request(Start, LinkUnit), Request(Start, LinkUnit)]
              case Passed => [Request(Stop, LinkUnit), Request(Start, LinkUnit)]
  {
    if !IsRouted(m.mode) || GuardUnit !in m.active {
      return NotRun;
    }
    if !baseline {
      return NotRun;
    }
    var ok := m.Systemctl(Stop, LinkUnit);
    if !ok {
      return StopFailed;
    }
    if FoundRoute(answer) || escaped {
      var _ := m.Systemctl(Start, LinkUnit); // deferred
      return Leaked;
    }
    ok := m.Systemctl(Start, LinkUnit);
    if !ok {
      var _ := m.Systemctl(Start, LinkUnit); // deferred
      return RestartFailed;
    }
    return Passed;
  }

  /** The policy rules are those of others, table T is empty, and so are the chains of the guard's rules. */
  ghost predicate Removed(m: Machine, before: Net)
    reads m
  {
    m.net.rules == Unpoliced(m.g, before.rules) && m.net.table == [] && (m.Calm() ==> m.Unguarded(before))
  }

  /** The edge's units in the order Uninstall stops them. */
  function UninstallUnits(m: Mode): seq<Unit> {
    if m == Ipip then [AraClient, LinkUnit, SshUnit, GuardUnit] else [AraClient, SshUnit, LinkUnit, GuardUnit]
  }

  /** Uninstall on the edge: every unit is asked to stop, the guard last, and failures are ignored. Where the guard was
      stopped, nothing of it is left. */
  method Uninstall(m: Machine)
    requires m.Inv()
    modifies m
    ensures m.Inv() && old(m.history) <= m.history && m.active <= old(m.active)
    ensures m.requests == old(m.requests) + Calls(Stop, UninstallUnits(m.mode))
    ensures Framed(m, old(m.net))
    ensures m.reliable && GuardUnit in old(m.active) && GuardUnit !in m.active ==> Removed(m, old(m.net))
    ensures m.reliable && GuardUnit !in old(m.active) ==> Drift(m.g, m.Calm(), false, old(m.net), m.net)
  {
    var units := UninstallUnits(m.mode);
    StopEach(m, units[..3]);
    var _ := m.Systemctl(Stop, units[3]);
    CallsStep(Stop, units, 3);
    assert units[..4] == units;
  }

  /** The loop over the units ahead of the guard; failures are ignored. */
  method StopEach(m: Machine, units: seq<Unit>)
    requires m.Inv() && GuardUnit !in units
    modifies m
    ensures m.Inv() && old(m.history) <= m.history && m.active <= old(m.active)
    ensures m.requests == old(m.requests) + Calls(Stop, units)
    ensures GuardUnit in m.active <==> GuardUnit in old(m.active)
    ensures Drift(m.g, m.Calm(), false, old(m.net), m.net)
  {
    for i := 0 to |units|
      invariant m.Inv() && old(m.history) <= m.history && m.active <= old(m.active)
      invariant m.requests == old(m.requests) + Calls(Stop, units[..i])
      invariant GuardUnit in m.active <==> GuardUnit in old(m.active)
      invariant Drift(m.g, m.Calm(), false, old(m.net), m.net)
    {
      CallsStep(Stop, units, i);
      var _ := m.Systemctl(Stop, units[i]);
    }
    assert units[..|units|] == units;
  }

  /** Installing and uninstalling gives a host its rule lists back: activateIran on a host where the guard never ran,
      then Uninstall with the guard really stopped. Only the table of a host where activateIran failed before the guard
      may hold what other link commands put there. */
  method ActivateThenUninstall(m: Machine) returns (ok: bool)
    requires m.Inv() && m.active == {} && IsRouted(m.mode)
    requires MarkPolicy(m.g) !in m.net.rules && SourcePolicy(m.g) !in m.net.rules
    requires MarkRule(m.g) !in m.net.out4 && SourceRule(m.g) !in m.net.out4 && MARK6 !in m.net.out6
    modifies m
    ensures m.Inv() && old(m.history) <= m.history
    ensures m.reliable && GuardUnit !in m.active ==> m.net.rules == old(m.net).rules
    ensures m.reliable && GuardUnit !in m.active && m.Calm() ==>
              m.net.out4 == old(m.net).out4 && m.net.out6 == old(m.net).out6
    ensures m.reliable && GuardUnit !in m.active && ok ==> m.net.table == []
  {
    UnguardedLists(m.g, m.net);
    ok := ActivateIran(m);
    Uninstall(m);
  }

  lemma UnguardedLists(g: Params, s: Net)
    requires MarkPolicy(g) !in s.rules && SourcePolicy(g) !in s.rules
    requires MarkRule(g) !in s.out4 && SourceRule(g) !in s.out4 && MARK6 !in s.out6
    ensures Unpoliced(g, s.rules) == s.rules && Foreign4(g, s.out4) == s.out4 && Purge(s.out6, MARK6) == s.out6
  {
    StrippedFree(s.rules, MarkPolicy(g));
    StrippedFree(s.rules, SourcePolicy(g));
    PurgeTwoFree(s.out4, MarkRule(g), SourceRule(g));
    PurgeFree(s.out6, MARK6);
  }
}
