/** The outside gateway's firewall script as an editor of three rule lists (FirewallScript in
    internal/render/render.go). */
module Firewall {
  import opened Text
  import opened Address
  import opened Netfilter
  import opened Model

  /** WAN, IFACE, CIDR and the mode's ports. */
  datatype Params = Params(mode: Mode, wan: string, iface: string, cidr: Cidr, endpointPort: nat, wireGuardPort: nat)

  datatype Hook = Input | Forward | Postrouting
  datatype Chains = Chains(input: Chain, forward: Chain, postrouting: Chain)

  function At(c: Chains, h: Hook): Chain {
    match h case Input => c.input case Forward => c.forward case Postrouting => c.postrouting
  }

  function Put(c: Chains, h: Hook, chain: Chain): Chains {
    match h
    case Input => c.(input := chain)
    case Forward => c.(forward := chain)
    case Postrouting => c.(postrouting := chain)
  }

  // ---- the rules ----

  function TlsAccept(f: Params): Rule {
    ANY.(proto := Some(TCP), dport := Some(f.endpointPort))
  }

  function WanUdpDrop(f: Params): Rule {
    ANY.(inDev := Some(f.wan), proto := Some(UDP), dport := Some(f.wireGuardPort), target := Drop)
  }

  function UdpAccept(f: Params): Rule {
    ANY.(proto := Some(UDP), dport := Some(f.endpointPort))
  }

  const IPIP_ACCEPT := ANY.(proto := Some(IPIP_PROTO))

  function FromTunnel(f: Params): Rule {
    ANY.(inDev := Some(f.iface))
  }

  function RepliesToTunnel(f: Params): Rule {
    ANY.(outDev := Some(f.iface), tracked := true)
  }

  function MasqueradeRule(f: Params): Rule {
    ANY.(src := Some(f.cidr), outDev := Some(f.wan), target := Masquerade)
  }

  /** Hamara's rules of one hook. */
  function OwnRules(f: Params, h: Hook): set<Rule> {
    match h
    case Input =>
      (match f.mode
       case Ara => {TlsAccept(f), WanUdpDrop(f)}
       case WireGuard => {UdpAccept(f)}
       case Ipip => {IPIP_ACCEPT}
       case _ => {})
    case Forward => {FromTunnel(f), RepliesToTunnel(f)}
    case Postrouting => {MasqueradeRule(f)}
  }

  // ---- what up and down are meant to do ----

  function InputUp(f: Params, c: Chain): Chain {
    match f.mode
    case Ara => Ensure(Ensure(c, TlsAccept(f)), WanUdpDrop(f))
    case WireGuard => Ensure(c, UdpAccept(f))
    case Ipip => Ensure(c, IPIP_ACCEPT)
    case _ => c
  }

  function UpOf(f: Params, c: Chains): Chains {
    Chains(InputUp(f, c.input), Ensure(Ensure(c.forward, FromTunnel(f)), RepliesToTunnel(f)),
           EnsureLast(c.postrouting, MasqueradeRule(f)))
  }

  /** The rules that are not in `own`, in their order. */
  function Keep(c: Chain, own: set<Rule>): Chain {
    if c == [] then [] else (if c[0] in own then [] else [c[0]]) + Keep(c[1..], own)
  }

  /** The chains without any of Hamara's rules. */
  function DownOf(f: Params, c: Chains): Chains {
    Chains(Keep(c.input, OwnRules(f, Input)), Keep(c.forward, OwnRules(f, Forward)),
           Keep(c.postrouting, OwnRules(f, Postrouting)))
  }

  ghost predicate Fresh(f: Params, c: Chains) {
    forall h, r :: r in At(c, h) ==> r !in OwnRules(f, h)
  }

  lemma {:induction false} KeepAppend(a: Chain, b: Chain, own: set<Rule>)
    ensures Keep(a + b, own) == Keep(a, own) + Keep(b, own)
  {
    if a == [] {
      assert a + b == b;
    } else {
      assert (a + b)[1..] == a[1..] + b;
      KeepAppend(a[1..], b, own);
    }
  }

  lemma KeepAdded(c: Chain, own: set<Rule>, r: Rule)
    requires r in own
    ensures Keep([r] + c, own) == Keep(c, own) == Keep(c + [r], own)
  {
    KeepAppend([r], c, own);
    KeepAppend(c, [r], own);
  }

  lemma {:induction false} KeepRemoved(c: Chain, own: set<Rule>, r: Rule)
    requires r in own && r in c
    ensures Keep(RemoveFirst(c, r), own) == Keep(c, own)
  {
    if c[0] != r {
      assert c == [c[0]] + c[1..];
      KeepRemoved(c[1..], own, r);
      assert RemoveFirst(c, r)[1..] == RemoveFirst(c[1..], r);
    }
  }

  lemma {:induction false} KeepFresh(c: Chain, own: set<Rule>)
    ensures Keep(c, own) == c <==> forall r :: r in c ==> r !in own
    ensures |Keep(c, own)| <= |c|
  {
    if c != [] {
      assert c == [c[0]] + c[1..];
      KeepFresh(c[1..], own);
    }
  }

  lemma {:induction false} KeepNone(c: Chain)
    ensures Keep(c, {}) == c
  {
    KeepFresh(c, {});
  }

  lemma {:induction false} PurgeKeep(c: Chain, own: set<Rule>, r: Rule)
    ensures Keep(Purge(c, r), own) == Keep(c, own + {r})
  {
    if c != [] {
      PurgeKeep(c[1..], own, r);
      KeepAppend(if c[0] == r then [] else [c[0]], Purge(c[1..], r), own);
    }
  }

  lemma PurgeIsKeep(c: Chain, r: Rule)
    ensures Purge(c, r) == Keep(c, {r})
  {
    PurgeKeep(c, {}, r);
    KeepNone(Purge(c, r));
    assert {} + {r} == {r};
  }

  lemma PurgeTwice(c: Chain, r: Rule, q: Rule)
    ensures Purge(Purge(c, r), q) == Keep(c, {r, q})
  {
    PurgeIsKeep(Purge(c, r), q);
    PurgeKeep(c, {q}, r);
    assert {q} + {r} == {r, q};
  }

  /** One of Hamara's rules added to its chain or taken out of it leaves the others as they were. */
  lemma DownUnchanged(f: Params, c: Chains, h: Hook, r: Rule, chain: Chain)
    requires r in OwnRules(f, h)
    requires chain == [r] + At(c, h) || chain == At(c, h) + [r] || (r in At(c, h) && chain == RemoveFirst(At(c, h), r))
    ensures DownOf(f, Put(c, h, chain)) == DownOf(f, c)
  {
    KeepAdded(At(c, h), OwnRules(f, h), r);
    if r in At(c, h) {
      KeepRemoved(At(c, h), OwnRules(f, h), r);
    }
  }

  // ---- the script ----

  class Gateway {
    const f: Params
    const reliable: bool          // no iptables call fails that finds what it needs
    var chains: Chains

    constructor (f: Params, reliable: bool, chains: Chains)
      ensures this.f == f && this.reliable == reliable && this.chains == chains
    {
      this.f, this.reliable, this.chains := f, reliable, chains;
    }

    /** `iptables -C`: true only when the rule is there. */
    method Check(h: Hook, r: Rule) returns (ok: bool)
      ensures ok ==> r in At(chains, h)
      ensures reliable && r in At(chains, h) ==> ok
    {
      var glitch: bool := *;
      ok := r in At(chains, h) && (reliable || !glitch);
    }

    /** `-C r || -I r`, or `-A` for `atHead` false. */
    method IptCheck(h: Hook, atHead: bool, r: Rule) returns (ok: bool)
      requires r in OwnRules(f, h)
      modifies this
      ensures DownOf(f, chains) == DownOf(f, old(chains))
      ensures forall g, q :: q in At(old(chains), g) ==> q in At(chains, g)
      ensures ok ==> r in At(chains, h)
      ensures ok && r !in At(old(chains), h) ==>
                chains == Put(old(chains), h, if atHead then [r] + At(old(chains), h) else At(old(chains), h) + [r])
      ensures reliable ==> ok && chains == Put(old(chains), h, if atHead then Ensure(At(old(chains), h), r)
                                                                else EnsureLast(At(old(chains), h), r))
    {
      ok := Check(h, r);
      if !ok {
        var glitch: bool := *;
        ok := reliable || !glitch;
        if ok {
          var chain := if atHead then [r] + At(chains, h) else At(chains, h) + [r];
          DownUnchanged(f, chains, h, r, chain);
          chains := Put(chains, h, chain);
        }
      }
    }

    /** `while -C r; do -D r; done`: at most one round for each copy. */
    method IptDel(h: Hook, r: Rule) returns (ok: bool)
      requires r in OwnRules(f, h)
      modifies this
      ensures DownOf(f, chains) == DownOf(f, old(chains))
      ensures reliable ==> ok && chains == Put(old(chains), h, Purge(At(old(chains), h), r))
    {
      var more := Check(h, r);
      while more
        invariant more ==> r in At(chains, h)
        invariant reliable && !more ==> r !in At(chains, h)
        invariant DownOf(f, chains) == DownOf(f, old(chains))
        invariant Purge(At(chains, h), r) == Purge(At(old(chains), h), r)
        invariant chains == Put(old(chains), h, At(chains, h))
        decreases |At(chains, h)|, more
      {
        var glitch: bool := *;
        if glitch && !reliable {
          return false;
        }
        RemoveFirstPurge(At(chains, h), r);
        DownUnchanged(f, chains, h, r, RemoveFirst(At(chains, h), r));
        chains := Put(chains, h, RemoveFirst(At(chains, h), r));
        more := Check(h, r);
      }
      PurgeFree(At(chains, h), r);
      ok := true;
    }

    method InputRulesUp() returns (ok: bool)
      modifies this
      ensures DownOf(f, chains) == DownOf(f, old(chains))
      ensures forall g, q :: q in At(old(chains), g) ==> q in At(chains, g)
      ensures ok ==> forall q :: q in OwnRules(f, Input) ==> q in chains.input
      ensures ok && (forall q :: q in OwnRules(f, Input) ==> q !in old(chains).input) ==>
                chains == old(chains).(input := InputUp(f, old(chains).input))
      ensures reliable ==> ok && chains == old(chains).(input := InputUp(f, old(chains).input))
    {
      ok := true;
      match f.mode {
        case Ara =>
          ok := IptCheck(Input, true, TlsAccept(f));
          if !ok { return; }
          ok := IptCheck(Input, true, WanUdpDrop(f));
        case WireGuard => ok := IptCheck(Input, true, UdpAccept(f));
        case Ipip => ok := IptCheck(Input, true, IPIP_ACCEPT);
        case _ =>
      }
    }

    /** `firewall up`. Wherever it stops, every rule that is not Hamara's is where it was. When it succeeds all of
        Hamara's are there, and exactly so on fresh chains, whatever failed on the way. */
    method Up() returns (ok: bool)
      modifies this
      ensures DownOf(f, chains) == DownOf(f, old(chains))
      ensures ok ==> forall h, q :: q in OwnRules(f, h) ==> q in At(chains, h)
      ensures ok && Fresh(f, old(chains)) ==> chains == UpOf(f, old(chains))
      ensures reliable ==> ok && chains == UpOf(f, old(chains))
    {
      assert At(chains, Input) == chains.input && At(chains, Forward) == chains.forward
          && At(chains, Postrouting) == chains.postrouting;
      ok := InputRulesUp();
      if !ok { return; }
      assert At(chains, Input) == chains.input;
      ok := IptCheck(Forward, true, FromTunnel(f));
      if !ok { return; }
      ok := IptCheck(Forward, true, RepliesToTunnel(f));
      if !ok { return; }
      ok := IptCheck(Postrouting, false, MasqueradeRule(f));
    }

    method InputRulesDown() returns (ok: bool)
      modifies this
      ensures DownOf(f, chains) == DownOf(f, old(chains))
      ensures reliable ==> ok && chains == old(chains).(input := Keep(old(chains).input, OwnRules(f, Input)))
    {
      ok := true;
      match f.mode {
        case Ara =>
          PurgeTwice(chains.input, WanUdpDrop(f), TlsAccept(f));
          assert OwnRules(f, Input) == {WanUdpDrop(f), TlsAccept(f)};
          ok := IptDel(Input, WanUdpDrop(f));
          if !ok { return; }
          ok := IptDel(Input, TlsAccept(f));
        case WireGuard =>
          PurgeIsKeep(chains.input, UdpAccept(f));
          ok := IptDel(Input, UdpAccept(f));
        case Ipip =>
          PurgeIsKeep(chains.input, IPIP_ACCEPT);
          ok := IptDel(Input, IPIP_ACCEPT);
        case _ => KeepNone(chains.input);
      }
    }

    /** `firewall down` */
    method Down() returns (ok: bool)
      modifies this
      ensures DownOf(f, chains) == DownOf(f, old(chains))
      ensures reliable ==> ok && chains == DownOf(f, old(chains))
    {
      ok := InputRulesDown();
      if !ok { return; }
      PurgeTwice(chains.forward, FromTunnel(f), RepliesToTunnel(f));
      PurgeIsKeep(chains.postrouting, MasqueradeRule(f));
      ok := IptDel(Forward, FromTunnel(f));
      if !ok { return; }
      ok := IptDel(Forward, RepliesToTunnel(f));
      if !ok { return; }
      ok := IptDel(Postrouting, MasqueradeRule(f));
    }
  }

  // ---- the editor's laws ----

  /** A second `up` changes nothing. */
  lemma UpIdempotent(f: Params, c: Chains)
    ensures UpOf(f, UpOf(f, c)) == UpOf(f, c)
  {
    var i := Ensure(c.input, TlsAccept(f));
    assert TlsAccept(f) in Ensure(i, WanUdpDrop(f));
    var o := Ensure(c.forward, FromTunnel(f));
    assert FromTunnel(f) in Ensure(o, RepliesToTunnel(f));
  }

  lemma KeepEnsure(c: Chain, own: set<Rule>, r: Rule)
    requires r in own
    ensures Keep(Ensure(c, r), own) == Keep(c, own) == Keep(EnsureLast(c, r), own)
  {
    KeepAdded(c, own, r);
  }

  lemma InputDownUndoesUp(f: Params, c: Chain)
    ensures Keep(InputUp(f, c), OwnRules(f, Input)) == Keep(c, OwnRules(f, Input))
  {
    var own := OwnRules(f, Input);
    match f.mode {
      case Ara =>
        KeepEnsure(c, own, TlsAccept(f));
        KeepEnsure(Ensure(c, TlsAccept(f)), own, WanUdpDrop(f));
      case WireGuard => KeepEnsure(c, own, UdpAccept(f));
      case Ipip => KeepEnsure(c, own, IPIP_ACCEPT);
      case _ =>
    }
  }

  lemma ForwardDownUndoesUp(f: Params, c: Chain)
    ensures Keep(Ensure(Ensure(c, FromTunnel(f)), RepliesToTunnel(f)), OwnRules(f, Forward))
         == Keep(c, OwnRules(f, Forward))
  {
    KeepEnsure(c, OwnRules(f, Forward), FromTunnel(f));
    KeepEnsure(Ensure(c, FromTunnel(f)), OwnRules(f, Forward), RepliesToTunnel(f));
  }

  lemma FreshIsUntouched(f: Params, c: Chains)
    ensures DownOf(f, c) == c <==> Fresh(f, c)
  {
    KeepFresh(c.input, OwnRules(f, Input));
    KeepFresh(c.forward, OwnRules(f, Forward));
    KeepFresh(c.postrouting, OwnRules(f, Postrouting));
    assert At(c, Input) == c.input && At(c, Forward) == c.forward && At(c, Postrouting) == c.postrouting;
  }

  /** `down` after `up` gives what `down` alone gives, and that is the original exactly when the original held none of
      Hamara's rules. */
  lemma DownUndoesUp(f: Params, c: Chains)
    ensures DownOf(f, UpOf(f, c)) == DownOf(f, c)
    ensures DownOf(f, UpOf(f, c)) == c <==> Fresh(f, c)
  {
    InputDownUndoesUp(f, c.input);
    ForwardDownUndoesUp(f, c.forward);
    KeepEnsure(c.postrouting, OwnRules(f, Postrouting), MasqueradeRule(f));
    FreshIsUntouched(f, c);
  }

  // ---- first-match refinement ----

  predicate WanWireGuard(f: Params, p: Packet) {
    p.inDev == f.wan && p.proto == 17 && p.dport == f.wireGuardPort
  }

  predicate TlsListener(f: Params, p: Packet) {
    p.proto == 6 && p.dport == f.endpointPort
  }

  /** INPUT in ARA mode, for any chain: a rule that was missing decides its packets, WAN UDP before TCP; every other
      packet gets the original verdict. */
  lemma AraInput(w: Strangers, f: Params, c: Chains, p: Packet)
    requires f.mode == Ara
    ensures First(w, UpOf(f, c).input, p)
         == if WanUdpDrop(f) !in c.input && WanWireGuard(f, p) then Some(Drop)
            else if TlsAccept(f) !in c.input && TlsListener(f, p) then Some(Accept)
            else First(w, c.input, p)
  {
    EnsureVerdict(w, c.input, TlsAccept(f), p);
    EnsureVerdict(w, Ensure(c.input, TlsAccept(f)), WanUdpDrop(f), p);
  }

  /** On fresh chains: direct WireGuard from the WAN is dropped, the listener is open, and all the rest, the loopback
      WireGuard datagrams of the local relay included, is as before. */
  lemma AraInputFresh(w: Strangers, f: Params, c: Chains, p: Packet)
    requires f.mode == Ara && Fresh(f, c)
    ensures WanWireGuard(f, p) ==> First(w, UpOf(f, c).input, p) == Some(Drop)
    ensures TlsListener(f, p) ==> First(w, UpOf(f, c).input, p) == Some(Accept)
    ensures !WanWireGuard(f, p) && !TlsListener(f, p) ==> First(w, UpOf(f, c).input, p) == First(w, c.input, p)
  {
    AraInput(w, f, c, p);
    assert At(c, Input) == c.input;
  }

  /** INPUT in the two direct modes: the tunnel's own packets are let in, the rest is as before. */
  lemma DirectInputFresh(w: Strangers, f: Params, c: Chains, p: Packet)
    requires (f.mode == WireGuard || f.mode == Ipip) && Fresh(f, c)
    ensures First(w, UpOf(f, c).input, p)
         == if (if f.mode == WireGuard then p.proto == 17 && p.dport == f.endpointPort else p.proto == 4)
            then Some(Accept) else First(w, c.input, p)
  {
    assert At(c, Input) == c.input;
    EnsureVerdict(w, c.input, if f.mode == WireGuard then UdpAccept(f) else IPIP_ACCEPT, p);
  }

  /** A drop rule that was already present behind somebody's ACCEPT is not moved: the public listener stays open. */
  lemma RepairCanMissDrop(f: Params, p: Packet)
    requires f.mode == Ara && WanWireGuard(f, p)
    ensures var open: Strangers := (id, q) => Some(Accept);
            var c := Chains([Stranger(0), WanUdpDrop(f), TlsAccept(f)], [], []);
            UpOf(f, c).input == c.input && First(open, UpOf(f, c).input, p) == Some(Accept)
  {
  }

  predicate Forwarded(f: Params, p: Packet) {
    p.inDev == f.iface || (p.outDev == f.iface && p.tracked)
  }

  /** FORWARD on fresh chains: everything from the tunnel and the replies to it pass, the rest is as before. */
  lemma ForwardFresh(w: Strangers, f: Params, c: Chains, p: Packet)
    requires Fresh(f, c)
    ensures First(w, UpOf(f, c).forward, p) == if Forwarded(f, p) then Some(Accept) else First(w, c.forward, p)
  {
    assert At(c, Forward) == c.forward;
    EnsureVerdict(w, c.forward, FromTunnel(f), p);
    EnsureVerdict(w, Ensure(c.forward, FromTunnel(f)), RepliesToTunnel(f), p);
  }

  /** POSTROUTING on fresh chains: the tunnel network leaving by the WAN is masqueraded unless an earlier rule has
      claimed the packet. */
  lemma PostroutingFresh(w: Strangers, f: Params, c: Chains, p: Packet)
    requires Fresh(f, c)
    ensures First(w, UpOf(f, c).postrouting, p)
         == if First(w, c.postrouting, p).Some? then First(w, c.postrouting, p)
            else if Contains(f.cidr, p.src) && p.outDev == f.wan then Some(Masquerade) else None
  {
    assert At(c, Postrouting) == c.postrouting;
    EnsureVerdict(w, c.postrouting, MasqueradeRule(f), p);
  }
}
