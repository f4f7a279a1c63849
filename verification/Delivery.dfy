/** From the Xray socket on the edge to the WAN of the gateway, across the files both ends render. */
module Delivery {
  import opened Text
  import opened Address
  import opened Netfilter
  import opened Routing
  import opened Model
  import opened Render
  import Guard
  import Edge
  import LinkControl
  import Firewall
  import Runs = Pairing

  /** The guard script's TABLE, SOURCE and IFACE, from the edge's configuration. */
  function GuardParams(k: Checks, cfg: Config): Guard.Params
    requires HostIP(k, cfg.edgeAddress).Four? && cfg.routeTable >= 1
  {
    Guard.Params(cfg.routeTable, HostIP(k, cfg.edgeAddress).a, cfg.iface)
  }

  /** The firewall script's WAN, IFACE, CIDR and ports, from the gateway's configuration. */
  function FirewallParams(k: Checks, cfg: Config): Firewall.Params
    requires k.cidr(cfg.tunnelCIDR).FourNet? && cfg.endpointPort >= 1 && cfg.wireGuardPort >= 0
  {
    Firewall.Params(cfg.mode, cfg.wan, cfg.iface, k.cidr(cfg.tunnelCIDR).net, cfg.endpointPort, cfg.wireGuardPort)
  }

  /** A completed routed pairing whose edge address is written in dotted form, as all of Hamara's own are. */
  ghost predicate Routable(k: Checks, p: Pairing) {
    && p.Completed(k) && IsRouted(p.issued.mode) && KeysAreText(k)
    && FirstSpecial(Before(p.issued.edgeAddress, '/')) == '.'
    && p.issued.iface == INTERFACE && p.issued.wireGuardPort >= 0
  }

  lemma SharedFields(p: Pairing)
    ensures p.Iran().edgeAddress == p.Offered().edgeAddress == p.issued.edgeAddress
    ensures p.Iran().routeTable == p.Offered().routeTable && p.Offered().mode == p.issued.mode
    ensures p.Gateway().tunnelCIDR == p.Offered().tunnelCIDR && p.Gateway().endpointPort == p.Offered().endpointPort
    ensures p.Gateway().wireGuardPort == p.issued.wireGuardPort && p.Gateway().mode == p.issued.mode
  {
  }

  /** The texts of both configurations read as the numbers that the scripts' variables hold. */
  predicate Numbered(k: Checks, p: Pairing) {
    && HostIP(k, p.Iran().edgeAddress).Four? && p.Iran().routeTable >= 1
    && k.cidr(p.Gateway().tunnelCIDR).FourNet? && p.Gateway().endpointPort >= 1 && p.Gateway().wireGuardPort >= 0
  }

  /** They do for every routable pairing. */
  lemma RoutableParams(k: Checks, p: Pairing)
    requires Routable(k, p)
    ensures Numbered(k, p) && p.Gateway().mode == p.issued.mode
    ensures Contains(k.cidr(p.Gateway().tunnelCIDR).net, HostIP(k, p.Iran().edgeAddress).a)
  {
    SharedFields(p);
    AcceptedNumbers(k, p.Offered());
    AcceptedAddresses(k, p.Offered());
  }

  /** The source address that the Xray outbound binds, which is all of it that the wire carries. */
  predicate XraySource(k: Checks, cfg: Config, pkt: Packet) {
    k.ip(XrayOutbound(cfg).sendThrough) == Four(pkt.src)
  }

  /** A packet of the generated Xray outbound on the edge: its source address and its socket's mark. */
  predicate FromXray(k: Checks, cfg: Config, pkt: Packet) {
    XraySource(k, cfg, pkt) && pkt.mark == XrayOutbound(cfg).mark
  }

  /** On the edge: with the guard sealed, its rules in place and the link up, a packet of the Xray outbound is routed
      into the tunnel, both guard rejects let it pass, and whether it leaves is up to the other rules alone. */
  lemma EdgeDelivers(k: Checks, p: Pairing, w: Guard.World, s: Guard.Net, pkt: Packet)
    requires Routable(k, p)
    requires Numbered(k, p)
    requires var g := GuardParams(k, p.Iran());
             && Guard.Sealed(w, g, s) && Guard.MarkPolicy(g) in s.rules && Guard.LinkRoute(g) in s.table
             && QuietUpTo(w.elsewhere, g.table, s.rules, 110, pkt)
    requires FromXray(k, p.Iran(), pkt)
    ensures var g := GuardParams(k, p.Iran());
            var others := First(w.strangers4, Edge.Foreign4(g, s.out4), pkt.(outDev := INTERFACE));
            && Guard.Guarded(g, pkt) && pkt.src == g.source
            && Walk(w.elsewhere, g.table, s.table, s.rules, pkt) == Some(Dev(INTERFACE))
            && Guard.Leaves4(w, g, s, pkt)
               == if (if others.Some? then others.value else w.policy4) == Accept then Some(INTERFACE) else None
  {
    var g := GuardParams(k, p.Iran());
    Guard.RoutingLayer(w, g, s, pkt);
    var out := pkt.(outDev := INTERFACE);
    PurgeMissed(w.strangers4, s.out4, Guard.MarkRule(g), out);
    PurgeMissed(w.strangers4, Purge(s.out4, Guard.MarkRule(g)), Guard.SourceRule(g), out);
  }

  /** In the WireGuard modes the gateway's peer entry admits exactly the edge's source address. */
  lemma PeerAdmits(k: Checks, six: SixReader, p: Pairing, a: nat)
    requires ReadsText(k, six) && Routable(k, p) && UsesWireGuard(p.issued.mode)
    ensures p.GatewayFile(k).Some? && p.GatewayFile(k).value.peer.Some?
    ensures var net := k.cidr(p.GatewayFile(k).value.peer.value.allowedIPs);
            net.FourNet? && (Contains(net.net, a) <==> HostIP(k, p.Iran().edgeAddress) == Four(a))
  {
    KeysCrossed(k, p);
    RoutableParams(k, p);
    var host := Before(p.issued.edgeAddress, '/');
    var edge := HostIP(k, p.Iran().edgeAddress).a;
    TwoDigits("32");
    ParseCidrText(six, host, "32", edge);
    HostNet(edge, a);
  }

  lemma AnyNet(six: SixReader)
    ensures ParseCIDR(six, "0.0.0.0/0") == FourNet(Cidr(0, 0))
  {
    var zero := "0";
    OneDigit(zero);
    assert Decimal(zero) == 0;
    ParseDotted(six, zero, zero, zero, zero);
    var host := zero + "." + zero + "." + zero + "." + zero;
    ParseCidrText(six, host, zero, 0);
    assert "0.0.0.0/0" == host + "/" + zero;
  }

  /** The edge's own peer entry, which routes by destination, takes every IPv4 packet. */
  lemma EdgeTakesAll(k: Checks, six: SixReader, p: Pairing, a: nat)
    requires ReadsText(k, six) && p.Completed(k) && UsesWireGuard(p.issued.mode) && KeysAreText(k)
    requires a < 0x1_0000_0000
    ensures p.IranFile(k).Some? && p.IranFile(k).value.peer.Some?
    ensures var net := k.cidr(p.IranFile(k).value.peer.value.allowedIPs); net.FourNet? && Contains(net.net, a)
  {
    IranFileFields(k, p);
    AnyNet(six);
    DefaultNet(a);
  }

  /** What the edge's files set up for the packets of the outbound: the socket's device is the tunnel, the tunnel has
      the packets' source address, and its route goes into the guard's table. */
  ghost predicate EdgeLink(k: Checks, p: Pairing)
    requires Numbered(k, p)
  {
    var g := GuardParams(k, p.Iran());
    && XrayOutbound(p.Iran()).iface == g.iface == INTERFACE
    && if p.issued.mode == Ipip then
         var script := IpipScript(p.Iran());
         script.iface == g.iface && script.table == Some(g.table) && HostIP(k, script.localAddr) == Four(g.source)
       else
         p.IranFile(k).Some? && p.IranFile(k).value.hooks == Some(g.table)
         && HostIP(k, p.IranFile(k).value.address) == Four(g.source)
  }

  lemma EdgeLinkSet(k: Checks, p: Pairing)
    requires Routable(k, p) && Numbered(k, p)
    ensures EdgeLink(k, p)
  {
    SharedFields(p);
    if p.issued.mode == Ipip {
      IpipMirrored(k, p);
    } else {
      IranFileFields(k, p);
    }
  }

  /** On the gateway: out of the tunnel a packet with the outbound's source, whatever its mark there, passes FORWARD,
      and on its way to the WAN it is masqueraded unless somebody's earlier rule claims it; the replies are let back
      into the tunnel. */
  lemma GatewayDelivers(k: Checks, p: Pairing, w: Strangers, c: Firewall.Chains, pkt: Packet)
    requires Routable(k, p)
    requires Numbered(k, p)
    requires Firewall.Fresh(FirewallParams(k, p.Gateway()), c)
    requires XraySource(k, p.Iran(), pkt) && pkt.inDev == INTERFACE && pkt.outDev == p.Gateway().wan
    ensures var up := Firewall.UpOf(FirewallParams(k, p.Gateway()), c);
            && First(w, up.forward, pkt) == Some(Accept)
            && First(w, up.postrouting, pkt)
               == (if First(w, c.postrouting, pkt).Some? then First(w, c.postrouting, pkt) else Some(Masquerade))
            && forall reply: Packet ::
                 reply.outDev == INTERFACE && reply.tracked ==> First(w, up.forward, reply) == Some(Accept)
  {
    RoutableParams(k, p);
    var f := FirewallParams(k, p.Gateway());
    Firewall.ForwardFresh(w, f, c, pkt);
    Firewall.PostroutingFresh(w, f, c, pkt);
    forall reply: Packet | reply.outDev == INTERFACE && reply.tracked
      ensures First(w, Firewall.UpOf(f, c).forward, reply) == Some(Accept)
    {
      Firewall.ForwardFresh(w, f, c, reply);
    }
  }

  /** A packet that carries the tunnel from the edge to the gateway: what the edge's rendered files make it send. */
  predicate Carrier(k: Checks, p: Pairing, pkt: Packet) {
    match p.issued.mode
    case Ara => pkt.proto == 6 && pkt.dport == AraClientUnit(k, p.Iran()).server.port
    case WireGuard =>
      var file := p.IranFile(k);
      && pkt.proto == 17 && file.Some? && file.value.peer.Some?
      && (var dialled := file.value.peer.value.endpoint; dialled.Some? && pkt.dport == dialled.value.port)
    case Ipip => pkt.proto == 4
    case _ => false
  }

  /** The gateway's INPUT chain lets the tunnel's own packets in. */
  lemma CarrierAdmitted(k: Checks, p: Pairing, w: Strangers, c: Firewall.Chains, pkt: Packet)
    requires Routable(k, p) && Carrier(k, p, pkt)
    requires Numbered(k, p)
    requires Firewall.Fresh(FirewallParams(k, p.Gateway()), c)
    ensures First(w, Firewall.UpOf(FirewallParams(k, p.Gateway()), c).input, pkt) == Some(Accept)
  {
    SharedFields(p);
    RoutableParams(k, p);
    var f := FirewallParams(k, p.Gateway());
    if p.issued.mode == Ara {
      AraChain(k, p);
      Firewall.AraInputFresh(w, f, c, pkt);
    } else {
      if p.issued.mode == WireGuard {
        DialledPort(k, p);
      }
      Firewall.DirectInputFresh(w, f, c, pkt);
    }
  }

  lemma DialledPort(k: Checks, p: Pairing)
    requires Routable(k, p) && p.issued.mode == WireGuard
    ensures var file := p.IranFile(k);
            file.Some? && file.value.peer.Some?
            && file.value.peer.value.endpoint
               == Some(Endpoint(FormatHost(k, p.issued.endpointHost), p.issued.endpointPort))
  {
    ValidIsClear(k, p.Offered());
  }

  // ---- end to end ----

  /** `sent` is a packet of the Xray outbound on the edge, and `got` is what comes out of the tunnel at the gateway on
      its way to the WAN: the same addresses, its own mark. */
  ghost predicate Journey(k: Checks, p: Pairing, w: Guard.World, s: Guard.Net, sent: Packet, got: Packet)
    requires Numbered(k, p)
  {
    && FromXray(k, p.Iran(), sent)
    && QuietUpTo(w.elsewhere, GuardParams(k, p.Iran()).table, s.rules, 110, sent)
    && sent.dst < 0x1_0000_0000
    && got.src == sent.src && got.dst == sent.dst && got.inDev == INTERFACE && got.outDev == p.Gateway().wan
  }

  /** The edge sends the packet into the tunnel and nowhere else, unless another program's OUTPUT rule stops it, and its
      own peer entry takes the packet; the
      gateway's peer entry admits it, FORWARD lets it pass, and it leaves masqueraded unless another program's earlier
      rule claims it. `before` are the gateway's chains as the others made them, `after` the ones with Hamara's
      rules. */
  ghost predicate Delivered(k: Checks, p: Pairing, w: Guard.World, s: Guard.Net, far: Strangers,
                            before: Firewall.Chains, after: Firewall.Chains, sent: Packet, got: Packet)
    requires Numbered(k, p)
  {
    var g := GuardParams(k, p.Iran());
    var others := First(w.strangers4, Edge.Foreign4(g, s.out4), sent.(outDev := INTERFACE));
    && Guard.Leaves4(w, g, s, sent)
       == (if (if others.Some? then others.value else w.policy4) == Accept then Some(INTERFACE) else None)
    && EdgeLink(k, p)
    && (UsesWireGuard(p.issued.mode) ==>
          p.IranFile(k).Some? && p.IranFile(k).value.peer.Some?
          && var net := k.cidr(p.IranFile(k).value.peer.value.allowedIPs);
             net.FourNet? && Contains(net.net, sent.dst))
    && (UsesWireGuard(p.issued.mode) ==>
          p.GatewayFile(k).Some? && p.GatewayFile(k).value.peer.Some?
          && var net := k.cidr(p.GatewayFile(k).value.peer.value.allowedIPs);
             net.FourNet? && Contains(net.net, got.src))
    && First(far, after.forward, got) == Some(Accept)
    && First(far, after.postrouting, got)
       == (if First(far, before.postrouting, got).Some? then First(far, before.postrouting, got) else Some(Masquerade))
  }

  lemma EndToEnd(k: Checks, six: SixReader, p: Pairing, w: Guard.World, s: Guard.Net, far: Strangers,
                 c: Firewall.Chains, sent: Packet, got: Packet)
    requires ReadsText(k, six) && Routable(k, p)
    requires Numbered(k, p)
    requires Edge.Carrying(w, GuardParams(k, p.Iran()), s) && Firewall.Fresh(FirewallParams(k, p.Gateway()), c)
    requires Journey(k, p, w, s, sent, got)
    ensures Delivered(k, p, w, s, far, c, Firewall.UpOf(FirewallParams(k, p.Gateway()), c), sent, got)
  {
    EdgeLinkSet(k, p);
    EdgeDelivers(k, p, w, s, sent);
    GatewayDelivers(k, p, far, c, got);
    if UsesWireGuard(p.issued.mode) {
      PeerAdmits(k, six, p, got.src);
      EdgeTakesAll(k, six, p, sent.dst);
    }
  }

  /** Both ends brought up, the edge by activateIran on a host where nothing of Hamara runs and the gateway by its
      firewall script on fresh chains: if both succeed, every packet of the Xray outbound is delivered, and the
      gateway's INPUT chain lets the tunnel's own packets in. */
  method BringUp(k: Checks, six: SixReader, p: Pairing, edge: Edge.Machine, gateway: Firewall.Gateway)
    returns (ok: bool)
    requires ReadsText(k, six) && Routable(k, p)
    requires Numbered(k, p)
    requires edge.Inv() && edge.active == {} && edge.g == GuardParams(k, p.Iran()) && edge.mode == p.issued.mode
    requires gateway.f == FirewallParams(k, p.Gateway()) && Firewall.Fresh(gateway.f, gateway.chains)
    modifies edge, gateway
    ensures edge.Inv() && old(edge.history) <= edge.history
    ensures ok ==>
      forall far, sent, got ::
        Journey(k, p, edge.w, edge.net, sent, got) ==>
          Delivered(k, p, edge.w, edge.net, far, old(gateway.chains), gateway.chains, sent, got)
    ensures ok ==> forall far, pkt :: Carrier(k, p, pkt) ==> First(far, gateway.chains.input, pkt) == Some(Accept)
  {
    ghost var before := gateway.chains;
    ok := LinkControl.ActivateIran(edge);
    if !ok { return; }
    ok := gateway.Up();
    if !ok { return; }
    forall far, sent, got | Journey(k, p, edge.w, edge.net, sent, got)
      ensures Delivered(k, p, edge.w, edge.net, far, before, gateway.chains, sent, got)
    {
      EndToEnd(k, six, p, edge.w, edge.net, far, before, sent, got);
    }
    forall far, pkt | Carrier(k, p, pkt) ensures First(far, gateway.chains.input, pkt) == Some(Accept) {
      CarrierAdmitted(k, p, far, before, pkt);
    }
  }

  /** Every offer that Hamara itself issues in a routed mode is of the dotted form. */
  lemma OwnOffersDotted(opts: InitOptions, id: string, path: string, wan: string, s: Secrets)
    requires IsRouted(opts.mode)
    ensures var cfg := InitConfig(opts, id, path, wan, s);
            FirstSpecial(Before(cfg.edgeAddress, '/')) == '.' && cfg.iface == INTERFACE
  {
    var six: SixReader := t => NotIP;
    TunnelOctets(opts.mode);
    OneDigit("2");
    ParseDotted(six, "10", TunnelOctet(opts.mode), "0", "2");
    BeforeCut(TunnelHost(opts.mode, "2"), '/', "30");
    assert TunnelText(opts.mode, "2") == TunnelHost(opts.mode, "2") + ['/'] + "30";
  }

  // ---- every run ----

  lemma OwnPorts(opts: InitOptions, id: string, path: string, wan: string, s: Secrets)
    requires IsMode(opts.mode)
    ensures var cfg := InitConfig(opts, id, path, wan, s);
            cfg.mode == opts.mode && cfg.wan == wan && (cfg.mode == Ara || cfg.mode == Ipip ==> cfg.wireGuardPort >= 0)
  {
  }

  /** In every run, the pairing of a ready routed gateway is routable: its offer was one of Hamara's own. */
  lemma RunRoutable(k: Checks, states: seq<Runs.System>, events: seq<Runs.Event>, at: nat, n: Runs.Node,
                    i: Runs.Issue, j: Runs.Joined, wan: string, gatewayPrivate: string, edgePrivate: string)
    requires Runs.IsRun(k, states, events) && at < |states| && KeysAreText(k)
    requires Runs.PairedBy(k, states[at], n, i, j) && IsRouted(i.config.mode)
    ensures var p := Runs.PairOf(i, j, wan, gatewayPrivate, edgePrivate); Routable(k, p) && Numbered(k, p)
    ensures exists o, x :: Runs.BornOf(i, o, x) && i.config.wan == x.wan
  {
    var p := Runs.PairOf(i, j, wan, gatewayPrivate, edgePrivate);
    Runs.InvAlways(k, states, events, at);
    Runs.BornAlways(k, states, events, at);
    Runs.PairCompletes(k, states[at], i, j, wan, gatewayPrivate, edgePrivate);
    assert Runs.Born(i);
    var o, x :| Runs.BornOf(i, o, x);
    OwnPorts(o, x.id, x.araPath, x.wan, x.secrets);
    OwnOffersDotted(o, x.id, x.araPath, x.wan, x.secrets);
    ValidIsClear(k, p.Offered());
    RoutableParams(k, p);
  }

  /** In every run with any lost, copied, replayed and misdelivered tokens, a ready routed gateway was paired with an
      edge, and with the guard sealed and the link up there and the firewall up on fresh chains here, a packet of that
      edge's Xray outbound is delivered. */
  lemma RunDelivers(k: Checks, six: SixReader, states: seq<Runs.System>, events: seq<Runs.Event>, at: nat,
                    n: Runs.Node)
    requires Runs.IsRun(k, states, events) && at < |states| && KeysAreText(k) && ReadsText(k, six)
    requires Runs.IsGateway(Runs.Of(states[at], n)) && Runs.Of(states[at], n).config.value.state == Ready
    requires IsRouted(Runs.Of(states[at], n).config.value.mode)
    ensures exists i, j :: Runs.PairedBy(k, states[at], n, i, j)
    ensures forall i, j, wan, gatewayPrivate, edgePrivate :: Runs.PairedBy(k, states[at], n, i, j) ==>
              Arrives(k, Runs.PairOf(i, j, wan, gatewayPrivate, edgePrivate))
  {
    Runs.ReadyIsPaired(k, states, events, at, n);
    forall i, j, wan, gatewayPrivate, edgePrivate | Runs.PairedBy(k, states[at], n, i, j)
      ensures Arrives(k, Runs.PairOf(i, j, wan, gatewayPrivate, edgePrivate))
    {
      PairedMode(k, states[at], n, i, j);
      RunRoutable(k, states, events, at, n, i, j, wan, gatewayPrivate, edgePrivate);
      RoutableArrives(k, six, Runs.PairOf(i, j, wan, gatewayPrivate, edgePrivate));
    }
  }

  lemma PairedMode(k: Checks, s: Runs.System, n: Runs.Node, i: Runs.Issue, j: Runs.Joined)
    requires Runs.PairedBy(k, s, n, i, j)
    ensures Runs.Of(s, n).config.value.mode == i.config.mode
  {
  }

  /** Every journey of the pairing's packets ends as EndToEnd says. */
  ghost predicate Arrives(k: Checks, p: Pairing) {
    && Routable(k, p) && Numbered(k, p)
    && forall w, s, far, c, sent, got ::
         Edge.Carrying(w, GuardParams(k, p.Iran()), s) && Firewall.Fresh(FirewallParams(k, p.Gateway()), c)
         && Journey(k, p, w, s, sent, got)
         ==> Delivered(k, p, w, s, far, c, Firewall.UpOf(FirewallParams(k, p.Gateway()), c), sent, got)
  }

  lemma RoutableArrives(k: Checks, six: SixReader, p: Pairing)
    requires ReadsText(k, six) && Routable(k, p) && Numbered(k, p)
    ensures Arrives(k, p)
  {
    forall w, s, far, c, sent, got |
        Edge.Carrying(w, GuardParams(k, p.Iran()), s) && Firewall.Fresh(FirewallParams(k, p.Gateway()), c)
        && Journey(k, p, w, s, sent, got)
      ensures Delivered(k, p, w, s, far, c, Firewall.UpOf(FirewallParams(k, p.Gateway()), c), sent, got)
    {
      EndToEnd(k, six, p, w, s, far, c, sent, got);
    }
  }
}
