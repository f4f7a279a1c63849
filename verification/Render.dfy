/** What the renderers write into configuration files, field by field, and how the two ends' files fit together
    (internal/render/render.go). */
module Render {
  import opened Text
  import opened Address
  import opened Model
  import AuthorizedKeys

  datatype Endpoint = Endpoint(host: string, port: int)

  datatype Peer = Peer(publicKey: string, presharedKey: Option<string>, allowedIPs: string, endpoint: Option<Endpoint>,
                       keepalive: int)

  /** wg-quick's file. `hooks` is the table of PostUp and PostDown, together with `Table = off`. */
  datatype WgFile = WgFile(address: string, privateKey: string, mtu: int, listenPort: Option<int>, hooks: Option<int>,
                           peer: Option<Peer>)

  /** An IPv6 address text, mapped ones included, is put in brackets. */
  function FormatHost(k: Checks, host: string): string {
    if k.ip(host) != NotIP && ':' in host then "[" + host + "]" else host
  }

  function WireGuardFile(k: Checks, cfg: Config, privateKey: string, psk: string, peerKey: string): Option<WgFile> {
    if cfg.role.OtherRole? then None
    else
      var iran := cfg.role == Iran;
      var file := WgFile(if iran then cfg.edgeAddress else cfg.gatewayAddress, TrimSpace(privateKey), cfg.mtu,
                         if iran then None else Some(cfg.wireGuardPort), if iran then Some(cfg.routeTable) else None,
                         None);
      if TrimSpace(peerKey) == "" then Some(file)
      else
        var key := if TrimSpace(psk) == "" then None else Some(TrimSpace(psk));
        var peer :=
          if !iran then Peer(TrimSpace(peerKey), key, Before(cfg.edgeAddress, '/') + "/" + "32", None, 0)
          else Peer(TrimSpace(peerKey), key, "0.0.0.0/0",
                    Some(if cfg.mode == Ara then Endpoint("127.0.0.1", cfg.localRelayPort)
                         else Endpoint(FormatHost(k, cfg.endpointHost), cfg.endpointPort)), 25);
        Some(file.(peer := Some(peer)))
  }

  /** wstunnel server: the only target it relays to, the only upgrade path, and its listener. */
  datatype AraServer = AraServer(restrictTo: Endpoint, path: string, listen: int)

  function AraServerUnit(cfg: Config): AraServer {
    AraServer(Endpoint("127.0.0.1", cfg.wireGuardPort), cfg.araPath, cfg.endpointPort)
  }

  /** wstunnel client: the local UDP port, where its datagrams should come out, the path and the server's URL. */
  datatype AraClient = AraClient(local: Endpoint, target: Endpoint, path: string, server: Endpoint, verify: bool)

  function AraClientUnit(k: Checks, cfg: Config): AraClient {
    AraClient(Endpoint("127.0.0.1", cfg.localRelayPort), Endpoint("127.0.0.1", cfg.wireGuardPort), cfg.araPath,
              Endpoint(FormatHost(k, cfg.endpointHost), cfg.endpointPort), cfg.tlsVerify)
  }

  /** The variables of the IPIP script; `table` is where the Iran end puts its metric-10 route. */
  datatype IpipVars = IpipVars(iface: string, localEP: string, remoteEP: string, localAddr: string, peerAddr: string,
                               mtu: int, table: Option<int>)

  function IpipScript(cfg: Config): IpipVars {
    if cfg.role == Iran then
      IpipVars(cfg.iface, cfg.peerEndpoint, cfg.endpointHost, cfg.edgeAddress, Before(cfg.gatewayAddress, '/'), cfg.mtu,
               Some(cfg.routeTable))
    else
      IpipVars(cfg.iface, cfg.endpointHost, cfg.peerEndpoint, cfg.gatewayAddress, Before(cfg.edgeAddress, '/'), cfg.mtu,
               None)
  }

  /** The routed Xray outbound's socket: source address, mark and device. */
  datatype XraySocket = XraySocket(sendThrough: string, mark: nat, iface: string)

  function XrayOutbound(cfg: Config): XraySocket {
    XraySocket(Before(cfg.edgeAddress, '/'), 72, cfg.iface)
  }

  /** The ssh client: its own SOCKS listener, and the account, host and port that it logs in to. */
  datatype SshClient = SshClient(listen: Endpoint, user: string, server: Endpoint)

  function SshClientUnit(cfg: Config): SshClient {
    SshClient(Endpoint("127.0.0.1", cfg.socksPort), cfg.sshUser, Endpoint(cfg.endpointHost, cfg.sshPort))
  }

  /** The one entry of Hamara's known_hosts; the label names the port unless it is 22. */
  datatype KnownHost = KnownHost(server: Endpoint, key: string)

  function KnownHosts(cfg: Config): KnownHost {
    KnownHost(Endpoint(cfg.endpointHost, cfg.sshPort), TrimSpace(cfg.sshHostKey))
  }

  /** The SOCKS server of the Xray outbound in SSH mode. */
  function XraySocks(cfg: Config): Endpoint {
    Endpoint("127.0.0.1", cfg.socksPort)
  }

  // ---- a completed pairing ----

  /** WireGuard keys are 32 bytes in base64, never blank text. */
  ghost predicate KeysAreText(k: Checks) {
    forall x :: k.wgKey(x) ==> TrimSpace(x) != ""
  }

  /** One pairing: the configuration that issued the offer, its secrets, and what the edge generated. */
  datatype Pairing = Pairing(issued: Config, secrets: Secrets, edge: EdgeKeys, edgeWan: string, gatewayPrivate: string,
                             edgePrivate: string) {
    function Offered(): Offer {
      MakeOffer(issued, secrets)
    }

    function Iran(): Config {
      JoinConfig(Offered(), edgeWan, edge.localIP)
    }

    function Answer(): Response {
      MakeResponse(Offered(), edge)
    }

    function Gateway(): Config {
      AcceptConfig(issued, Answer())
    }

    /** The edge accepted the offer and the gateway accepted the response. */
    predicate Completed(k: Checks) {
      && issued.role == Outside
      && ValidateOffer(k, Offered()) == None
      && ValidateResponse(k, Answer(), issued) == None
    }

    /** The file each end writes: the edge on joining, the gateway on accepting. */
    function IranFile(k: Checks): Option<WgFile> {
      WireGuardFile(k, Iran(), edgePrivate, TrimSpace(Offered().presharedKey), Offered().gatewayPublicKey)
    }

    function GatewayFile(k: Checks): Option<WgFile> {
      WireGuardFile(k, Gateway(), gatewayPrivate, secrets.presharedKey, Gateway().peerPublicKey)
    }
  }

  /** WireGuard modes: each end's peer is the other end's key, the pre-shared key is the same, and the gateway admits
      the address the edge gives itself. */
  ghost predicate KeysCross(k: Checks, p: Pairing) {
    var iran, gateway := p.IranFile(k), p.GatewayFile(k);
    && iran.Some? && gateway.Some? && iran.value.peer.Some? && gateway.value.peer.Some?
    && iran.value.peer.value.publicKey == TrimSpace(p.secrets.publicKey)
    && gateway.value.peer.value.publicKey == TrimSpace(p.edge.publicKey)
    && iran.value.peer.value.presharedKey.Some?
    && iran.value.peer.value.presharedKey == gateway.value.peer.value.presharedKey
    && gateway.value.peer.value.allowedIPs == Before(iran.value.address, '/') + "/" + "32"
    && iran.value.address == p.issued.edgeAddress && gateway.value.address == p.issued.gatewayAddress
    && iran.value.mtu == gateway.value.mtu
    && iran.value.hooks == Some(p.issued.routeTable) && gateway.value.hooks == None
    && iran.value.privateKey == TrimSpace(p.edgePrivate) && gateway.value.privateKey == TrimSpace(p.gatewayPrivate)
  }

  /** ARA: WireGuard talks to the local relay, the relay's target is the one address the server lets through, that
      address is the gateway's listener, and path and port of client and server agree. */
  ghost predicate AraAgrees(k: Checks, p: Pairing) {
    var iran, gateway, client, server :=
      p.IranFile(k), p.GatewayFile(k), AraClientUnit(k, p.Iran()), AraServerUnit(p.Gateway());
    && iran.Some? && gateway.Some? && iran.value.peer.Some?
    && iran.value.peer.value.endpoint == Some(client.local)
    && client.target == server.restrictTo
    && gateway.value.listenPort == Some(server.restrictTo.port)
    && client.path == server.path && client.server.port == server.listen
    && client.server.host == FormatHost(k, p.issued.endpointHost)
    && client.verify == (p.issued.tlsMode != SelfSigned)
    && client.path == p.issued.araPath && IsHexPath(client.path)
    && server.restrictTo.host == client.local.host == "127.0.0.1" && server.listen == p.issued.endpointPort
  }

  /** Direct WireGuard: the edge dials the gateway's host on the port it listens on. */
  ghost predicate DirectAgrees(k: Checks, p: Pairing) {
    var iran, gateway := p.IranFile(k), p.GatewayFile(k);
    && iran.Some? && gateway.Some? && iran.value.peer.Some? && iran.value.peer.value.endpoint.Some?
    && gateway.value.listenPort == Some(iran.value.peer.value.endpoint.value.port)
    && iran.value.peer.value.endpoint.value.host == FormatHost(k, p.issued.endpointHost)
  }

  /** IPIP: each end's endpoints and addresses are the other's, swapped, and each end's own are its own. */
  ghost predicate Mirrored(k: Checks, p: Pairing) {
    var iran, gateway := IpipScript(p.Iran()), IpipScript(p.Gateway());
    && iran.localEP == gateway.remoteEP == p.edge.localIP
    && gateway.localEP == iran.remoteEP == p.issued.endpointHost
    && k.ip(iran.localEP).Four? && k.ip(gateway.localEP).Four?
    && gateway.localAddr == p.issued.gatewayAddress && iran.peerAddr == Before(gateway.localAddr, '/')
    && iran.localAddr == p.issued.edgeAddress && gateway.peerAddr == Before(iran.localAddr, '/')
    && iran.mtu == gateway.mtu && iran.table == Some(p.issued.routeTable) && gateway.table == None
    && iran.iface == INTERFACE && gateway.iface == p.issued.iface
  }

  /** SSH: the edge logs in to the gateway's account on the port of the pinned host key, which is the gateway's own; the
      key that the gateway authorizes is the edge's; and the panel talks to the client's own listener. */
  ghost predicate SshAgrees(p: Pairing) {
    var client, known := SshClientUnit(p.Iran()), KnownHosts(p.Iran());
    && client.server == known.server == Endpoint(p.issued.endpointHost, p.Gateway().sshPort)
    && p.Gateway().sshPort == p.issued.endpointPort
    && client.user == p.Gateway().sshUser && known.key == TrimSpace(p.Gateway().sshHostKey)
    && AuthorizedKeys.KeyOf(p.Answer().sshPublicKey) == AuthorizedKeys.KeyOf(p.edge.sshPublicKey)
    && XraySocks(p.Iran()) == client.listen == Endpoint("127.0.0.1", p.issued.socksPort)
  }

  ghost predicate EndsFit(k: Checks, p: Pairing) {
    match p.issued.mode
    case Ara => KeysCross(k, p) && AraAgrees(k, p)
    case WireGuard => KeysCross(k, p) && DirectAgrees(k, p)
    case Ipip => Mirrored(k, p)
    case SshSocks => SshAgrees(p)
    case OtherMode(_) => false
  }

  /** The edge's tunnel file: its own address and table, and the gateway as its peer. */
  lemma IranFileFields(k: Checks, p: Pairing)
    requires p.Completed(k) && UsesWireGuard(p.issued.mode) && KeysAreText(k)
    ensures p.IranFile(k).Some? && p.IranFile(k).value.peer.Some?
    ensures var file := p.IranFile(k).value;
            && file.address == p.issued.edgeAddress && file.mtu == p.issued.mtu
            && file.hooks == Some(p.issued.routeTable)
            && file.peer.value.publicKey == TrimSpace(p.secrets.publicKey)
            && file.peer.value.presharedKey == Some(TrimSpace(p.secrets.presharedKey))
            && file.privateKey == TrimSpace(p.edgePrivate) && file.peer.value.allowedIPs == "0.0.0.0/0"
  {
    ValidIsClear(k, p.Offered());
    TrimIdempotent(p.secrets.presharedKey);
  }

  /** The gateway's tunnel file: its own address, no hooks, and the edge as its peer. */
  lemma GatewayFileFields(k: Checks, p: Pairing)
    requires p.Completed(k) && UsesWireGuard(p.issued.mode) && KeysAreText(k)
    ensures p.GatewayFile(k).Some? && p.GatewayFile(k).value.peer.Some?
    ensures var file := p.GatewayFile(k).value;
            && file.address == p.issued.gatewayAddress && file.mtu == p.issued.mtu && file.hooks == None
            && file.peer.value.publicKey == TrimSpace(p.edge.publicKey)
            && file.peer.value.presharedKey == Some(TrimSpace(p.secrets.presharedKey))
            && file.peer.value.allowedIPs == Before(p.issued.edgeAddress, '/') + "/" + "32"
            && file.privateKey == TrimSpace(p.gatewayPrivate)
  {
    ValidIsClear(k, p.Offered());
    TrimIdempotent(p.edge.publicKey);
  }

  /** The agreed part of a configuration comes through the offer unchanged; what is new on the edge is its own. */
  lemma ConfigTravels(k: Checks, p: Pairing)
    requires p.Completed(k)
    ensures var a, b := p.issued, p.Iran();
            && b.version == SCHEMA && b.instanceID == a.instanceID && b.mode == a.mode && b.tunnelCIDR == a.tunnelCIDR
            && b.gatewayAddress == a.gatewayAddress && b.edgeAddress == a.edgeAddress
            && b.endpointHost == a.endpointHost && b.endpointPort == a.endpointPort
            && b.wireGuardPort == a.wireGuardPort && b.localRelayPort == a.localRelayPort && b.mtu == a.mtu
            && b.routeTable == a.routeTable && b.araPath == a.araPath && b.tlsMode == a.tlsMode
            && b.tlsVerify == a.tlsVerify && b.sshUser == a.sshUser && b.sshPort == a.sshPort
            && b.sshHostKey == a.sshHostKey && b.socksPort == a.socksPort
            && (UsesWireGuard(b.mode) ==> b.peerPublicKey == p.secrets.publicKey)
            && b.role == Iran && b.state == Pending && b.iface == INTERFACE && b.wan == p.edgeWan
            && b.peerEndpoint == p.edge.localIP
  {
    ValidIsClear(k, p.Offered());
  }

  /** Accepting adds the answer to the gateway's configuration and leaves the rest as it was issued. */
  lemma AcceptKeeps(k: Checks, p: Pairing)
    requires p.Completed(k)
    ensures p.Gateway().(state := p.issued.state, peerPublicKey := p.issued.peerPublicKey,
                         peerEndpoint := p.issued.peerEndpoint) == p.issued
    ensures p.Gateway().state == Ready
    ensures UsesWireGuard(p.issued.mode) ==> p.Gateway().peerPublicKey == TrimSpace(p.edge.publicKey)
    ensures p.issued.mode == Ipip ==> p.Gateway().peerEndpoint == p.edge.localIP
  {
    ValidIsClear(k, p.Offered());
  }

  lemma KeysCrossed(k: Checks, p: Pairing)
    requires p.Completed(k) && UsesWireGuard(p.issued.mode) && KeysAreText(k)
    ensures KeysCross(k, p)
  {
    IranFileFields(k, p);
    GatewayFileFields(k, p);
  }

  lemma AraChain(k: Checks, p: Pairing)
    requires p.Completed(k) && p.issued.mode == Ara && KeysAreText(k)
    ensures AraAgrees(k, p)
  {
    ValidIsClear(k, p.Offered());
  }

  lemma DirectPorts(k: Checks, p: Pairing)
    requires p.Completed(k) && p.issued.mode == WireGuard && KeysAreText(k)
    ensures DirectAgrees(k, p)
  {
    ValidIsClear(k, p.Offered());
  }

  lemma IpipMirrored(k: Checks, p: Pairing)
    requires p.Completed(k) && p.issued.mode == Ipip
    ensures Mirrored(k, p)
  {
    ValidIsClear(k, p.Offered());
  }

  lemma SshFits(k: Checks, p: Pairing)
    requires p.Completed(k) && p.issued.mode == SshSocks
    ensures SshAgrees(p)
  {
    ValidIsClear(k, p.Offered());
  }

  /** The files of a completed pairing fit together in every mode. */
  lemma CompletedEndsFit(k: Checks, p: Pairing)
    requires p.Completed(k) && KeysAreText(k)
    ensures EndsFit(k, p)
  {
    match p.issued.mode {
      case Ara =>
        KeysCrossed(k, p);
        AraChain(k, p);
      case WireGuard =>
        KeysCrossed(k, p);
        DirectPorts(k, p);
      case Ipip => IpipMirrored(k, p);
      case SshSocks => SshFits(k, p);
      case OtherMode(_) => ValidIsClear(k, p.Offered());
    }
  }
}
