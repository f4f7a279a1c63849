/** Configuration, offer and response, and their validation (internal/model/model.go), together with the pure parts of
    internal/app/app.go that fill them in. */
module Model {
  import opened Text
  import opened Address
  import opened HostName
  import opened Base64Url

  const SCHEMA := 1
  const SSH_USER := "hamara-proxy"
  const INTERFACE := "hamara0"

  datatype Role = Iran | Outside | OtherRole(text: string)
  datatype Mode = Ara | WireGuard | Ipip | SshSocks | OtherMode(text: string)
  datatype State = Pending | Ready
  datatype TlsMode = NoTls | Acme | Existing | SelfSigned | OtherTls(text: string)

  predicate IsMode(m: Mode) {
    !m.OtherMode?
  }

  predicate IsRouted(m: Mode) {
    m == Ara || m == WireGuard || m == Ipip
  }

  predicate UsesWireGuard(m: Mode) {
    m == Ara || m == WireGuard
  }

  datatype Config = Config(
    version: int, instanceID: string, role: Role, mode: Mode, state: State, iface: string, wan: string,
    tunnelCIDR: string, gatewayAddress: string, edgeAddress: string, endpointHost: string, endpointPort: int,
    wireGuardPort: int, localRelayPort: int, mtu: int, routeTable: int, peerPublicKey: string, peerEndpoint: string,
    araPath: string, tlsMode: TlsMode, tlsVerify: bool, sshUser: string, sshPort: int, sshHostKey: string,
    socksPort: int)

  datatype Offer = Offer(
    version: int, instanceID: string, mode: Mode, endpointHost: string, endpointPort: int, tunnelCIDR: string,
    gatewayAddress: string, edgeAddress: string, mtu: int, routeTable: int, gatewayPublicKey: string,
    presharedKey: string, wireGuardPort: int, localRelayPort: int, araPath: string, tlsMode: TlsMode, tlsVerify: bool,
    mtlsCert: string, mtlsKey: string, sshUser: string, sshPort: int, sshHostKey: string, socksPort: int,
    gatewayEndpointIP: string)

  datatype Response = Response(
    version: int, instanceID: string, mode: Mode, edgePublicKey: string, sshPublicKey: string, edgeEndpointIP: string)

  /** The readers and judges that validation consults: addresses, networks, host names, WireGuard keys, SSH host keys,
      and a client certificate with its key for an expected common name. */
  datatype Checks = Checks(ip: string -> IP, cidr: string -> Network, host: string -> bool, wgKey: string -> bool,
                           sshHostKey: string -> bool, mtls: (string, string, string) -> bool)

  /** The text readers are Go's and the host validator is the program's own. */
  ghost predicate ReadsText(k: Checks, six: SixReader) {
    && (forall s :: k.ip(s) == ParseIP(six, s))
    && (forall s :: k.cidr(s) == ParseCIDR(six, s))
    && (forall s :: k.host(s) == ValidEndpointHost(six, s))
  }

  datatype OfferError =
    | BadVersion | BadInstanceOrMode | BadEndpoint | BadCIDR | BadAddresses | NotDistinctMembers | BadMtuOrTable
    | BadWireGuardMaterial | BadWireGuardPort | BadTransport | BadTlsMode | TlsPolicyMismatch | BadClientIdentity
    | PortsDiffer | BadSshIdentity | BadSshPorts | BadGatewayIP

  predicate IsPort(n: int) {
    1 <= n <= 65535
  }

  predicate IsInstanceID(s: string) {
    |s| == 16 && forall i :: 0 <= i < |s| ==> IsLowerHex(s[i])
  }

  predicate IsHexPath(s: string) {
    32 <= |s| <= 128 && forall i :: 0 <= i < |s| ==> IsLowerHex(s[i])
  }

  predicate IsUserName(s: string) {
    1 <= |s| <= 32 && ('a' <= s[0] <= 'z' || s[0] == '_')
    && forall i :: 0 <= i < |s| ==> 'a' <= s[i] <= 'z' || IsDigit(s[i]) || s[i] == '_' || s[i] == '-'
  }

  /** The IPv4 of an address with or without a prefix length; the length is not looked at. */
  function HostIP(k: Checks, s: string): IP {
    k.ip(Before(s, '/'))
  }

  /** The checks on the parsed tunnel network and addresses, in the validator's order. */
  function AddressFault(net: Network, gateway: IP, edge: IP): Option<OfferError> {
    if net.BadNet? || net.SixNet? then Some(BadCIDR)
    else if !gateway.Four? || !edge.Four? then Some(BadAddresses)
    else if net.Hollow? || !Contains(net.net, gateway.a) || !Contains(net.net, edge.a) || gateway.a == edge.a then
      Some(NotDistinctMembers)
    else None
  }

  function AddressError(k: Checks, o: Offer): Option<OfferError> {
    var fault := AddressFault(k.cidr(o.tunnelCIDR), HostIP(k, o.gatewayAddress), HostIP(k, o.edgeAddress));
    if fault.Some? then fault
    else if o.mtu < 576 || o.mtu > 1500 || o.routeTable < 1 || o.routeTable > 0x7fffffff then Some(BadMtuOrTable)
    else None
  }

  function WireGuardError(k: Checks, o: Offer): Option<OfferError> {
    if !k.wgKey(o.gatewayPublicKey) || !k.wgKey(o.presharedKey) then Some(BadWireGuardMaterial)
    else if !IsPort(o.wireGuardPort) then Some(BadWireGuardPort)
    else None
  }

  function AraError(k: Checks, o: Offer): Option<OfferError> {
    if !IsHexPath(o.araPath) || !IsPort(o.localRelayPort) then Some(BadTransport)
    else if o.tlsMode !in {Acme, Existing, SelfSigned} then Some(BadTlsMode)
    else if (o.tlsMode == SelfSigned) == o.tlsVerify then Some(TlsPolicyMismatch)
    else if !k.mtls(o.mtlsCert, o.mtlsKey, o.araPath) then Some(BadClientIdentity)
    else None
  }

  function SshError(k: Checks, o: Offer): Option<OfferError> {
    if !IsUserName(o.sshUser) || !k.sshHostKey(o.sshHostKey) then Some(BadSshIdentity)
    else if !IsPort(o.sshPort) || o.sshPort != o.endpointPort || o.socksPort < 1024 || o.socksPort > 65535 then
      Some(BadSshPorts)
    else None
  }

  /** ValidateOffer: the first complaint, or None. */
  function ValidateOffer(k: Checks, o: Offer): Option<OfferError> {
    if o.version != SCHEMA then Some(BadVersion)
    else if !IsInstanceID(o.instanceID) || !IsMode(o.mode) then Some(BadInstanceOrMode)
    else if !k.host(o.endpointHost) || !IsPort(o.endpointPort) then Some(BadEndpoint)
    else if IsRouted(o.mode) && AddressError(k, o).Some? then AddressError(k, o)
    else if UsesWireGuard(o.mode) && WireGuardError(k, o).Some? then WireGuardError(k, o)
    else if o.mode == Ara && AraError(k, o).Some? then AraError(k, o)
    else if o.mode == WireGuard && o.wireGuardPort != o.endpointPort then Some(PortsDiffer)
    else if o.mode == SshSocks && SshError(k, o).Some? then SshError(k, o)
    else if o.mode == Ipip && (!k.ip(o.gatewayEndpointIP).Four? || o.gatewayEndpointIP != o.endpointHost) then
      Some(BadGatewayIP)
    else None
  }

  datatype ResponseError = NotThisInstance | BadEdgeKey | BadEdgeIP | BadSshKey

  function ValidateResponse(k: Checks, r: Response, cfg: Config): Option<ResponseError> {
    if r.version != SCHEMA || r.instanceID != cfg.instanceID || r.mode != cfg.mode then Some(NotThisInstance)
    else
      match cfg.mode
      case Ara => if k.wgKey(r.edgePublicKey) then None else Some(BadEdgeKey)
      case WireGuard => if k.wgKey(r.edgePublicKey) then None else Some(BadEdgeKey)
      case Ipip => if k.ip(r.edgeEndpointIP).Four? then None else Some(BadEdgeIP)
      case SshSocks => if "ssh-" <= r.sshPublicKey then None else Some(BadSshKey)
      case OtherMode(_) => None
  }

  // ---- initialisation ----

  datatype InitOptions = InitOptions(mode: Mode, endpointHost: string, endpointPort: int, tlsMode: TlsMode, force: bool)

  function DefaultPort(m: Mode): int {
    match m
    case Ara => 443
    case WireGuard => 51820
    case SshSocks => 22
    case Ipip => 4
    case OtherMode(_) => 0
  }

  /** The options as InitOutside rewrites them: trimmed host, default port, default TLS mode. */
  function Normalized(o: InitOptions): InitOptions {
    o.(endpointHost := TrimSpace(o.endpointHost),
       endpointPort := if o.endpointPort == 0 then DefaultPort(o.mode) else o.endpointPort,
       tlsMode := if o.mode == Ara && o.tlsMode == NoTls then SelfSigned else o.tlsMode)
  }

  /** The checks InitOutside makes after the mode check, and prepareTLS's switch. */
  predicate OptionsAccepted(k: Checks, o: InitOptions) {
    var n := Normalized(o);
    && k.host(n.endpointHost)
    && IsPort(n.endpointPort)
    && (n.mode == Ipip ==> k.ip(n.endpointHost).Four?)
    && (n.mode == Ara ==> n.tlsMode in {Existing, Acme, SelfSigned})
    && (n.mode == Ara && n.tlsMode == Acme ==> k.ip(n.endpointHost) == NotIP)
  }

  /** Second octet of the tunnel network: 10.73.0.0/30, 10.74.0.0/30 or 10.75.0.0/30. */
  function TunnelOctet(m: Mode): string {
    if m == Ara then "73" else if m == WireGuard then "74" else "75"
  }

  function TunnelHost(m: Mode, host: string): string {
    "10" + "." + TunnelOctet(m) + "." + "0" + "." + host
  }

  function TunnelText(m: Mode, host: string): string {
    TunnelHost(m, host) + "/" + "30"
  }

  function Defaults(m: Mode): Config {
    var blank := Config(0, "", OtherRole(""), m, Pending, INTERFACE, "", "", "", "", "", 0, 0, 0, 0, 0, "", "", "",
                        NoTls, false, "", 0, "", 0);
    match m
    case Ara =>
      blank.(tunnelCIDR := TunnelText(Ara, "0"), gatewayAddress := TunnelText(Ara, "1"),
             edgeAddress := TunnelText(Ara, "2"),
             wireGuardPort := 51820, localRelayPort := 51821, mtu := 1280, routeTable := 52730)
    case WireGuard =>
      blank.(tunnelCIDR := TunnelText(WireGuard, "0"), gatewayAddress := TunnelText(WireGuard, "1"),
             edgeAddress := TunnelText(WireGuard, "2"),
             wireGuardPort := 51820, mtu := 1380, routeTable := 52740)
    case Ipip =>
      blank.(tunnelCIDR := TunnelText(Ipip, "0"), gatewayAddress := TunnelText(Ipip, "1"),
             edgeAddress := TunnelText(Ipip, "2"),
             mtu := 1400, routeTable := 52750)
    case SshSocks => blank.(socksPort := 10808)
    case OtherMode(_) => blank
  }

  /** Key material an outside server holds in files. */
  datatype Secrets = Secrets(publicKey: string, presharedKey: string, mtlsCert: string, mtlsKey: string,
                             sshHostKey: string)

  /** The configuration InitOutside saves, from accepted options and what it generated. */
  function InitConfig(o: InitOptions, id: string, araPath: string, wan: string, s: Secrets): Config {
    var n := Normalized(o);
    var cfg := Defaults(n.mode).(version := SCHEMA, instanceID := id, role := Outside, state := Pending,
                                 endpointHost := TrimSpace(n.endpointHost), endpointPort := n.endpointPort, wan := wan);
    match n.mode
    case Ara => cfg.(tlsMode := n.tlsMode, tlsVerify := n.tlsMode == Acme || n.tlsMode == Existing, araPath := araPath)
    case WireGuard => cfg.(wireGuardPort := n.endpointPort)
    case SshSocks => cfg.(sshPort := n.endpointPort, sshUser := SSH_USER, sshHostKey := s.sshHostKey)
    case _ => cfg
  }

  function MakeOffer(cfg: Config, s: Secrets): Offer {
    var o := Offer(SCHEMA, cfg.instanceID, cfg.mode, cfg.endpointHost, cfg.endpointPort, cfg.tunnelCIDR,
                   cfg.gatewayAddress, cfg.edgeAddress, cfg.mtu, cfg.routeTable, "", "", cfg.wireGuardPort,
                   cfg.localRelayPort, cfg.araPath, cfg.tlsMode, cfg.tlsVerify, "", "", cfg.sshUser, cfg.sshPort,
                   cfg.sshHostKey, cfg.socksPort, "");
    match cfg.mode
    case Ara =>
      o.(gatewayPublicKey := s.publicKey, presharedKey := s.presharedKey, mtlsCert := s.mtlsCert, mtlsKey := s.mtlsKey)
    case WireGuard => o.(gatewayPublicKey := s.publicKey, presharedKey := s.presharedKey)
    case Ipip => o.(gatewayEndpointIP := cfg.endpointHost)
    case _ => o
  }

  // ---- joining and accepting ----

  function JoinConfig(o: Offer, wan: string, localIP: string): Config {
    Config(SCHEMA, o.instanceID, Iran, o.mode, Pending, INTERFACE, wan, o.tunnelCIDR, o.gatewayAddress, o.edgeAddress,
           o.endpointHost, o.endpointPort, o.wireGuardPort, o.localRelayPort, o.mtu, o.routeTable, o.gatewayPublicKey,
           localIP, o.araPath, o.tlsMode, o.tlsVerify, o.sshUser, o.sshPort, o.sshHostKey, o.socksPort)
  }

  /** What the edge generates or detects while joining. */
  datatype EdgeKeys = EdgeKeys(publicKey: string, sshPublicKey: string, localIP: string)

  function MakeResponse(o: Offer, e: EdgeKeys): Response {
    var r := Response(SCHEMA, o.instanceID, o.mode, "", "", "");
    match o.mode
    case Ara => r.(edgePublicKey := e.publicKey)
    case WireGuard => r.(edgePublicKey := e.publicKey)
    case Ipip => r.(edgeEndpointIP := e.localIP)
    case SshSocks => r.(sshPublicKey := e.sshPublicKey)
    case OtherMode(_) => r
  }

  function AcceptConfig(cfg: Config, r: Response): Config {
    var paired := match cfg.mode
      case Ara => cfg.(peerPublicKey := TrimSpace(r.edgePublicKey))
      case WireGuard => cfg.(peerPublicKey := TrimSpace(r.edgePublicKey))
      case Ipip => cfg.(peerEndpoint := r.edgeEndpointIP)
      case _ => cfg;
    paired.(state := Ready)
  }

  // ---- the defaults table is well formed ----

  lemma TwoDigits(s: string)
    requires |s| == 2 && IsDigit(s[0]) && IsDigit(s[1])
    ensures AllDigits(s) && Decimal(s) == (s[0] as int - 48) * 10 + (s[1] as int - 48)
  {
    assert AllDigits(s[1..][1..]) && AllDigits(s[1..]);
    assert s[..1] == [s[0]] && s[..1][..0] == "";
    assert AllDigits(s[..1]);
    assert Decimal(s[..1]) == Decimal(s[..1][..0]) * 10 + (s[0] as int - 48);
  }

  lemma OneDigit(s: string)
    requires |s| == 1 && IsDigit(s[0])
    ensures Octet(s) == Some(s[0] as int - 48)
  {
    assert s[1..] == "" && s[..0] == "" && AllDigits(s);
    assert Decimal(s) == Decimal(s[..0]) * 10 + (s[0] as int - 48);
  }

  function OctetValue(m: Mode): nat {
    if m == Ara then 73 else if m == WireGuard then 74 else 75
  }

  lemma TunnelOctets(m: Mode)
    ensures Octet("10") == Some(10) && Octet("0") == Some(0) && Octet(TunnelOctet(m)) == Some(OctetValue(m))
  {
    TwoDigits("10");
    OneDigit("0");
    TwoDigits(TunnelOctet(m));
  }

  function TunnelBase(m: Mode): nat {
    ((10 * 256 + OctetValue(m)) * 256) * 256
  }

  lemma TunnelTextParses(six: SixReader, m: Mode, host: string)
    requires Octet(host).Some?
    ensures ParseIP(six, Before(TunnelText(m, host), '/')) == Four(TunnelBase(m) + Octet(host).value)
    ensures ParseCIDR(six, TunnelText(m, host)) == FourNet(Cidr(TunnelBase(m) + Octet(host).value, 30))
  {
    TunnelOctets(m);
    ParseDotted(six, "10", TunnelOctet(m), "0", host);
    TwoDigits("30");
    ParseCidrText(six, TunnelHost(m, host), "30", TunnelBase(m) + Octet(host).value);
  }

  lemma DefaultNetwork(six: SixReader, m: Mode)
    requires IsRouted(m)
    ensures ParseCIDR(six, Defaults(m).tunnelCIDR) == FourNet(Cidr(TunnelBase(m), 30))
  {
    OneDigit("0");
    TunnelTextParses(six, m, "0");
  }

  lemma DefaultGateway(six: SixReader, m: Mode)
    requires IsRouted(m)
    ensures ParseIP(six, Before(Defaults(m).gatewayAddress, '/')) == Four(TunnelBase(m) + 1)
  {
    OneDigit("1");
    TunnelTextParses(six, m, "1");
  }

  lemma DefaultEdge(six: SixReader, m: Mode)
    requires IsRouted(m)
    ensures ParseIP(six, Before(Defaults(m).edgeAddress, '/')) == Four(TunnelBase(m) + 2)
  {
    OneDigit("2");
    TunnelTextParses(six, m, "2");
  }

  lemma TunnelMember(m: Mode, d: nat)
    requires d < 4
    ensures Contains(Cidr(TunnelBase(m), 30), TunnelBase(m) + d)
  {
    assert Pow2(2) == 4 by {
      assert Pow2(1) == 2;
    }
  }

  lemma DefaultsValid(six: SixReader, m: Mode)
    requires IsRouted(m)
    ensures AddressFault(ParseCIDR(six, Defaults(m).tunnelCIDR), ParseIP(six, Before(Defaults(m).gatewayAddress, '/')),
                         ParseIP(six, Before(Defaults(m).edgeAddress, '/'))) == None
  {
    var net, gateway, edge := FourNet(Cidr(TunnelBase(m), 30)), Four(TunnelBase(m) + 1), Four(TunnelBase(m) + 2);
    assert AddressFault(net, gateway, edge) == None by {
      TunnelMember(m, 1);
      TunnelMember(m, 2);
    }
    DefaultNetwork(six, m);
    DefaultGateway(six, m);
    DefaultEdge(six, m);
  }

  // ---- the properties ----

  /** The fields of an offer that comes from accepted options, whatever the mode. */
  ghost predicate FromOptions(o: Offer, opts: InitOptions, id: string, path: string, s: Secrets) {
    var n, d := Normalized(opts), Defaults(opts.mode);
    && o.version == SCHEMA && o.instanceID == id && o.mode == opts.mode
    && o.endpointHost == n.endpointHost && o.endpointPort == n.endpointPort
    && o.tunnelCIDR == d.tunnelCIDR && o.gatewayAddress == d.gatewayAddress && o.edgeAddress == d.edgeAddress
    && o.mtu == d.mtu && o.routeTable == d.routeTable && o.localRelayPort == d.localRelayPort
    && o.socksPort == d.socksPort
    && o.wireGuardPort == (if o.mode == WireGuard then n.endpointPort else d.wireGuardPort)
    && (UsesWireGuard(o.mode) ==> o.gatewayPublicKey == s.publicKey && o.presharedKey == s.presharedKey)
    && (o.mode == Ara ==> o.araPath == path && o.mtlsCert == s.mtlsCert && o.mtlsKey == s.mtlsKey
                          && o.tlsMode == n.tlsMode && o.tlsVerify == (n.tlsMode == Acme || n.tlsMode == Existing))
    && (o.mode == SshSocks ==> o.sshUser == SSH_USER && o.sshHostKey == s.sshHostKey && o.sshPort == n.endpointPort)
    && (o.mode == Ipip ==> o.gatewayEndpointIP == n.endpointHost)
  }

  lemma OfferFields(opts: InitOptions, id: string, path: string, wan: string, s: Secrets)
    requires IsMode(opts.mode)
    ensures FromOptions(MakeOffer(InitConfig(opts, id, path, wan, s), s), opts, id, path, s)
  {
    var n, d, cfg := Normalized(opts), Defaults(opts.mode), InitConfig(opts, id, path, wan, s);
    assert cfg.endpointHost == n.endpointHost by {
      TrimIdempotent(opts.endpointHost);
    }
    assert cfg.mode == opts.mode && cfg.tunnelCIDR == d.tunnelCIDR && cfg.gatewayAddress == d.gatewayAddress
        && cfg.edgeAddress == d.edgeAddress;
    OfferOfConfig(cfg, s);
  }

  lemma OfferOfConfig(cfg: Config, s: Secrets)
    ensures var o := MakeOffer(cfg, s);
            && o.version == SCHEMA && o.instanceID == cfg.instanceID && o.mode == cfg.mode
            && o.endpointHost == cfg.endpointHost && o.endpointPort == cfg.endpointPort
            && o.tunnelCIDR == cfg.tunnelCIDR && o.gatewayAddress == cfg.gatewayAddress
            && o.edgeAddress == cfg.edgeAddress
            && o.mtu == cfg.mtu && o.routeTable == cfg.routeTable && o.wireGuardPort == cfg.wireGuardPort
            && o.localRelayPort == cfg.localRelayPort && o.socksPort == cfg.socksPort && o.araPath == cfg.araPath
            && o.tlsMode == cfg.tlsMode && o.tlsVerify == cfg.tlsVerify && o.sshUser == cfg.sshUser
            && o.sshPort == cfg.sshPort && o.sshHostKey == cfg.sshHostKey
            && (UsesWireGuard(cfg.mode) ==> o.gatewayPublicKey == s.publicKey && o.presharedKey == s.presharedKey)
            && (cfg.mode == Ara ==> o.mtlsCert == s.mtlsCert && o.mtlsKey == s.mtlsKey)
            && (cfg.mode == Ipip ==> o.gatewayEndpointIP == cfg.endpointHost)
  {
  }

  /** The validator's checks, group by group. */
  ghost predicate Clear(k: Checks, o: Offer) {
    && o.version == SCHEMA && IsInstanceID(o.instanceID) && IsMode(o.mode)
    && k.host(o.endpointHost) && IsPort(o.endpointPort)
    && (IsRouted(o.mode) ==> AddressError(k, o) == None)
    && (UsesWireGuard(o.mode) ==> WireGuardError(k, o) == None)
    && (o.mode == Ara ==> AraError(k, o) == None)
    && (o.mode == WireGuard ==> o.wireGuardPort == o.endpointPort)
    && (o.mode == SshSocks ==> SshError(k, o) == None)
    && (o.mode == Ipip ==> k.ip(o.gatewayEndpointIP).Four? && o.gatewayEndpointIP == o.endpointHost)
  }

  lemma ValidIsClear(k: Checks, o: Offer)
    ensures ValidateOffer(k, o) == None <==> Clear(k, o)
  {
  }

  /** What an acceptable offer is, condition by condition. */
  ghost predicate Wellformed(k: Checks, o: Offer) {
    && o.version == 1 && |o.instanceID| == 16 && (forall i :: 0 <= i < 16 ==> IsLowerHex(o.instanceID[i]))
    && o.mode in {Ara, WireGuard, Ipip, SshSocks}
    && k.host(o.endpointHost) && 1 <= o.endpointPort <= 65535
    && (o.mode in {Ara, WireGuard, Ipip} ==>
          && k.cidr(o.tunnelCIDR).FourNet? && HostIP(k, o.gatewayAddress).Four? && HostIP(k, o.edgeAddress).Four?
          && Contains(k.cidr(o.tunnelCIDR).net, HostIP(k, o.gatewayAddress).a)
          && Contains(k.cidr(o.tunnelCIDR).net, HostIP(k, o.edgeAddress).a)
          && HostIP(k, o.gatewayAddress).a != HostIP(k, o.edgeAddress).a
          && 576 <= o.mtu <= 1500 && 1 <= o.routeTable < 0x8000_0000)
    && (o.mode in {Ara, WireGuard} ==>
          k.wgKey(o.gatewayPublicKey) && k.wgKey(o.presharedKey) && 1 <= o.wireGuardPort <= 65535)
    && (o.mode == Ara ==>
          && 32 <= |o.araPath| <= 128 && (forall i :: 0 <= i < |o.araPath| ==> IsLowerHex(o.araPath[i]))
          && 1 <= o.localRelayPort <= 65535
          && ((o.tlsMode == SelfSigned && !o.tlsVerify) || (o.tlsMode in {Acme, Existing} && o.tlsVerify))
          && k.mtls(o.mtlsCert, o.mtlsKey, o.araPath))
    && (o.mode == WireGuard ==> o.wireGuardPort == o.endpointPort)
    && (o.mode == SshSocks ==>
          && 1 <= |o.sshUser| <= 32 && !IsDigit(o.sshUser[0]) && o.sshUser[0] != '-'
          && (forall i :: 0 <= i < |o.sshUser| ==>
                'a' <= o.sshUser[i] <= 'z' || IsDigit(o.sshUser[i]) || o.sshUser[i] in {'_', '-'})
          && k.sshHostKey(o.sshHostKey) && o.sshPort == o.endpointPort && 1024 <= o.socksPort <= 65535)
    && (o.mode == Ipip ==> k.ip(o.gatewayEndpointIP).Four? && o.gatewayEndpointIP == o.endpointHost)
  }

  lemma AddressMeans(k: Checks, o: Offer)
    ensures AddressError(k, o) == None <==>
              && k.cidr(o.tunnelCIDR).FourNet? && HostIP(k, o.gatewayAddress).Four? && HostIP(k, o.edgeAddress).Four?
              && Contains(k.cidr(o.tunnelCIDR).net, HostIP(k, o.gatewayAddress).a)
              && Contains(k.cidr(o.tunnelCIDR).net, HostIP(k, o.edgeAddress).a)
              && HostIP(k, o.gatewayAddress).a != HostIP(k, o.edgeAddress).a
              && 576 <= o.mtu <= 1500 && 1 <= o.routeTable < 0x8000_0000
  {
  }

  lemma SshMeans(k: Checks, o: Offer)
    ensures IsUserName(o.sshUser) <==>
              && 1 <= |o.sshUser| <= 32 && !IsDigit(o.sshUser[0]) && o.sshUser[0] != '-'
              && (forall i :: 0 <= i < |o.sshUser| ==>
                    'a' <= o.sshUser[i] <= 'z' || IsDigit(o.sshUser[i]) || o.sshUser[i] in {'_', '-'})
  {
  }

  /** The validator accepts exactly the acceptable offers. */
  lemma ValidMeans(k: Checks, o: Offer)
    ensures ValidateOffer(k, o) == None <==> Wellformed(k, o)
  {
    ValidIsClear(k, o);
    AddressMeans(k, o);
    SshMeans(k, o);
  }

  /** And a response is accepted exactly when it is for this instance and mode and carries that mode's material. */
  lemma ResponseMeans(k: Checks, r: Response, cfg: Config)
    ensures ValidateResponse(k, r, cfg) == None <==>
              && r.version == 1 && r.instanceID == cfg.instanceID && r.mode == cfg.mode
              && (r.mode in {Ara, WireGuard} ==> k.wgKey(r.edgePublicKey))
              && (r.mode == Ipip ==> k.ip(r.edgeEndpointIP).Four?)
              && (r.mode == SshSocks ==> |r.sshPublicKey| >= 4 && r.sshPublicKey[..4] == "ssh-")
  {
  }

  lemma RoutedPartClear(k: Checks, six: SixReader, o: Offer, m: Mode)
    requires ReadsText(k, six) && IsRouted(m) && o.tunnelCIDR == Defaults(m).tunnelCIDR
    requires o.gatewayAddress == Defaults(m).gatewayAddress && o.edgeAddress == Defaults(m).edgeAddress
    requires o.mtu == Defaults(m).mtu && o.routeTable == Defaults(m).routeTable
    ensures AddressError(k, o) == None
  {
    DefaultsValid(six, m);
  }

  lemma SshPartClear(k: Checks, o: Offer)
    requires o.sshUser == SSH_USER && k.sshHostKey(o.sshHostKey) && IsPort(o.sshPort) && o.sshPort == o.endpointPort
    requires o.socksPort == Defaults(SshSocks).socksPort
    ensures SshError(k, o) == None
  {
  }

  lemma TransportPartClear(k: Checks, o: Offer, opts: InitOptions, id: string, path: string, s: Secrets)
    requires FromOptions(o, opts, id, path, s) && OptionsAccepted(k, opts)
    requires IsHexPath(path) && UsesWireGuard(opts.mode)
    requires k.wgKey(s.publicKey) && k.wgKey(s.presharedKey)
    requires opts.mode == Ara ==> k.mtls(s.mtlsCert, s.mtlsKey, path)
    ensures WireGuardError(k, o) == None && (o.mode == Ara ==> AraError(k, o) == None)
  {
  }

  lemma OptionsClear(k: Checks, six: SixReader, o: Offer, opts: InitOptions, id: string, path: string, s: Secrets)
    requires ReadsText(k, six) && FromOptions(o, opts, id, path, s) && IsMode(opts.mode) && OptionsAccepted(k, opts)
    requires IsInstanceID(id) && IsHexPath(path)
    requires UsesWireGuard(opts.mode) ==> k.wgKey(s.publicKey) && k.wgKey(s.presharedKey)
    requires opts.mode == Ara ==> k.mtls(s.mtlsCert, s.mtlsKey, path)
    requires opts.mode == SshSocks ==> k.sshHostKey(s.sshHostKey)
    ensures Clear(k, o)
  {
    match opts.mode {
      case Ara =>
        RoutedPartClear(k, six, o, Ara);
        TransportPartClear(k, o, opts, id, path, s);
      case WireGuard =>
        RoutedPartClear(k, six, o, WireGuard);
        TransportPartClear(k, o, opts, id, path, s);
      case Ipip => RoutedPartClear(k, six, o, Ipip);
      case SshSocks => SshPartClear(k, o);
    }
  }

  /** Let's Encrypt certificates are for names: with the ACME mode an accepted endpoint is a host name of the grammar;
      and in IPIP mode it is an IPv4 address. */
  lemma AcceptedEndpoint(k: Checks, six: SixReader, opts: InitOptions)
    requires ReadsText(k, six) && OptionsAccepted(k, opts)
    ensures opts.mode == Ara && opts.tlsMode == Acme ==> IsHostName(TrimSpace(opts.endpointHost))
    ensures opts.mode == Ipip ==> ParseIP(six, TrimSpace(opts.endpointHost)).Four?
    ensures opts.endpointPort == 0 || 1 <= opts.endpointPort <= 65535
  {
    ValidatorIsGrammar(six, TrimSpace(opts.endpointHost));
    TrimIdempotent(opts.endpointHost);
  }

  /** Every accepted option set with well-formed generated material yields an offer that the edge will accept. */
  lemma OfferComplete(k: Checks, six: SixReader, opts: InitOptions, idBytes: seq<byte>, pathBytes: seq<byte>,
                      wan: string, s: Secrets)
    requires ReadsText(k, six) && IsMode(opts.mode) && OptionsAccepted(k, opts) && |idBytes| == 8 && |pathBytes| == 24
    requires UsesWireGuard(opts.mode) ==> k.wgKey(s.publicKey) && k.wgKey(s.presharedKey)
    requires opts.mode == Ara ==> k.mtls(s.mtlsCert, s.mtlsKey, Hex(pathBytes))
    requires opts.mode == SshSocks ==> k.sshHostKey(s.sshHostKey)
    ensures ValidateOffer(k, MakeOffer(InitConfig(opts, Hex(idBytes), Hex(pathBytes), wan, s), s)) == None
  {
    var id, path := Hex(idBytes), Hex(pathBytes);
    HexShape(idBytes);
    HexShape(pathBytes);
    OfferFields(opts, id, path, wan, s);
    var o := MakeOffer(InitConfig(opts, id, path, wan, s), s);
    OptionsClear(k, six, o, opts, id, path, s);
    ValidIsClear(k, o);
  }

  /** The response a joining edge builds from an offer is valid for the configuration that issued the offer. */
  lemma ResponseComplete(k: Checks, cfg: Config, s: Secrets, e: EdgeKeys)
    requires UsesWireGuard(cfg.mode) ==> k.wgKey(e.publicKey)
    requires cfg.mode == Ipip ==> k.ip(e.localIP).Four?
    requires cfg.mode == SshSocks ==> "ssh-" <= e.sshPublicKey
    ensures ValidateResponse(k, MakeResponse(MakeOffer(cfg, s), e), cfg) == None
  {
  }

  /** A response is tied to one instance and mode: two configurations that both accept it agree on both. */
  lemma ResponseNamesItsInstance(k: Checks, r: Response, a: Config, b: Config)
    requires ValidateResponse(k, r, a) == None && ValidateResponse(k, r, b) == None
    ensures a.instanceID == b.instanceID && a.mode == b.mode
  {
  }

  /** An accepted routed offer has two different addresses with equal network bits, so at least one host bit, and its
      edge address lies in the network that the gateway masquerades. */
  lemma AcceptedAddresses(k: Checks, o: Offer)
    requires ValidateOffer(k, o) == None && IsRouted(o.mode)
    ensures var net, gateway, edge := k.cidr(o.tunnelCIDR), HostIP(k, o.gatewayAddress), HostIP(k, o.edgeAddress);
            && net.FourNet? && gateway.Four? && edge.Four?
            && gateway.a != edge.a
            && Contains(net.net, gateway.a) && Contains(net.net, edge.a)
            && net.net.bits <= 31
  {
    var net := k.cidr(o.tunnelCIDR);
    DistinctMembers(net.net, HostIP(k, o.gatewayAddress).a, HostIP(k, o.edgeAddress).a);
  }

  lemma AcceptedNumbers(k: Checks, o: Offer)
    requires ValidateOffer(k, o) == None
    ensures IsPort(o.endpointPort) && (IsRouted(o.mode) ==> o.routeTable >= 1 && 576 <= o.mtu <= 1500)
  {
    ValidIsClear(k, o);
  }
}
