/** The OFFER/RESPONSE protocol: one server's commands (InitOutside, Join, Accept, Uninstall, Doctor in
    internal/app/app.go), and every run of any number of servers whose tokens may be lost, copied, replayed or handed
    to the wrong server. */
module Pairing {
  import opened Text
  import opened Address
  import opened HostName
  import opened Model
  import AuthorizedKeys
  import Render

  /** The tunnel's files, as far as they name a peer: the WireGuard file's peer key, the IPIP script's remote endpoint,
      the host key in Hamara's known_hosts, and the authorized key with the configured instance's marker. */
  datatype Files = Files(wgPeer: Option<string>, script: Option<string>, knownHost: Option<string>,
                         authorized: Option<string>)

  /** What a server keeps. */
  datatype Local = Local(config: Option<Config>, files: Files)

  const NO_FILES := Files(None, None, None, None)
  const BLANK := Local(None, NO_FILES)

  /** The peer that a gateway of mode `m` reads from its files. */
  function GatewayPeer(f: Files, m: Mode): Option<string> {
    match m
    case Ipip => f.script
    case SshSocks => f.authorized
    case OtherMode(_) => None
    case _ => f.wgPeer
  }

  /** The peer that an edge of mode `m` reads from its files. */
  function EdgePeer(f: Files, m: Mode): Option<string> {
    if m == SshSocks then f.knownHost else GatewayPeer(f, m)
  }

  /** The peer that a response installs on the gateway; None when authorizeSSHPeer refuses its key, or the mode is
      none of the program's. */
  function PeerText(m: Mode, r: Response): Option<string> {
    match m
    case Ipip => Some(r.edgeEndpointIP)
    case SshSocks => AuthorizedKeys.KeyOf(r.sshPublicKey)
    case OtherMode(_) => None
    case _ => Some(TrimSpace(r.edgePublicKey))
  }

  /** The gateway's files after a response. */
  function WithResponse(f: Files, m: Mode, r: Response): Files {
    match m
    case Ipip => f.(script := PeerText(m, r))
    case SshSocks => f.(authorized := PeerText(m, r))
    case OtherMode(_) => f
    case _ => f.(wgPeer := PeerText(m, r))
  }

  /** The gateway as an offer names it to the edge. */
  function OfferPeer(o: Offer): string {
    match o.mode
    case Ipip => o.endpointHost
    case SshSocks => TrimSpace(o.sshHostKey)
    case _ => TrimSpace(o.gatewayPublicKey)
  }

  /** The edge's files after an offer. */
  function WithOffer(f: Files, o: Offer): Files {
    match o.mode
    case Ipip => f.(script := Some(OfferPeer(o)))
    case SshSocks => f.(knownHost := Some(OfferPeer(o)))
    case OtherMode(_) => f
    case _ => f.(wgPeer := Some(OfferPeer(o)))
  }

  /** What InitOutside generates or finds. The instance ID is 8 random bytes in hexadecimal; `admitted` says that it
      runs as root and can read the configuration if there is one. */
  datatype Generated = Generated(id: string, araPath: string, wan: string, secrets: Secrets, admitted: bool)

  /** An initialisation writes one of the files, the WireGuard file without a peer; a script that a failed join left
      behind stays. */
  function Emptied(m: Mode, f: Files): Files {
    if UsesWireGuard(m) then f.(wgPeer := None) else f
  }

  /** What a run of InitOutside that goes on past its refusals starts from: a forced one has uninstalled. */
  function InitBase(a: Local): Local {
    if a.config.Some? then BLANK else a
  }

  function Initialised(o: InitOptions, x: Generated, a: Local): Local {
    Local(Some(InitConfig(o, x.id, x.araPath, x.wan, x.secrets)), Emptied(o.mode, InitBase(a).files))
  }

  // ---- what the files' peers are, in the words of the two ends ----

  /** `peer` is the edge that holds `keys`: its WireGuard key, its address, or the first two fields of its SSH key. */
  predicate NamesEdge(m: Mode, keys: EdgeKeys, peer: string) {
    match m
    case Ipip => peer == keys.localIP
    case SshSocks =>
      var fields := AuthorizedKeys.Fields(keys.sshPublicKey);
      |fields| >= 2 && fields[0] == "ssh-ed25519" && peer == "ssh-ed25519" + " " + fields[1]
    case OtherMode(_) => false
    case _ => peer == TrimSpace(keys.publicKey)
  }

  /** `peer` is the gateway that issued `cfg` with these secrets: its WireGuard key, its address, or its host key. */
  predicate NamesGateway(cfg: Config, s: Secrets, peer: string) {
    match cfg.mode
    case Ipip => peer == cfg.endpointHost
    case SshSocks => peer == TrimSpace(cfg.sshHostKey)
    case OtherMode(_) => false
    case _ => peer == TrimSpace(s.publicKey)
  }

  lemma PeerTextNames(o: Offer, keys: EdgeKeys)
    ensures PeerText(o.mode, MakeResponse(o, keys)).Some? ==>
              NamesEdge(o.mode, keys, PeerText(o.mode, MakeResponse(o, keys)).value)
  {
    AuthorizedKeys.FieldsTrimmed(keys.sshPublicKey);
  }

  lemma OfferPeerNames(cfg: Config, s: Secrets)
    requires IsMode(cfg.mode)
    ensures NamesGateway(cfg, s, OfferPeer(MakeOffer(cfg, s)))
  {
  }

  /** The gateway's renderers print that very peer. */
  lemma EdgeIsRendered(k: Checks, p: Render.Pairing, peer: string)
    requires p.Completed(k) && Render.KeysAreText(k) && NamesEdge(p.issued.mode, p.edge, peer)
    ensures UsesWireGuard(p.issued.mode) ==>
              p.GatewayFile(k).Some? && p.GatewayFile(k).value.peer.Some?
              && p.GatewayFile(k).value.peer.value.publicKey == peer
    ensures p.issued.mode == Ipip ==> Render.IpipScript(p.Gateway()).remoteEP == peer
  {
    if UsesWireGuard(p.issued.mode) {
      Render.GatewayFileFields(k, p);
    } else if p.issued.mode == Ipip {
      Render.IpipMirrored(k, p);
    }
  }

  /** And so do the edge's. */
  lemma GatewayIsRendered(k: Checks, p: Render.Pairing, peer: string)
    requires p.Completed(k) && Render.KeysAreText(k) && NamesGateway(p.issued, p.secrets, peer)
    ensures UsesWireGuard(p.issued.mode) ==>
              p.IranFile(k).Some? && p.IranFile(k).value.peer.Some?
              && p.IranFile(k).value.peer.value.publicKey == peer
    ensures p.issued.mode == Ipip ==> Render.IpipScript(p.Iran()).remoteEP == peer
    ensures p.issued.mode == SshSocks ==> Render.KnownHosts(p.Iran()).key == peer
  {
    if UsesWireGuard(p.issued.mode) {
      Render.IranFileFields(k, p);
    } else if p.issued.mode == Ipip {
      Render.IpipMirrored(k, p);
    } else {
      Render.SshFits(k, p);
      Render.ConfigTravels(k, p);
    }
  }

  // ---- what each command may do to one server ----

  ghost predicate InitRel(k: Checks, o: InitOptions, x: Generated, a: Local, offer: Option<Offer>, b: Local) {
    if !x.admitted || !IsMode(o.mode) || (a.config.Some? && !o.force) then b == a && offer.None?
    else if !OptionsAccepted(k, o) then b == InitBase(a) && offer.None?
    else
      var done, made := Initialised(o, x, a), MakeOffer(InitConfig(o, x.id, x.araPath, x.wan, x.secrets), x.secrets);
      && b in {InitBase(a), Local(None, done.files), done}
      && (offer.Some? ==> b == done && offer.value == made && ValidateOffer(k, made) == None)
  }

  ghost predicate JoinRel(k: Checks, o: Offer, wan: string, e: EdgeKeys, a: Local, response: Option<Response>, b: Local)
  {
    if a.config.Some? || ValidateOffer(k, o).Some? then b == a && response.None?
    else
      var joined := Local(Some(JoinConfig(o, wan, e.localIP)), WithOffer(a.files, o));
      && b in {a, Local(None, joined.files), joined}
      && (response.Some? ==> b == joined && response.value == MakeResponse(o, e))
  }

  /** The gateway is not asked for a response of this kind, or its key is refused. */
  predicate Refuses(k: Checks, r: Response, a: Local) {
    || a.config.None? || a.config.value.role != Outside || ValidateResponse(k, r, a.config.value).Some?
    || (IsMode(a.config.value.mode) && PeerText(a.config.value.mode, r).None?)
  }

  ghost predicate AcceptRel(k: Checks, r: Response, a: Local, ok: bool, b: Local) {
    if Refuses(k, r, a) then !ok && b == a
    else
      var accepted := Local(Some(AcceptConfig(a.config.value, r)), WithResponse(a.files, a.config.value.mode, r));
      && b in {a, Local(a.config, accepted.files), accepted}
      && (ok ==> b == accepted)
  }

  /** One server. Every command may stop with an error after any of its steps, except that `reliable` says that no
      external step of this one fails. */
  class Server {
    var local: Local

    constructor ()
      ensures local == BLANK
    {
      local := BLANK;
    }

    /** Uninstall, or its refusal when it does not run as root or cannot read the configuration. */
    method Uninstall(admitted: bool)
      modifies this
      ensures local == if admitted then BLANK else old(local)
    {
      if admitted {
        local := BLANK;
      }
    }

    /** The old configuration is removed before the new endpoint is checked: it is lost whenever a forced run of a known
        mode begins, and with a bad endpoint nothing replaces it. */
    method InitOutside(k: Checks, o: InitOptions, x: Generated, reliable: bool) returns (offer: Option<Offer>)
      modifies this
      ensures InitRel(k, o, x, old(local), offer, local)
      ensures reliable && x.admitted && IsMode(o.mode) && OptionsAccepted(k, o)
              && (old(local).config.None? || o.force) ==>
                && local.config == Some(InitConfig(o, x.id, x.araPath, x.wan, x.secrets))
                && (offer.Some? <==> ValidateOffer(k, MakeOffer(local.config.value, x.secrets)) == None)
    {
      offer := None;
      if !x.admitted || !IsMode(o.mode) { return; }
      if local.config.Some? {
        if !o.force { return; }
        Uninstall(x.admitted);
      }
      if !OptionsAccepted(k, o) { return; }
      var prepared: bool := *; // packages, conflicts, keys, certificates, SSH account
      if !prepared && !reliable { return; }
      var cfg := InitConfig(o, x.id, x.araPath, x.wan, x.secrets);
      local := local.(files := Emptied(o.mode, local.files));
      var saved: bool := *;
      if !saved && !reliable { return; }
      local := local.(config := Some(cfg));
      var activated: bool := *;
      if !activated && !reliable { return; }
      var made := MakeOffer(cfg, x.secrets);
      if ValidateOffer(k, made).Some? { return; }
      var written: bool := *;
      if written || reliable {
        offer := Some(made);
      }
    }

    method Join(k: Checks, o: Offer, wan: string, e: EdgeKeys, reliable: bool) returns (response: Option<Response>)
      modifies this
      ensures JoinRel(k, o, wan, e, old(local), response, local)
      ensures reliable && old(local).config.None? && ValidateOffer(k, o) == None ==>
                && local.config == Some(JoinConfig(o, wan, e.localIP)) && response == Some(MakeResponse(o, e))
                && EdgePeer(local.files, o.mode) == Some(OfferPeer(o))
    {
      response := None;
      if local.config.Some? || ValidateOffer(k, o).Some? { return; }
      var prepared: bool := *;
      if !prepared && !reliable { return; }
      local := local.(files := WithOffer(local.files, o));
      var saved: bool := *;
      if !saved && !reliable { return; }
      local := local.(config := Some(JoinConfig(o, wan, e.localIP)));
      var activated: bool := *;
      if activated || reliable {
        response := Some(MakeResponse(o, e));
      }
    }

    /** The tunnel's files are written before the configuration is saved. */
    method Accept(k: Checks, r: Response, reliable: bool) returns (ok: bool)
      modifies this
      ensures AcceptRel(k, r, old(local), ok, local)
      ensures reliable ==> (ok <==> !Refuses(k, r, old(local)))
    {
      ok := false;
      if local.config.None? { return; }
      var cfg := local.config.value;
      if cfg.role != Outside || ValidateResponse(k, r, cfg).Some? { return; }
      if IsMode(cfg.mode) {
        var written: bool := *;
        if PeerText(cfg.mode, r).None? || (!written && !reliable) { return; }
        local := local.(files := WithResponse(local.files, cfg.mode, r));
        var restarted: bool := *;
        if !restarted && !reliable { return; }
      }
      var saved: bool := *;
      if saved || reliable {
        local := local.(config := Some(AcceptConfig(cfg, r)));
        ok := true;
      }
    }

    /** A successful egress test on the edge marks its configuration ready. */
    method Doctor()
      modifies this
      ensures local == old(local)
              || (old(local).config.Some? && old(local).config.value.role == Iran
                  && local == old(local).(config := Some(old(local).config.value.(state := Ready))))
    {
      var reached: bool := *;
      if local.config.Some? && local.config.value.role == Iran && reached && local.config.value.state != Ready {
        local := local.(config := Some(local.config.value.(state := Ready)));
      }
    }
  }

  // ---- runs ----

  type Node = nat

  /** An initialisation that saved its configuration. */
  datatype Issue = Issue(node: Node, config: Config, secrets: Secrets)

  /** A join that produced a response. */
  datatype Joined = Joined(node: Node, offer: Offer, keys: EdgeKeys)

  /** All servers, the instance IDs ever drawn, and the tokens in the world. Tokens are never removed, so losing one is
      not delivering it, and replaying or misdelivering one is delivering it again or elsewhere. */
  datatype System = System(servers: map<Node, Local>, drawn: set<string>, issues: set<Issue>, offered: set<Issue>,
                         joins: set<Joined>)

  function Of(s: System, n: Node): Local {
    if n in s.servers then s.servers[n] else BLANK
  }

  datatype Event =
    | Init(n: Node, options: InitOptions, x: Generated)
    | DoJoin(n: Node, token: Issue, wan: string, keys: EdgeKeys)
    | DoAccept(n: Node, answer: Joined)
    | DoUninstall(n: Node, admitted: bool)
    | DoDoctor(n: Node)

  /** The books after an initialisation: the fresh ID is drawn, and a saved configuration and a printed token are
      recorded. */
  ghost predicate Recorded(s: System, n: Node, o: InitOptions, x: Generated, offer: Option<Offer>, t: System) {
    var issue := Issue(n, InitConfig(o, x.id, x.araPath, x.wan, x.secrets), x.secrets);
    && x.id !in s.drawn && t.drawn == s.drawn + {x.id}
    && t.issues == s.issues + (if Of(t, n) != Of(s, n) && Of(t, n).config.Some? then {issue} else {})
    && t.offered == s.offered + (if offer.Some? then {issue} else {})
    && t.joins == s.joins
  }

  ghost predicate Next(k: Checks, s: System, e: Event, t: System) {
    var a, b := Of(s, e.n), Of(t, e.n);
    && (forall m :: m != e.n ==> Of(t, m) == Of(s, m))
    && match e
       case Init(n, o, x) =>
         exists offer :: InitRel(k, o, x, a, offer, b) && Recorded(s, n, o, x, offer, t)
       case DoJoin(n, token, wan, keys) =>
         var offer := MakeOffer(token.config, token.secrets);
         exists response ::
           && token in s.offered && JoinRel(k, offer, wan, keys, a, response, b)
           && t.joins == s.joins + (if response.Some? then {Joined(n, offer, keys)} else {})
           && t.drawn == s.drawn && t.issues == s.issues && t.offered == s.offered
       case DoAccept(n, answer) =>
         exists ok ::
           && answer in s.joins && AcceptRel(k, MakeResponse(answer.offer, answer.keys), a, ok, b)
           && t.drawn == s.drawn && t.issues == s.issues && t.offered == s.offered && t.joins == s.joins
       case DoUninstall(_, admitted) =>
         b == (if admitted then BLANK else a)
         && t.drawn == s.drawn && t.issues == s.issues && t.offered == s.offered && t.joins == s.joins
       case DoDoctor(_) =>
         && (b == a || (a.config.Some? && a.config.value.role == Iran
                        && b == a.(config := Some(a.config.value.(state := Ready)))))
         && t.drawn == s.drawn && t.issues == s.issues && t.offered == s.offered && t.joins == s.joins
  }

  const START := System(map[], {}, {}, {}, {})

  ghost predicate IsRun(k: Checks, states: seq<System>, events: seq<Event>) {
    && |states| == |events| + 1 && states[0] == START
    && forall i :: 0 <= i < |events| ==> Next(k, states[i], events[i], states[i + 1])
  }

  // ---- the invariant ----

  /** `j` answered an offer of `i`. */
  predicate Answers(j: Joined, i: Issue) {
    j.offer == MakeOffer(i.config, i.secrets)
  }

  /** A gateway's configuration is the one it issued, untouched or completed by somebody's answer to it, and the peer
      in its tunnel files is such an answer's; an IPIP script is looked at only once an answer was accepted. A completed
      gateway has such a peer. */
  ghost predicate Gateway(k: Checks, s: System, n: Node, i: Issue) {
    var l, peer := Of(s, n), GatewayPeer(Of(s, n).files, i.config.mode);
    && i in s.issues && i.node == n
    && (l.config == Some(i.config)
        || exists j ::
             CompletedBy(k, s, i, j) && l.config == Some(AcceptConfig(i.config, MakeResponse(j.offer, j.keys))))
    && (l.config != Some(i.config) ==> peer.Some?)
    && (peer.Some? && (i.config.mode == Ipip ==> l.config != Some(i.config)) ==>
          exists j :: CompletedBy(k, s, i, j) && peer == PeerText(i.config.mode, MakeResponse(j.offer, j.keys)))
  }

  ghost predicate CompletedBy(k: Checks, s: System, i: Issue, j: Joined) {
    && j in s.joins && Answers(j, i) && i in s.offered
    && ValidateOffer(k, j.offer) == None
    && ValidateResponse(k, MakeResponse(j.offer, j.keys), i.config) == None
  }

  predicate IsGateway(l: Local) {
    l.config.Some? && l.config.value.role == Outside
  }

  predicate GatewayOf(l: Local, id: string) {
    IsGateway(l) && l.config.value.instanceID == id
  }

  predicate AsIssued(c: Config) {
    c.role == Outside && c.state == Pending
  }

  /** A server's instance was drawn; an unconfigured server authorizes nobody. */
  predicate Tidy(s: System, l: Local) {
    if l.config.Some? then l.config.value.instanceID in s.drawn else l.files.authorized.None?
  }

  ghost predicate Inv(k: Checks, s: System) {
    && s.offered <= s.issues
    && (forall i :: i in s.issues ==> i.config.instanceID in s.drawn && AsIssued(i.config))
    && (forall i, j :: i in s.issues && j in s.issues && i.config.instanceID == j.config.instanceID ==> i == j)
    && (forall j :: j in s.joins ==> ValidateOffer(k, j.offer) == None && exists i :: i in s.offered && Answers(j, i))
    && (forall n :: IsGateway(Of(s, n)) ==> exists i :: Gateway(k, s, n, i))
    && (forall n :: Tidy(s, Of(s, n)))
  }

  lemma GatewayMonotone(k: Checks, s: System, t: System, n: Node, i: Issue)
    requires Gateway(k, s, n, i) && Of(t, n) == Of(s, n)
    requires s.issues <= t.issues && s.offered <= t.offered && s.joins <= t.joins
    ensures Gateway(k, t, n, i)
  {
    forall j | CompletedBy(k, s, i, j) ensures CompletedBy(k, t, i, j) {
    }
  }

  /** The servers that an event leaves alone keep their part of the invariant. */
  lemma OthersKept(k: Checks, s: System, e: Event, t: System)
    requires Inv(k, s) && Next(k, s, e, t)
    ensures s.issues <= t.issues && s.offered <= t.offered && s.joins <= t.joins && s.drawn <= t.drawn
    ensures forall n :: n != e.n && IsGateway(Of(t, n)) ==> exists i :: Gateway(k, t, n, i)
    ensures forall n :: n != e.n ==> Tidy(t, Of(t, n))
  {
    forall n | n != e.n && IsGateway(Of(t, n)) ensures exists i :: Gateway(k, t, n, i) {
      var i :| Gateway(k, s, n, i);
      GatewayMonotone(k, s, t, n, i);
    }
  }

  lemma SameKept(k: Checks, s: System, e: Event, t: System)
    requires Inv(k, s) && Next(k, s, e, t) && Of(t, e.n) == Of(s, e.n)
    ensures IsGateway(Of(t, e.n)) ==> exists i :: Gateway(k, t, e.n, i)
  {
    OthersKept(k, s, e, t);
    if IsGateway(Of(t, e.n)) {
      var i :| Gateway(k, s, e.n, i);
      GatewayMonotone(k, s, t, e.n, i);
    }
  }

  lemma InitShape(o: InitOptions, x: Generated)
    ensures var cfg := InitConfig(o, x.id, x.araPath, x.wan, x.secrets);
            cfg.instanceID == x.id && cfg.mode == o.mode && AsIssued(cfg) && cfg.wan == x.wan && cfg.iface == INTERFACE
  {
  }

  lemma GatewayID(k: Checks, s: System, n: Node, i: Issue)
    requires Gateway(k, s, n, i) && Of(s, n).config.Some?
    ensures Of(s, n).config.value.instanceID == i.config.instanceID
  {
  }

  /** The books after an initialisation: a token was printed only for a configuration that was saved just now, since
      a gateway's old configuration has an ID that was drawn before. */
  lemma InitBooks(k: Checks, s: System, e: Event, t: System)
    requires Inv(k, s) && Next(k, s, e, t) && e.Init?
    ensures t.offered <= t.issues
    ensures forall i :: i in t.issues && i !in s.issues ==> i.config.instanceID == e.x.id
  {
    var a, b := Of(s, e.n), Of(t, e.n);
    InitShape(e.options, e.x);
    var offer :| InitRel(k, e.options, e.x, a, offer, b) && Recorded(s, e.n, e.options, e.x, offer, t);
    if b == a && offer.Some? {
      assert false;
    }
  }

  lemma InitGateway(k: Checks, s: System, e: Event, t: System)
    requires Inv(k, s) && Next(k, s, e, t) && e.Init? && IsGateway(Of(t, e.n))
    ensures exists i :: Gateway(k, t, e.n, i)
  {
    if Of(t, e.n) == Of(s, e.n) {
      SameKept(k, s, e, t);
    } else {
      var cfg := InitConfig(e.options, e.x.id, e.x.araPath, e.x.wan, e.x.secrets);
      assert Gateway(k, t, e.n, Issue(e.n, cfg, e.x.secrets));
    }
  }

  lemma InitTidy(k: Checks, s: System, e: Event, t: System)
    requires Inv(k, s) && Next(k, s, e, t) && e.Init?
    ensures Tidy(t, Of(t, e.n)) && s.drawn <= t.drawn
  {
    InitShape(e.options, e.x);
    assert Tidy(s, Of(s, e.n));
  }

  lemma InitStep(k: Checks, s: System, e: Event, t: System)
    requires Inv(k, s) && Next(k, s, e, t) && e.Init?
    ensures Inv(k, t)
  {
    OthersKept(k, s, e, t);
    InitShape(e.options, e.x);
    InitBooks(k, s, e, t);
    InitTidy(k, s, e, t);
    if IsGateway(Of(t, e.n)) {
      InitGateway(k, s, e, t);
    }
  }

  /** What a join may have done: nothing to a configured server, else an edge's configuration of a drawn instance. */
  lemma JoinLocal(k: Checks, s: System, e: Event, t: System)
    requires Inv(k, s) && Next(k, s, e, t) && e.DoJoin?
    ensures Of(t, e.n) == Of(s, e.n) || !IsGateway(Of(t, e.n))
    ensures Tidy(t, Of(t, e.n))
  {
  }

  lemma JoinBooks(k: Checks, s: System, e: Event, t: System)
    requires Inv(k, s) && Next(k, s, e, t) && e.DoJoin?
    ensures t.drawn == s.drawn && t.issues == s.issues && t.offered == s.offered && e.token in s.offered
    ensures forall j :: j in t.joins && j !in s.joins ==> ValidateOffer(k, j.offer) == None && Answers(j, e.token)
  {
  }

  lemma JoinStep(k: Checks, s: System, e: Event, t: System)
    requires Inv(k, s) && Next(k, s, e, t) && e.DoJoin?
    ensures Inv(k, t)
  {
    OthersKept(k, s, e, t);
    JoinLocal(k, s, e, t);
    JoinBooks(k, s, e, t);
    if Of(t, e.n) == Of(s, e.n) {
      SameKept(k, s, e, t);
    }
  }

  /** Accepting again replaces the earlier answer and nothing else. */
  lemma AcceptTwice(k: Checks, c: Config, q: Response, r: Response)
    requires IsMode(c.mode)
    ensures AcceptConfig(AcceptConfig(c, q), r) == AcceptConfig(c, r)
    ensures ValidateResponse(k, r, AcceptConfig(c, q)) == ValidateResponse(k, r, c)
    ensures AcceptConfig(c, q).instanceID == c.instanceID && AcceptConfig(c, q).mode == c.mode
    ensures AcceptConfig(c, q).role == c.role && AcceptConfig(c, q).state == Ready
  {
  }

  /** A gateway's own configuration keeps the instance, mode and role it was issued with. */
  lemma GatewayIdentity(k: Checks, s: System, n: Node, i: Issue, r: Response)
    requires Gateway(k, s, n, i) && Of(s, n).config.Some? && IsMode(i.config.mode)
    ensures var c := Of(s, n).config.value;
            && c.instanceID == i.config.instanceID && c.mode == i.config.mode && c.role == i.config.role
            && AcceptConfig(c, r) == AcceptConfig(i.config, r)
            && ValidateResponse(k, r, c) == ValidateResponse(k, r, i.config)
  {
    if Of(s, n).config != Some(i.config) {
      var j :|
        CompletedBy(k, s, i, j) && Of(s, n).config == Some(AcceptConfig(i.config, MakeResponse(j.offer, j.keys)));
      AcceptTwice(k, i.config, MakeResponse(j.offer, j.keys), r);
    }
  }

  /** A response is made for the instance and mode of the offer's issuer. */
  lemma ResponseNames(j: Joined, o: Issue)
    requires Answers(j, o)
    ensures var r := MakeResponse(j.offer, j.keys);
            r.instanceID == o.config.instanceID && r.mode == o.config.mode && j.offer.mode == o.config.mode
  {
  }

  lemma AcceptedNames(k: Checks, r: Response, c: Config)
    requires ValidateResponse(k, r, c) == None
    ensures r.instanceID == c.instanceID && r.mode == c.mode
  {
  }

  /** The response that a gateway accepts was made from its own current offer: instance IDs are unique. */
  lemma AnswerIsOwn(k: Checks, s: System, n: Node, i: Issue, j: Joined)
    requires Inv(k, s) && Gateway(k, s, n, i) && j in s.joins && Of(s, n).config.Some?
    requires ValidateResponse(k, MakeResponse(j.offer, j.keys), Of(s, n).config.value) == None
    ensures IsMode(i.config.mode) && CompletedBy(k, s, i, j)
  {
    var r := MakeResponse(j.offer, j.keys);
    var o :| o in s.offered && Answers(j, o);
    ResponseNames(j, o);
    AcceptedNames(k, r, Of(s, n).config.value);
    GatewayID(k, s, n, i);
    assert o == i;
    ValidIsClear(k, j.offer);
    GatewayIdentity(k, s, n, i, r);
  }

  /** What an accept that changed something did. */
  lemma AcceptLocal(k: Checks, s: System, e: Event, t: System)
    requires Next(k, s, e, t) && e.DoAccept? && Of(t, e.n) != Of(s, e.n)
    ensures var a, b, r := Of(s, e.n), Of(t, e.n), MakeResponse(e.answer.offer, e.answer.keys);
            && IsGateway(a) && ValidateResponse(k, r, a.config.value) == None
            && b.files == WithResponse(a.files, a.config.value.mode, r)
            && b.config in {a.config, Some(AcceptConfig(a.config.value, r))}
            && (IsMode(a.config.value.mode) ==> PeerText(a.config.value.mode, r).Some?)
  {
  }

  lemma AcceptBooks(k: Checks, s: System, e: Event, t: System)
    requires Next(k, s, e, t) && e.DoAccept?
    ensures t.drawn == s.drawn && t.issues == s.issues && t.offered == s.offered && t.joins == s.joins
    ensures e.answer in s.joins
  {
  }

  lemma WithResponsePeer(f: Files, m: Mode, r: Response)
    requires IsMode(m)
    ensures GatewayPeer(WithResponse(f, m, r), m) == PeerText(m, r)
  {
  }

  lemma AcceptGateway(k: Checks, s: System, e: Event, t: System)
    requires Inv(k, s) && Next(k, s, e, t) && e.DoAccept? && Of(t, e.n) != Of(s, e.n)
    ensures exists i :: Gateway(k, t, e.n, i)
  {
    var r := MakeResponse(e.answer.offer, e.answer.keys);
    AcceptLocal(k, s, e, t);
    AcceptBooks(k, s, e, t);
    var i :| Gateway(k, s, e.n, i);
    AnswerIsOwn(k, s, e.n, i, e.answer);
    GatewayIdentity(k, s, e.n, i, r);
    WithResponsePeer(Of(s, e.n).files, i.config.mode, r);
    forall j | CompletedBy(k, s, i, j) ensures CompletedBy(k, t, i, j) {
    }
    assert CompletedBy(k, t, i, e.answer);
    assert Gateway(k, t, e.n, i);
  }

  lemma AcceptTidy(k: Checks, s: System, e: Event, t: System)
    requires Inv(k, s) && Next(k, s, e, t) && e.DoAccept?
    ensures Tidy(t, Of(t, e.n))
  {
    AcceptBooks(k, s, e, t);
    assert Tidy(s, Of(s, e.n));
    if Of(t, e.n) != Of(s, e.n) {
      AcceptLocal(k, s, e, t);
    }
  }

  lemma AcceptStep(k: Checks, s: System, e: Event, t: System)
    requires Inv(k, s) && Next(k, s, e, t) && e.DoAccept?
    ensures Inv(k, t)
  {
    OthersKept(k, s, e, t);
    AcceptBooks(k, s, e, t);
    AcceptTidy(k, s, e, t);
    if Of(t, e.n) == Of(s, e.n) {
      SameKept(k, s, e, t);
    } else {
      AcceptGateway(k, s, e, t);
    }
  }

  lemma StepKeepsInv(k: Checks, s: System, e: Event, t: System)
    requires Inv(k, s) && Next(k, s, e, t)
    ensures Inv(k, t)
  {
    match e {
      case Init(_, _, _) => InitStep(k, s, e, t);
      case DoJoin(_, _, _, _) => JoinStep(k, s, e, t);
      case DoAccept(_, _) => AcceptStep(k, s, e, t);
      case DoUninstall(_, _) =>
        OthersKept(k, s, e, t);
        if Of(t, e.n) == Of(s, e.n) {
          SameKept(k, s, e, t);
        }
      case DoDoctor(_) =>
        OthersKept(k, s, e, t);
        if Of(t, e.n) == Of(s, e.n) {
          SameKept(k, s, e, t);
        }
    }
  }

  lemma {:induction false} InvAlways(k: Checks, states: seq<System>, events: seq<Event>, i: nat)
    requires IsRun(k, states, events) && i < |states|
    ensures Inv(k, states[i])
  {
    if i > 0 {
      InvAlways(k, states, events, i - 1);
      StepKeepsInv(k, states[i - 1], events[i - 1], states[i]);
    }
  }

  // ---- what the protocol guarantees ----

  /** The pairing that an issue and an answer to it make. */
  function PairOf(i: Issue, j: Joined, wan: string, gatewayPrivate: string, edgePrivate: string): Render.Pairing {
    Render.Pairing(i.config, i.secrets, j.keys, wan, gatewayPrivate, edgePrivate)
  }

  /** Issue `i` of server `n` was completed by answer `j`, and `n`'s configuration is the completed one. */
  ghost predicate PairedBy(k: Checks, s: System, n: Node, i: Issue, j: Joined) {
    CompletedBy(k, s, i, j) && i.node == n && Of(s, n).config == Some(PairOf(i, j, "", "", "").Gateway())
  }

  lemma ReadyGatewayPaired(k: Checks, s: System, n: Node) returns (i: Issue, j: Joined)
    requires Inv(k, s) && IsGateway(Of(s, n)) && Of(s, n).config.value.state == Ready
    ensures PairedBy(k, s, n, i, j)
  {
    i :| Gateway(k, s, n, i);
    assert Of(s, n).config != Some(i.config);
    j :| CompletedBy(k, s, i, j) && Of(s, n).config == Some(AcceptConfig(i.config, MakeResponse(j.offer, j.keys)));
  }

  lemma PairCompletes(k: Checks, s: System, i: Issue, j: Joined, wan: string, gatewayPrivate: string,
                      edgePrivate: string)
    requires Inv(k, s) && CompletedBy(k, s, i, j)
    ensures PairOf(i, j, wan, gatewayPrivate, edgePrivate).Completed(k)
  {
    var p := PairOf(i, j, wan, gatewayPrivate, edgePrivate);
    assert p.Offered() == j.offer && p.Answer() == MakeResponse(j.offer, j.keys);
  }

  /** In every run, a ready gateway was answered by a server that really joined an offer of this very instance and mode,
      its configuration is the one completed by that answer, and the files of the two ends fit together, whatever the
      two private keys and the edge's WAN. */
  lemma ReadyIsPaired(k: Checks, states: seq<System>, events: seq<Event>, at: nat, n: Node)
    requires IsRun(k, states, events) && at < |states| && Render.KeysAreText(k)
    requires IsGateway(Of(states[at], n)) && Of(states[at], n).config.value.state == Ready
    ensures exists i, j :: PairedBy(k, states[at], n, i, j)
    ensures forall i, j, wan, gatewayPrivate, edgePrivate :: PairedBy(k, states[at], n, i, j) ==>
              && PairOf(i, j, wan, gatewayPrivate, edgePrivate).Completed(k)
              && Render.EndsFit(k, PairOf(i, j, wan, gatewayPrivate, edgePrivate))
  {
    var s := states[at];
    InvAlways(k, states, events, at);
    var i0, j0 := ReadyGatewayPaired(k, s, n);
    forall i, j, wan, gatewayPrivate, edgePrivate | PairedBy(k, s, n, i, j)
      ensures PairOf(i, j, wan, gatewayPrivate, edgePrivate).Completed(k)
      ensures Render.EndsFit(k, PairOf(i, j, wan, gatewayPrivate, edgePrivate))
    {
      PairCompletes(k, s, i, j, wan, gatewayPrivate, edgePrivate);
      Render.CompletedEndsFit(k, PairOf(i, j, wan, gatewayPrivate, edgePrivate));
    }
  }

  /** Whatever peer the server's tunnel files hold, it is somebody who joined the server's current instance. */
  ghost predicate PeerJoined(k: Checks, s: System, n: Node)
    requires Of(s, n).config.Some?
  {
    var c, peer := Of(s, n).config.value, GatewayPeer(Of(s, n).files, Of(s, n).config.value.mode);
    peer.Some? ==>
      exists i, j ::
        && CompletedBy(k, s, i, j) && i.node == n && c.instanceID == j.offer.instanceID
        && NamesEdge(c.mode, j.keys, peer.value)
  }

  lemma GatewayMode(k: Checks, s: System, n: Node, i: Issue)
    requires Gateway(k, s, n, i) && Of(s, n).config.Some?
    ensures Of(s, n).config.value.mode == i.config.mode
  {
  }

  lemma GatewayPeerJoined(k: Checks, s: System, n: Node, i: Issue)
    requires Inv(k, s) && Gateway(k, s, n, i) && Of(s, n).config.Some?
    requires Of(s, n).config.value.mode != Ipip || Of(s, n).config.value.state == Ready
    ensures PeerJoined(k, s, n)
    ensures Of(s, n).config.value.state == Ready ==> GatewayPeer(Of(s, n).files, Of(s, n).config.value.mode).Some?
  {
    GatewayMode(k, s, n, i);
    var peer := GatewayPeer(Of(s, n).files, i.config.mode);
    assert i.config.mode == Ipip ==> Of(s, n).config != Some(i.config);
    if peer.Some? {
      var j :| CompletedBy(k, s, i, j) && peer == PeerText(i.config.mode, MakeResponse(j.offer, j.keys));
      ResponseNames(j, i);
      PeerTextNames(j.offer, j.keys);
      GatewayID(k, s, n, i);
      assert CompletedBy(k, s, i, j) && i.node == n;
    }
  }

  /** A ready gateway has a peer in its tunnel files, and it is somebody who joined its current instance; except for
      IPIP that also goes for a peer it has while it is pending, whatever commands have failed. */
  lemma InstalledPeerJoined(k: Checks, states: seq<System>, events: seq<Event>, at: nat, n: Node)
    requires IsRun(k, states, events) && at < |states| && IsGateway(Of(states[at], n))
    requires Of(states[at], n).config.value.mode != Ipip || Of(states[at], n).config.value.state == Ready
    ensures PeerJoined(k, states[at], n)
    ensures Of(states[at], n).config.value.state == Ready ==>
              GatewayPeer(Of(states[at], n).files, Of(states[at], n).config.value.mode).Some?
  {
    InvAlways(k, states, events, at);
    var i :| Gateway(k, states[at], n, i);
    GatewayPeerJoined(k, states[at], n, i);
  }

  /** Every accept that changes a gateway leaves the very edge that made the response as the peer in its files. */
  lemma AcceptInstalls(k: Checks, states: seq<System>, events: seq<Event>, at: nat)
    requires IsRun(k, states, events) && at < |events| && events[at].DoAccept?
    requires Of(states[at + 1], events[at].n) != Of(states[at], events[at].n)
    ensures IsGateway(Of(states[at + 1], events[at].n))
    ensures var l, m := Of(states[at + 1], events[at].n), Of(states[at + 1], events[at].n).config.value.mode;
            GatewayPeer(l.files, m).Some? && NamesEdge(m, events[at].answer.keys, GatewayPeer(l.files, m).value)
  {
    var s, e, t := states[at], events[at], states[at + 1];
    InvAlways(k, states, events, at);
    AcceptLocal(k, s, e, t);
    AcceptBooks(k, s, e, t);
    var i :| Gateway(k, s, e.n, i);
    AnswerIsOwn(k, s, e.n, i, e.answer);
    GatewayIdentity(k, s, e.n, i, MakeResponse(e.answer.offer, e.answer.keys));
    ResponseNames(e.answer, i);
    PeerTextNames(e.answer.offer, e.answer.keys);
  }

  /** While server `n` is a gateway of instance `id`, the peer in its files joined that instance. */
  ghost predicate Honest(k: Checks, s: System, n: Node, id: string) {
    id in s.drawn && (GatewayOf(Of(s, n), id) ==> PeerJoined(k, s, n))
  }

  lemma PeerMonotone(k: Checks, s: System, t: System, n: Node)
    requires Of(s, n).config.Some? && Of(t, n) == Of(s, n) && PeerJoined(k, s, n)
    requires s.offered <= t.offered && s.joins <= t.joins
    ensures PeerJoined(k, t, n)
  {
    var c, peer := Of(s, n).config.value, GatewayPeer(Of(s, n).files, Of(s, n).config.value.mode);
    if peer.Some? {
      var i, j :|
        && CompletedBy(k, s, i, j) && i.node == n && c.instanceID == j.offer.instanceID
        && NamesEdge(c.mode, j.keys, peer.value);
      assert CompletedBy(k, t, i, j);
    }
  }

  lemma AcceptHonest(k: Checks, s: System, e: Event, t: System, id: string)
    requires Inv(k, s) && Next(k, s, e, t) && e.DoAccept? && Of(t, e.n) != Of(s, e.n)
    requires Honest(k, s, e.n, id)
    ensures Honest(k, t, e.n, id)
  {
    AcceptLocal(k, s, e, t);
    AcceptBooks(k, s, e, t);
    var i :| Gateway(k, s, e.n, i);
    var r := MakeResponse(e.answer.offer, e.answer.keys);
    AnswerIsOwn(k, s, e.n, i, e.answer);
    GatewayIdentity(k, s, e.n, i, r);
    ResponseNames(e.answer, i);
    PeerTextNames(e.answer.offer, e.answer.keys);
    assert CompletedBy(k, t, i, e.answer);
  }

  lemma HonestStep(k: Checks, s: System, e: Event, t: System, n: Node, id: string)
    requires Inv(k, s) && Next(k, s, e, t) && Honest(k, s, n, id)
    ensures Honest(k, t, n, id)
  {
    OthersKept(k, s, e, t);
    if Of(t, n) == Of(s, n) {
      if GatewayOf(Of(s, n), id) {
        PeerMonotone(k, s, t, n);
      }
    } else if e.Init? {
      InitShape(e.options, e.x);
    } else if e.DoAccept? {
      AcceptHonest(k, s, e, t, id);
    }
  }

  lemma HonestNext(k: Checks, states: seq<System>, events: seq<Event>, i: nat, n: Node, id: string)
    requires IsRun(k, states, events) && i < |events| && Honest(k, states[i], n, id)
    ensures Honest(k, states[i + 1], n, id)
  {
    InvAlways(k, states, events, i);
    HonestStep(k, states[i], events[i], states[i + 1], n, id);
  }

  /** What holds at one moment and is kept from each to the next holds from then on. */
  lemma {:induction false} Along(states: seq<System>, i: nat, j: nat, holds: System -> bool)
    requires i <= j < |states| && holds(states[i])
    requires forall m :: i <= m < j && holds(states[m]) ==> holds(states[m + 1])
    ensures holds(states[j])
  {
    if i < j {
      Along(states, i, j - 1, holds);
    }
  }

  lemma HonestRun(k: Checks, states: seq<System>, events: seq<Event>, i: nat, j: nat, n: Node, id: string)
    requires IsRun(k, states, events) && i <= j < |states| && Honest(k, states[i], n, id)
    ensures Honest(k, states[j], n, id)
  {
    forall m | i <= m < j && Honest(k, states[m], n, id) ensures Honest(k, states[m + 1], n, id) {
      HonestNext(k, states, events, m, n, id);
    }
    Along(states, i, j, s => Honest(k, s, n, id));
  }

  /** Nobody has joined an instance whose ID was never drawn. */
  lemma NobodyJoinedFresh(k: Checks, s: System, id: string)
    requires Inv(k, s) && id !in s.drawn
    ensures forall j :: j in s.joins ==> j.offer.instanceID != id
  {
    forall j | j in s.joins ensures j.offer.instanceID != id {
      var i :| i in s.offered && Answers(j, i);
      ResponseNames(j, i);
    }
  }

  /** What an initialisation that saves its configuration leaves behind. */
  lemma InitLeaves(k: Checks, s: System, e: Event, t: System)
    requires Inv(k, s) && Next(k, s, e, t) && e.Init? && GatewayOf(Of(t, e.n), e.x.id)
    ensures e.x.id !in s.drawn && t.joins == s.joins && IsMode(e.options.mode)
    ensures Of(t, e.n) == Initialised(e.options, e.x, Of(s, e.n)) && Of(t, e.n).config.value.mode == e.options.mode
    ensures GatewayPeer(Of(t, e.n).files, e.options.mode)
         == if e.options.mode == Ipip && Of(s, e.n).config.None? then Of(s, e.n).files.script else None
  {
    assert Tidy(s, Of(s, e.n));
    assert Of(t, e.n) != Of(s, e.n);
    InitShape(e.options, e.x);
  }

  /** The exact condition, in every mode, for the peer in a gateway's files to have joined the gateway's instance from
      its initialisation on: it was not an IPIP initialisation of an unconfigured server with a left-over script. */
  lemma InstalledPeerExact(k: Checks, states: seq<System>, events: seq<Event>, at: nat)
    requires IsRun(k, states, events) && at < |events| && events[at].Init?
    requires GatewayOf(Of(states[at + 1], events[at].n), events[at].x.id)
    ensures var n, id, before := events[at].n, events[at].x.id, Of(states[at], events[at].n);
            (forall j :: at < j < |states| && GatewayOf(Of(states[j], n), id) ==> PeerJoined(k, states[j], n))
            <==> events[at].options.mode != Ipip || before.config.Some? || before.files.script.None?
  {
    var n, id, s, t := events[at].n, events[at].x.id, states[at], states[at + 1];
    InvAlways(k, states, events, at);
    InitLeaves(k, s, events[at], t);
    if GatewayPeer(Of(t, n).files, events[at].options.mode).Some? {
      NobodyJoinedFresh(k, s, id);
      assert !PeerJoined(k, t, n);
    } else {
      assert id in t.drawn;
      forall j | at < j < |states| && GatewayOf(Of(states[j], n), id) ensures PeerJoined(k, states[j], n) {
        HonestRun(k, states, events, at + 1, j, n, id);
      }
    }
  }

  // ---- the edges ----

  predicate IsEdge(l: Local) {
    l.config.Some? && l.config.value.role == Iran
  }

  /** An edge's configuration comes from offer `i`, but for its state, and the peer in its files is that offer's. */
  predicate Edge(k: Checks, s: System, l: Local, i: Issue)
    requires l.config.Some?
  {
    var c, o := l.config.value, MakeOffer(i.config, i.secrets);
    && i in s.offered && ValidateOffer(k, o) == None
    && c == JoinConfig(o, c.wan, c.peerEndpoint).(state := c.state)
    && EdgePeer(l.files, c.mode).Some? && NamesGateway(i.config, i.secrets, EdgePeer(l.files, c.mode).value)
  }

  ghost predicate EdgesPaired(k: Checks, s: System) {
    forall n :: IsEdge(Of(s, n)) ==> exists i :: Edge(k, s, Of(s, n), i)
  }

  lemma JoinedEdge(k: Checks, s: System, e: Event, t: System)
    requires Next(k, s, e, t) && e.DoJoin? && Of(t, e.n) != Of(s, e.n) && Of(t, e.n).config.Some?
    ensures Edge(k, t, Of(t, e.n), e.token)
  {
    ValidIsClear(k, MakeOffer(e.token.config, e.token.secrets));
    OfferPeerNames(e.token.config, e.token.secrets);
  }

  /** Only joining makes an edge, and only Doctor changes one, in its state. */
  lemma EdgeStep(k: Checks, s: System, e: Event, t: System)
    requires EdgesPaired(k, s) && Next(k, s, e, t)
    ensures EdgesPaired(k, t)
  {
    forall n | IsEdge(Of(t, n)) ensures exists i :: Edge(k, t, Of(t, n), i) {
      if Of(t, n) == Of(s, n) {
        var i :| Edge(k, s, Of(s, n), i);
        assert Edge(k, t, Of(t, n), i);
      } else if e.DoJoin? {
        JoinedEdge(k, s, e, t);
      } else if e.DoDoctor? {
        var i :| Edge(k, s, Of(s, n), i);
        assert Edge(k, t, Of(t, n), i);
      } else {
        NoNewEdge(k, s, e, t);
        assert false;
      }
    }
  }

  lemma NoNewEdge(k: Checks, s: System, e: Event, t: System)
    requires Next(k, s, e, t) && (e.Init? || e.DoAccept? || e.DoUninstall?) && Of(t, e.n) != Of(s, e.n)
    ensures !IsEdge(Of(t, e.n))
  {
    if e.Init? {
      InitShape(e.options, e.x);
    }
  }

  /** In every run, an edge's peer is the gateway of the offer that it joined, which some server really printed. */
  lemma {:induction false} JoinedPeerOffered(k: Checks, states: seq<System>, events: seq<Event>, at: nat)
    requires IsRun(k, states, events) && at < |states|
    ensures EdgesPaired(k, states[at])
  {
    if at > 0 {
      JoinedPeerOffered(k, states, events, at - 1);
      EdgeStep(k, states[at - 1], events[at - 1], states[at]);
    }
  }

  // ---- what every token was made from ----

  /** The issue comes from options and identities that InitOutside was given, of a known mode. */
  predicate BornOf(i: Issue, o: InitOptions, x: Generated) {
    IsMode(o.mode) && i.config == InitConfig(o, x.id, x.araPath, x.wan, x.secrets) && i.secrets == x.secrets
  }

  ghost predicate Born(i: Issue) {
    exists o, x :: BornOf(i, o, x)
  }

  lemma BornStep(k: Checks, s: System, e: Event, t: System)
    requires Next(k, s, e, t) && forall i :: i in s.issues ==> Born(i)
    ensures forall i :: i in t.issues ==> Born(i)
  {
    forall i | i in t.issues ensures Born(i) {
      if i !in s.issues {
        assert e.Init? && IsMode(e.options.mode);
        assert BornOf(i, e.options, e.x);
      }
    }
  }

  lemma {:induction false} BornAlways(k: Checks, states: seq<System>, events: seq<Event>, at: nat)
    requires IsRun(k, states, events) && at < |states|
    ensures forall i :: i in states[at].issues ==> Born(i)
  {
    if at > 0 {
      BornAlways(k, states, events, at - 1);
      BornStep(k, states[at - 1], events[at - 1], states[at]);
    }
  }

  // ---- what stale tokens, forced runs and uninstalling do ----

  /** In every run, a response that was not made from the gateway's current offer changes nothing on that server:
      whether it comes from another gateway's offer, from an earlier instance of the same server, or finds the server
      uninstalled or an edge. */
  lemma StaleChangesNothing(k: Checks, states: seq<System>, events: seq<Event>, at: nat)
    requires IsRun(k, states, events) && at < |events| && events[at].DoAccept?
    requires forall i :: Gateway(k, states[at], events[at].n, i) ==> !Answers(events[at].answer, i)
    ensures Of(states[at + 1], events[at].n) == Of(states[at], events[at].n)
  {
    var s, t, e := states[at], states[at + 1], events[at];
    InvAlways(k, states, events, at);
    if Of(t, e.n) != Of(s, e.n) {
      assert IsGateway(Of(s, e.n));
      var i :| Gateway(k, s, e.n, i);
      AnswerIsOwn(k, s, e.n, i, e.answer);
    }
  }

  /** In every run, an initialisation leaves a configured server its configuration exactly when it is refused at once:
      not admitted, not forced, or of an unknown mode. Every other one loses it even when it fails. */
  lemma InitKeepsExact(k: Checks, states: seq<System>, events: seq<Event>, at: nat)
    requires IsRun(k, states, events) && at < |events| && events[at].Init?
    requires Of(states[at], events[at].n).config.Some?
    ensures Of(states[at + 1], events[at].n).config == Of(states[at], events[at].n).config
       <==> !events[at].x.admitted || !events[at].options.force || !IsMode(events[at].options.mode)
  {
    InvAlways(k, states, events, at);
    InitShape(events[at].options, events[at].x);
    assert Tidy(states[at], Of(states[at], events[at].n));
  }

  /** The witness: with an empty endpoint a forced run ends with no configuration, whatever there was. */
  lemma ForcedInitLoses(k: Checks, six: SixReader, x: Generated, a: Local, offer: Option<Offer>, b: Local)
    requires ReadsText(k, six) && a.config.Some? && x.admitted
    requires InitRel(k, InitOptions(WireGuard, "", 0, NoTls, true), x, a, offer, b)
    ensures b == BLANK && offer == None
  {
    var o := InitOptions(WireGuard, "", 0, NoTls, true);
    assert Normalized(o).endpointHost == "";
    assert !ValidEndpointHost(six, "");
    assert !OptionsAccepted(k, o);
  }

  /** No two gateways ever share an instance, so no token can pair two of them. */
  lemma InstancesDisjoint(k: Checks, states: seq<System>, events: seq<Event>, at: nat, m: Node, n: Node)
    requires IsRun(k, states, events) && at < |states|
    requires IsGateway(Of(states[at], m)) && IsGateway(Of(states[at], n))
    requires Of(states[at], m).config.value.instanceID == Of(states[at], n).config.value.instanceID
    ensures m == n
  {
    InvAlways(k, states, events, at);
    var s := states[at];
    var i :| Gateway(k, s, m, i);
    var j :| Gateway(k, s, n, j);
    GatewayID(k, s, m, i);
    GatewayID(k, s, n, j);
  }

  /** At no moment of a run do two servers accept the same response. */
  lemma OneServerAccepts(k: Checks, states: seq<System>, events: seq<Event>, at: nat, m: Node, n: Node, r: Response)
    requires IsRun(k, states, events) && at < |states|
    requires IsGateway(Of(states[at], m)) && ValidateResponse(k, r, Of(states[at], m).config.value) == None
    requires IsGateway(Of(states[at], n)) && ValidateResponse(k, r, Of(states[at], n).config.value) == None
    ensures m == n
  {
    ResponseNamesItsInstance(k, r, Of(states[at], m).config.value, Of(states[at], n).config.value);
    InstancesDisjoint(k, states, events, at, m, n);
  }

  /** The ID has been drawn, and the server is not a gateway of it. */
  ghost predicate Retired(s: System, n: Node, id: string) {
    id in s.drawn && !GatewayOf(Of(s, n), id)
  }

  lemma RetiredStep(k: Checks, s: System, e: Event, t: System, n: Node, id: string)
    requires Inv(k, s) && Next(k, s, e, t) && Retired(s, n, id)
    ensures Retired(t, n, id)
  {
    OthersKept(k, s, e, t);
    if e.n == n && e.Init? {
      InitShape(e.options, e.x);
    }
  }

  lemma RetiredNext(k: Checks, states: seq<System>, events: seq<Event>, i: nat, n: Node, id: string)
    requires IsRun(k, states, events) && i < |events| && Retired(states[i], n, id)
    ensures Retired(states[i + 1], n, id)
  {
    InvAlways(k, states, events, i);
    RetiredStep(k, states[i], events[i], states[i + 1], n, id);
  }

  lemma RetiredRun(k: Checks, states: seq<System>, events: seq<Event>, i: nat, j: nat, n: Node, id: string)
    requires IsRun(k, states, events) && i <= j < |states| && Retired(states[i], n, id)
    ensures Retired(states[j], n, id)
  {
    forall m | i <= m < j && Retired(states[m], n, id) ensures Retired(states[m + 1], n, id) {
      RetiredNext(k, states, events, m, n, id);
    }
    Along(states, i, j, s => Retired(s, n, id));
  }

  /** A server that is no gateway of an instance accepts none of its responses. */
  lemma RetiredRefuses(k: Checks, states: seq<System>, events: seq<Event>, at: nat, id: string)
    requires IsRun(k, states, events) && at < |events| && events[at].DoAccept?
    requires Retired(states[at], events[at].n, id) && events[at].answer.offer.instanceID == id
    ensures Of(states[at + 1], events[at].n) == Of(states[at], events[at].n)
  {
    var s, e := states[at], events[at];
    InvAlways(k, states, events, at);
    forall i | Gateway(k, s, e.n, i) ensures !Answers(e.answer, i) {
      if Answers(e.answer, i) {
        ResponseNames(e.answer, i);
      }
    }
    StaleChangesNothing(k, states, events, at);
  }

  /** Uninstalling retires a gateway's instance for good: no later command brings it back on that server, and none of
      the responses made for it, before or after, is ever accepted there again. */
  lemma UninstalledForGood(k: Checks, states: seq<System>, events: seq<Event>, at: nat, later: nat, id: string)
    requires IsRun(k, states, events) && at < later < |states| && events[at].DoUninstall? && events[at].admitted
    requires GatewayOf(Of(states[at], events[at].n), id)
    ensures !GatewayOf(Of(states[later], events[at].n), id)
    ensures later < |events| && events[later].DoAccept? && events[later].n == events[at].n
            && events[later].answer.offer.instanceID == id
            ==> Of(states[later + 1], events[at].n) == Of(states[later], events[at].n)
  {
    var n := events[at].n;
    InvAlways(k, states, events, at);
    assert Retired(states[at + 1], n, id);
    RetiredRun(k, states, events, at + 1, later, n, id);
    if later < |events| && events[later].DoAccept? && events[later].n == n
       && events[later].answer.offer.instanceID == id {
      RetiredRefuses(k, states, events, later, id);
    }
  }

  ghost predicate ReadyAs(l: Local, id: string) {
    GatewayOf(l, id) && l.config.value.state == Ready
  }

  /** The ID has been drawn, and the server knows it as a gateway only in the ready state. */
  ghost predicate Settled(s: System, n: Node, id: string) {
    id in s.drawn && (GatewayOf(Of(s, n), id) ==> ReadyAs(Of(s, n), id))
  }

  lemma SettledStep(k: Checks, s: System, e: Event, t: System, n: Node, id: string)
    requires Inv(k, s) && Next(k, s, e, t) && Settled(s, n, id)
    ensures Settled(t, n, id)
  {
    OthersKept(k, s, e, t);
    if e.n == n && e.Init? {
      InitShape(e.options, e.x);
    }
  }

  lemma SettledFirst(k: Checks, states: seq<System>, events: seq<Event>, i: nat, n: Node, id: string)
    requires IsRun(k, states, events) && i < |states| && ReadyAs(Of(states[i], n), id)
    ensures Settled(states[i], n, id)
  {
    InvAlways(k, states, events, i);
  }

  lemma SettledNext(k: Checks, states: seq<System>, events: seq<Event>, i: nat, n: Node, id: string)
    requires IsRun(k, states, events) && i < |events| && Settled(states[i], n, id)
    ensures Settled(states[i + 1], n, id)
  {
    InvAlways(k, states, events, i);
    SettledStep(k, states[i], events[i], states[i + 1], n, id);
  }

  /** Once an instance is ready on its gateway it is never pending there again: uninstalling or re-initialising makes
      it disappear, and its ID is not drawn a second time. */
  lemma {:induction false} ReadyForGood(k: Checks, states: seq<System>, events: seq<Event>, i: nat, j: nat, n: Node,
                                        id: string)
    requires IsRun(k, states, events) && i <= j < |states| && ReadyAs(Of(states[i], n), id)
    ensures Settled(states[j], n, id)
  {
    if j == i {
      SettledFirst(k, states, events, i, n, id);
    } else {
      ReadyForGood(k, states, events, i, j - 1, n, id);
      SettledNext(k, states, events, j - 1, n, id);
    }
  }
}
