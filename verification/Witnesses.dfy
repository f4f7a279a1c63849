/** Runs that exist: every pairing can complete; and a pending IPIP gateway can have a peer that joined nothing, because
    a join that fails in IPIP mode does not take its script away again (internal/app/app.go). */
module Witnesses {
  import opened Text
  import opened Address
  import opened Base64Url
  import opened Model
  import opened Pairing
  import AuthorizedKeys

  function IssueOf(n: Node, o: InitOptions, x: Generated): Issue {
    Issue(n, InitConfig(o, x.id, x.araPath, x.wan, x.secrets), x.secrets)
  }

  /** An admitted initialisation of an unconfigured server that would go through. */
  ghost predicate Good(k: Checks, o: InitOptions, x: Generated) {
    && x.admitted && IsMode(o.mode) && OptionsAccepted(k, o)
    && ValidateOffer(k, MakeOffer(InitConfig(o, x.id, x.araPath, x.wan, x.secrets), x.secrets)) == None
  }

  /** Server 0 after its initialisation, and the script that server 1 gets from joining it. */
  function Script(o: InitOptions, x: Generated): Files {
    WithOffer(NO_FILES, MakeOffer(InitConfig(o, x.id, x.araPath, x.wan, x.secrets), x.secrets))
  }

  function Offering(o: InitOptions, x: Generated): System {
    var i := IssueOf(0, o, x);
    System(map[0 := Initialised(o, x, BLANK)], {x.id}, {i}, {i}, {})
  }

  /** Server 1 has begun to join it and failed after the script was written; `drawn` may have grown since. */
  function Littered(o: InitOptions, x: Generated, drawn: set<string>): System {
    var i := IssueOf(0, o, x);
    System(map[0 := Initialised(o, x, BLANK), 1 := Local(None, Script(o, x))], drawn, {i}, {i}, {})
  }

  /** Server 1 has become a gateway itself. */
  function Reused(o: InitOptions, x: Generated, drawn: set<string>, p: InitOptions, y: Generated): System {
    var i, j := IssueOf(0, o, x), IssueOf(1, p, y);
    System(map[0 := Initialised(o, x, BLANK), 1 := Initialised(p, y, Local(None, Script(o, x)))], drawn + {y.id},
           {i, j}, {i, j}, {})
  }

  /** In the last state server 1 is a pending gateway whose files name a peer, though nobody has answered any offer. */
  ghost predicate PendingStale(k: Checks, s: System) {
    && IsGateway(Of(s, 1)) && Of(s, 1).config.value.state == Pending
    && GatewayPeer(Of(s, 1).files, Of(s, 1).config.value.mode).Some? && !PeerJoined(k, s, 1)
    && forall i, j :: !CompletedBy(k, s, i, j)
  }

  lemma ReusedIsStale(k: Checks, o: InitOptions, x: Generated, drawn: set<string>, p: InitOptions, y: Generated)
    requires o.mode == Ipip && p.mode == Ipip
    ensures PendingStale(k, Reused(o, x, drawn, p, y))
  {
    InitShape(o, x);
    InitShape(p, y);
  }

  // ---- the steps ----

  lemma InitGoes(k: Checks, s: System, n: Node, o: InitOptions, x: Generated, t: System)
    requires Of(s, n).config.None? && Good(k, o, x) && x.id !in s.drawn
    requires Of(t, n) == Initialised(o, x, Of(s, n)) && forall m :: m != n ==> Of(t, m) == Of(s, m)
    requires t.drawn == s.drawn + {x.id} && t.joins == s.joins
    requires t.issues == s.issues + {IssueOf(n, o, x)} && t.offered == s.offered + {IssueOf(n, o, x)}
    ensures Next(k, s, Init(n, o, x), t)
  {
    var offer := Some(MakeOffer(InitConfig(o, x.id, x.araPath, x.wan, x.secrets), x.secrets));
    assert InitRel(k, o, x, Of(s, n), offer, Of(t, n));
    assert Recorded(s, n, o, x, offer, t);
  }

  /** A WireGuard initialisation that wrote its tunnel file and failed to save its configuration. */
  lemma InitFails(k: Checks, s: System, n: Node, o: InitOptions, x: Generated, t: System)
    requires Of(s, n).config.None? && Of(s, n).files.wgPeer.None? && Good(k, o, x) && x.id !in s.drawn
    requires t == s.(drawn := s.drawn + {x.id})
    ensures Next(k, s, Init(n, o, x), t)
  {
    assert Of(t, n) == Local(None, Initialised(o, x, Of(s, n)).files);
    assert InitRel(k, o, x, Of(s, n), None, Of(t, n));
    assert Recorded(s, n, o, x, None, t);
  }

  lemma JoinFails(k: Checks, o: InitOptions, x: Generated, keys: EdgeKeys)
    requires Good(k, o, x)
    ensures Next(k, Offering(o, x), DoJoin(1, IssueOf(0, o, x), "", keys), Littered(o, x, {x.id}))
  {
    var s, t, i := Offering(o, x), Littered(o, x, {x.id}), IssueOf(0, o, x);
    assert JoinRel(k, MakeOffer(i.config, i.secrets), "", keys, Of(s, 1), None, Of(t, 1));
    assert t.joins == s.joins + {};
  }

  lemma OfferingStarts(k: Checks, o: InitOptions, x: Generated)
    requires Good(k, o, x)
    ensures Next(k, START, Init(0, o, x), Offering(o, x))
  {
    InitGoes(k, START, 0, o, x, Offering(o, x));
  }

  lemma ReuseGoes(k: Checks, o: InitOptions, x: Generated, drawn: set<string>, p: InitOptions, y: Generated)
    requires Good(k, o, x) && Good(k, p, y) && y.id !in drawn
    ensures Next(k, Littered(o, x, drawn), Init(1, p, y), Reused(o, x, drawn, p, y))
  {
    InitGoes(k, Littered(o, x, drawn), 1, p, y, Reused(o, x, drawn, p, y));
  }

  lemma OtherInitFails(k: Checks, o: InitOptions, x: Generated, w: InitOptions, z: Generated)
    requires o.mode == Ipip && Good(k, o, x) && Good(k, w, z) && z.id != x.id
    ensures Next(k, Littered(o, x, {x.id}), Init(1, w, z), Littered(o, x, {x.id, z.id}))
  {
    assert {x.id} + {z.id} == {x.id, z.id};
    InitFails(k, Littered(o, x, {x.id}), 1, w, z, Littered(o, x, {x.id, z.id}));
  }

  // ---- the two runs ----

  /** The events can lead to the state. */
  ghost predicate Leads(k: Checks, events: seq<Event>, s: System) {
    if events == [] then s == START
    else
      var last := |events| - 1;
      exists r :: Leads(k, events[..last], r) && Next(k, r, events[last], s)
  }

  /** That is to say, some run with these events ends there. */
  lemma {:induction false} LeadsIsRun(k: Checks, events: seq<Event>, s: System)
    requires Leads(k, events, s)
    ensures exists states :: IsRun(k, states, events) && states[|states| - 1] == s
  {
    if events == [] {
      assert IsRun(k, [START], []);
    } else {
      var last := |events| - 1;
      var r :| Leads(k, events[..last], r) && Next(k, r, events[last], s);
      LeadsIsRun(k, events[..last], r);
      var states :| IsRun(k, states, events[..last]) && states[|states| - 1] == r;
      RunExtends(k, states, events[..last], events[last], s);
      assert events == events[..last] + [events[last]];
    }
  }

  lemma RunExtends(k: Checks, states: seq<System>, events: seq<Event>, e: Event, s: System)
    requires IsRun(k, states, events) && Next(k, states[|states| - 1], e, s)
    ensures IsRun(k, states + [s], events + [e])
  {
    var longer, more := states + [s], events + [e];
    forall i | 0 <= i < |more| ensures Next(k, longer[i], more[i], longer[i + 1]) {
      if i < |events| {
        assert longer[i] == states[i] && longer[i + 1] == states[i + 1] && more[i] == events[i];
      }
    }
  }

  /** They can lead to a pending gateway with somebody else's peer. */
  ghost predicate LeadsToStale(k: Checks, events: seq<Event>) {
    exists s :: Leads(k, events, s) && PendingStale(k, s)
  }

  /** They can lead to a ready gateway and an edge of one instance. */
  ghost predicate LeadsToPair(k: Checks, events: seq<Event>, id: string) {
    exists s ::
      Leads(k, events, s) && ReadyAs(Of(s, 0), id) && IsEdge(Of(s, 1)) && Of(s, 1).config.value.instanceID == id
  }

  lemma Extend(k: Checks, events: seq<Event>, s: System, e: Event, t: System)
    requires Leads(k, events, s) && Next(k, s, e, t)
    ensures Leads(k, events + [e], t)
  {
    assert (events + [e])[..|events + [e]| - 1] == events;
  }

  function Joining(o: InitOptions, x: Generated, keys: EdgeKeys): seq<Event> {
    [Init(0, o, x), DoJoin(1, IssueOf(0, o, x), "", keys)]
  }

  lemma LitteredReached(k: Checks, o: InitOptions, x: Generated, keys: EdgeKeys)
    requires Good(k, o, x)
    ensures Leads(k, Joining(o, x, keys), Littered(o, x, {x.id}))
  {
    OfferingStarts(k, o, x);
    Extend(k, [], START, Init(0, o, x), Offering(o, x));
    JoinFails(k, o, x, keys);
    Extend(k, [] + [Init(0, o, x)], Offering(o, x), DoJoin(1, IssueOf(0, o, x), "", keys), Littered(o, x, {x.id}));
    assert [] + [Init(0, o, x)] + [DoJoin(1, IssueOf(0, o, x), "", keys)] == Joining(o, x, keys);
  }

  lemma InitFailed(k: Checks, events: seq<Event>, o: InitOptions, x: Generated, w: InitOptions, z: Generated)
    requires Leads(k, events, Littered(o, x, {x.id}))
    requires o.mode == Ipip && Good(k, o, x) && Good(k, w, z) && z.id != x.id
    ensures Leads(k, events + [Init(1, w, z)], Littered(o, x, {x.id, z.id}))
  {
    OtherInitFails(k, o, x, w, z);
    Extend(k, events, Littered(o, x, {x.id}), Init(1, w, z), Littered(o, x, {x.id, z.id}));
  }

  lemma ReusedReached(k: Checks, events: seq<Event>, o: InitOptions, x: Generated, drawn: set<string>, p: InitOptions,
                      y: Generated)
    requires Leads(k, events, Littered(o, x, drawn)) && Good(k, o, x) && Good(k, p, y) && y.id !in drawn
    requires o.mode == Ipip && p.mode == Ipip
    ensures LeadsToStale(k, events + [Init(1, p, y)])
  {
    ReuseGoes(k, o, x, drawn, p, y);
    Extend(k, events, Littered(o, x, drawn), Init(1, p, y), Reused(o, x, drawn, p, y));
    ReusedIsStale(k, o, x, drawn, p, y);
  }

  /** An IPIP join fails after writing its script, then the server becomes an IPIP gateway. */
  lemma StaleAfterJoin(k: Checks, o: InitOptions, p: InitOptions, x: Generated, y: Generated, keys: EdgeKeys)
    requires o.mode == Ipip && p.mode == Ipip && Good(k, o, x) && Good(k, p, y) && x.id != y.id
    ensures LeadsToStale(k, Joining(o, x, keys) + [Init(1, p, y)])
  {
    LitteredReached(k, o, x, keys);
    ReusedReached(k, Joining(o, x, keys), o, x, {x.id}, p, y);
  }

  lemma StaleOn(k: Checks, begun: seq<Event>, o: InitOptions, w: InitOptions, p: InitOptions, x: Generated,
                z: Generated, y: Generated)
    requires Leads(k, begun, Littered(o, x, {x.id}))
    requires o.mode == Ipip && p.mode == Ipip && Good(k, o, x) && Good(k, w, z) && Good(k, p, y)
    requires x.id != z.id && x.id != y.id && z.id != y.id
    ensures LeadsToStale(k, begun + [Init(1, w, z)] + [Init(1, p, y)])
  {
    InitFailed(k, begun, o, x, w, z);
    ReusedReached(k, begun + [Init(1, w, z)], o, x, {x.id, z.id}, p, y);
  }

  /** The same with an initialisation in between that fails after writing another mode's file. */
  lemma StaleAfterInit(k: Checks, o: InitOptions, w: InitOptions, p: InitOptions, x: Generated, z: Generated,
                       y: Generated, keys: EdgeKeys)
    requires o.mode == Ipip && p.mode == Ipip && Good(k, o, x) && Good(k, w, z) && Good(k, p, y)
    requires x.id != z.id && x.id != y.id && z.id != y.id
    ensures LeadsToStale(k, Joining(o, x, keys) + [Init(1, w, z)] + [Init(1, p, y)])
  {
    LitteredReached(k, o, x, keys);
    StaleOn(k, Joining(o, x, keys), o, w, p, x, z, y);
  }

  // ---- a run that pairs ----

  /** Server 1 has joined and printed its response. */
  function Answered(o: InitOptions, x: Generated, wan: string, keys: EdgeKeys): System {
    var i := IssueOf(0, o, x);
    var offer := MakeOffer(i.config, i.secrets);
    var edge := Local(Some(JoinConfig(offer, wan, keys.localIP)), WithOffer(NO_FILES, offer));
    System(map[0 := Initialised(o, x, BLANK), 1 := edge], {x.id}, {i}, {i}, {Joined(1, offer, keys)})
  }

  function AnswerTo(o: InitOptions, x: Generated, keys: EdgeKeys): Joined {
    Joined(1, MakeOffer(IssueOf(0, o, x).config, x.secrets), keys)
  }

  function Completed(o: InitOptions, x: Generated, wan: string, keys: EdgeKeys): System {
    var s, r := Answered(o, x, wan, keys), MakeResponse(AnswerTo(o, x, keys).offer, keys);
    var cfg := IssueOf(0, o, x).config;
    var ready := Local(Some(AcceptConfig(cfg, r)), WithResponse(Of(s, 0).files, cfg.mode, r));
    s.(servers := s.servers[0 := ready])
  }

  /** The edge's material is what its mode asks for. */
  ghost predicate GoodKeys(k: Checks, m: Mode, keys: EdgeKeys) {
    && (UsesWireGuard(m) ==> k.wgKey(keys.publicKey))
    && (m == Ipip ==> k.ip(keys.localIP).Four?)
    && (m == SshSocks ==> "ssh-" <= keys.sshPublicKey && AuthorizedKeys.KeyOf(keys.sshPublicKey).Some?)
  }

  lemma JoinGoes(k: Checks, o: InitOptions, x: Generated, wan: string, keys: EdgeKeys)
    requires Good(k, o, x)
    ensures Next(k, Offering(o, x), DoJoin(1, IssueOf(0, o, x), wan, keys), Answered(o, x, wan, keys))
  {
    var s, t, i := Offering(o, x), Answered(o, x, wan, keys), IssueOf(0, o, x);
    var offer := MakeOffer(i.config, i.secrets);
    assert JoinRel(k, offer, wan, keys, Of(s, 1), Some(MakeResponse(offer, keys)), Of(t, 1));
    assert t.joins == s.joins + {Joined(1, offer, keys)};
  }

  lemma AcceptGoes(k: Checks, o: InitOptions, x: Generated, wan: string, keys: EdgeKeys)
    requires Good(k, o, x) && GoodKeys(k, o.mode, keys)
    ensures Next(k, Answered(o, x, wan, keys), DoAccept(0, AnswerTo(o, x, keys)), Completed(o, x, wan, keys))
  {
    var s, t, i := Answered(o, x, wan, keys), Completed(o, x, wan, keys), IssueOf(0, o, x);
    var r := MakeResponse(AnswerTo(o, x, keys).offer, keys);
    InitShape(o, x);
    ResponseComplete(k, i.config, x.secrets, keys);
    assert Of(s, 0) == Initialised(o, x, BLANK);
    assert !Refuses(k, r, Of(s, 0));
    assert AcceptRel(k, r, Of(s, 0), true, Of(t, 0));
  }

  /** For all accepted options and well-formed material, in every mode: initialise, join, accept makes a ready gateway
      and an edge of the same instance. */
  lemma PairingHappens(k: Checks, o: InitOptions, x: Generated, wan: string, keys: EdgeKeys)
    requires Good(k, o, x) && GoodKeys(k, o.mode, keys)
    ensures LeadsToPair(k, Pairings(o, x, wan, keys), x.id)
  {
    AnsweredReached(k, o, x, wan, keys);
    var begun, g := [Init(0, o, x), DoJoin(1, IssueOf(0, o, x), wan, keys)], DoAccept(0, AnswerTo(o, x, keys));
    AcceptGoes(k, o, x, wan, keys);
    Extend(k, begun, Answered(o, x, wan, keys), g, Completed(o, x, wan, keys));
    assert begun + [g] == Pairings(o, x, wan, keys);
    CompletedShape(o, x, wan, keys);
  }

  function Pairings(o: InitOptions, x: Generated, wan: string, keys: EdgeKeys): seq<Event> {
    [Init(0, o, x), DoJoin(1, IssueOf(0, o, x), wan, keys), DoAccept(0, AnswerTo(o, x, keys))]
  }

  lemma AnsweredReached(k: Checks, o: InitOptions, x: Generated, wan: string, keys: EdgeKeys)
    requires Good(k, o, x)
    ensures Leads(k, [Init(0, o, x), DoJoin(1, IssueOf(0, o, x), wan, keys)], Answered(o, x, wan, keys))
  {
    var e, f := Init(0, o, x), DoJoin(1, IssueOf(0, o, x), wan, keys);
    OfferingStarts(k, o, x);
    Extend(k, [], START, e, Offering(o, x));
    JoinGoes(k, o, x, wan, keys);
    Extend(k, [] + [e], Offering(o, x), f, Answered(o, x, wan, keys));
    assert [] + [e] + [f] == [e, f];
  }

  lemma CompletedShape(o: InitOptions, x: Generated, wan: string, keys: EdgeKeys)
    requires IsMode(o.mode)
    ensures var s := Completed(o, x, wan, keys);
            ReadyAs(Of(s, 0), x.id) && IsEdge(Of(s, 1)) && Of(s, 1).config.value.instanceID == x.id
  {
    InitShape(o, x);
  }

  // ---- there are such options and identities ----

  function DottedOptions(m: Mode, last: string): InitOptions {
    InitOptions(m, "10" + "." + "0" + "." + "0" + "." + last, 0, NoTls, false)
  }

  function SomeIdentity(b: byte, s: Secrets): Generated {
    Generated(Hex(seq(8, i => b)), Hex(seq(24, i => 0)), "", s, true)
  }

  lemma DottedAccepted(k: Checks, six: SixReader, m: Mode, last: string)
    requires ReadsText(k, six) && |last| == 1 && IsDigit(last[0]) && (m == Ipip || m == WireGuard)
    ensures OptionsAccepted(k, DottedOptions(m, last))
  {
    var host := "10" + "." + "0" + "." + "0" + "." + last;
    Model.TwoDigits("10");
    OneDigit("0");
    OneDigit(last);
    ParseDotted(six, "10", "0", "0", last);
    assert host[0] == '1' && host[|host| - 1] == last[0];
    assert TrimSpace(host) == host;
  }

  lemma DottedGood(k: Checks, six: SixReader, m: Mode, last: string, b: byte, s: Secrets)
    requires ReadsText(k, six) && |last| == 1 && IsDigit(last[0]) && (m == Ipip || m == WireGuard)
    requires m == WireGuard ==> k.wgKey(s.publicKey) && k.wgKey(s.presharedKey)
    ensures Good(k, DottedOptions(m, last), SomeIdentity(b, s))
  {
    DottedAccepted(k, six, m, last);
    OfferComplete(k, six, DottedOptions(m, last), seq(8, i => b), seq(24, i => 0), "", s);
  }

  lemma IdentitiesDiffer(u: byte, v: byte, r: Secrets, s: Secrets)
    requires u != v
    ensures SomeIdentity(u, r).id != SomeIdentity(v, s).id
  {
    var a, b := SomeIdentity(u, r).id, SomeIdentity(v, s).id;
    assert a[0] == HexDigit(u / 16) && a[1] == HexDigit(u % 16);
    assert b[0] == HexDigit(v / 16) && b[1] == HexDigit(v % 16);
  }

  /** The peer in a pending IPIP gateway's script need not have joined it: initialise, fail to join, initialise. */
  lemma StaleScriptHappens(k: Checks, six: SixReader, a: string, b: string, u: byte, v: byte, s: Secrets,
                           keys: EdgeKeys)
    requires ReadsText(k, six) && |a| == 1 && |b| == 1 && IsDigit(a[0]) && IsDigit(b[0]) && u != v
    ensures var o, p, x, y := DottedOptions(Ipip, a), DottedOptions(Ipip, b), SomeIdentity(u, s), SomeIdentity(v, s);
            LeadsToStale(k, Joining(o, x, keys) + [Init(1, p, y)])
  {
    DottedGood(k, six, Ipip, a, u, s);
    DottedGood(k, six, Ipip, b, v, s);
    IdentitiesDiffer(u, v, s, s);
    StaleAfterJoin(k, DottedOptions(Ipip, a), DottedOptions(Ipip, b), SomeIdentity(u, s), SomeIdentity(v, s), keys);
  }

  /** Nor does a failed WireGuard initialisation in between take the script away. */
  lemma StaleScriptSurvives(k: Checks, six: SixReader, a: string, b: string, ids: seq<byte>, s: Secrets, keys: EdgeKeys)
    requires ReadsText(k, six) && |a| == 1 && |b| == 1 && IsDigit(a[0]) && IsDigit(b[0])
    requires |ids| == 3 && ids[0] != ids[1] && ids[0] != ids[2] && ids[1] != ids[2]
    requires k.wgKey(s.publicKey) && k.wgKey(s.presharedKey)
    ensures var o, w, p := DottedOptions(Ipip, a), DottedOptions(WireGuard, b), DottedOptions(Ipip, b);
            var x, z, y := SomeIdentity(ids[0], s), SomeIdentity(ids[1], s), SomeIdentity(ids[2], s);
            LeadsToStale(k, Joining(o, x, keys) + [Init(1, w, z)] + [Init(1, p, y)])
  {
    DottedGood(k, six, Ipip, a, ids[0], s);
    DottedGood(k, six, WireGuard, b, ids[1], s);
    DottedGood(k, six, Ipip, b, ids[2], s);
    IdentitiesDiffer(ids[0], ids[1], s, s);
    IdentitiesDiffer(ids[0], ids[2], s, s);
    IdentitiesDiffer(ids[1], ids[2], s, s);
    StaleAfterInit(k, DottedOptions(Ipip, a), DottedOptions(WireGuard, b), DottedOptions(Ipip, b),
                   SomeIdentity(ids[0], s), SomeIdentity(ids[1], s), SomeIdentity(ids[2], s), keys);
  }
}
