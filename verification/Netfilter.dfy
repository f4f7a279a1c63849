/** iptables chains: ordered rules, first match, and the four editing commands the scripts use. */
module Netfilter {
  import opened Text
  import opened Address

  const TCP := 6
  const UDP := 17
  const IPIP_PROTO := 4

  /** A packet at a hook. `tracked` says that conntrack knows its flow (RELATED or ESTABLISHED). */
  datatype Packet = Packet(inDev: string, outDev: string, proto: nat, src: nat, dst: nat, dport: nat, mark: nat,
                           tracked: bool)

  datatype Target = Accept | Drop | Reject | Masquerade

  /** `Own` is a rule built from the matches Hamara uses; an absent match is None. `Stranger` is any rule of
      somebody else, known only by what it decides. */
  datatype Rule =
    | Own(mark: Option<nat>, src: Option<Cidr>, inDev: Option<string>, outDev: Option<string>, notOut: Option<string>,
          proto: Option<nat>, dport: Option<nat>, tracked: bool, target: Target)
    | Stranger(id: nat)

  const ANY := Own(None, None, None, None, None, None, None, false, Accept)

  /** What stranger rule `id` decides on a packet; None when the packet goes on to the next rule. */
  type Strangers = (nat, Packet) -> Option<Target>

  type Chain = seq<Rule>

  predicate Hits(r: Rule, p: Packet)
    requires r.Own?
  {
    && (r.mark.Some? ==> p.mark == r.mark.value)
    && (r.src.Some? ==> Contains(r.src.value, p.src))
    && (r.inDev.Some? ==> p.inDev == r.inDev.value)
    && (r.outDev.Some? ==> p.outDev == r.outDev.value)
    && (r.notOut.Some? ==> p.outDev != r.notOut.value)
    && (r.proto.Some? ==> p.proto == r.proto.value)
    && (r.dport.Some? ==> p.dport == r.dport.value)
    && (r.tracked ==> p.tracked)
  }

  function Decide(w: Strangers, r: Rule, p: Packet): Option<Target> {
    if r.Stranger? then w(r.id, p) else if Hits(r, p) then Some(r.target) else None
  }

  /** First match; None when the chain's policy decides. */
  function First(w: Strangers, c: Chain, p: Packet): Option<Target> {
    if c == [] then None
    else if Decide(w, c[0], p).Some? then Decide(w, c[0], p)
    else First(w, c[1..], p)
  }

  predicate Stops(t: Target) {
    t == Drop || t == Reject
  }

  // ---- editing ----

  /** `-C r || -I r`. */
  function Ensure(c: Chain, r: Rule): Chain {
    if r in c then c else [r] + c
  }

  /** `-C r || -A r`. */
  function EnsureLast(c: Chain, r: Rule): Chain {
    if r in c then c else c + [r]
  }

  /** `-D r`. */
  function RemoveFirst(c: Chain, r: Rule): Chain
    requires r in c
  {
    if c[0] == r then c[1..] else [c[0]] + RemoveFirst(c[1..], r)
  }

  /** Every copy of `r` gone, every other rule kept in order. */
  function Purge(c: Chain, r: Rule): Chain {
    if c == [] then [] else (if c[0] == r then [] else [c[0]]) + Purge(c[1..], r)
  }

  lemma {:induction false} PurgeFree(c: Chain, r: Rule)
    ensures Purge(c, r) == c <==> r !in c
    ensures |Purge(c, r)| <= |c|
    ensures forall x :: x in Purge(c, r) <==> x in c && x != r
  {
    if c != [] {
      PurgeFree(c[1..], r);
      assert c == [c[0]] + c[1..];
    }
  }

  lemma {:induction false} PurgeAppend(a: Chain, b: Chain, r: Rule)
    ensures Purge(a + b, r) == Purge(a, r) + Purge(b, r)
  {
    if a == [] {
      assert a + b == b;
    } else {
      var head: Chain := if a[0] == r then [] else [a[0]];
      assert (a + b)[0] == a[0] && (a + b)[1..] == a[1..] + b;
      PurgeAppend(a[1..], b, r);
      assert Purge(a + b, r) == head + (Purge(a[1..], r) + Purge(b, r));
    }
  }

  lemma {:induction false} PurgeCommutes(c: Chain, r: Rule, q: Rule)
    ensures Purge(Purge(c, r), q) == Purge(Purge(c, q), r)
  {
    if c != [] {
      PurgeCommutes(c[1..], r, q);
      PurgeAppend(if c[0] == r then [] else [c[0]], Purge(c[1..], r), q);
      PurgeAppend(if c[0] == q then [] else [c[0]], Purge(c[1..], q), r);
    }
  }

  /** One `-D` removes one copy and nothing else. */
  lemma {:induction false} RemoveFirstPurge(c: Chain, r: Rule)
    requires r in c
    ensures |RemoveFirst(c, r)| == |c| - 1
    ensures Purge(RemoveFirst(c, r), r) == Purge(c, r)
    ensures forall x :: x != r ==> (x in RemoveFirst(c, r) <==> x in c)
  {
    if c[0] == r {
      assert c == [r] + c[1..];
    } else {
      assert c == [c[0]] + c[1..];
      RemoveFirstPurge(c[1..], r);
      assert RemoveFirst(c, r)[1..] == RemoveFirst(c[1..], r);
    }
  }

  lemma {:induction false} RemoveFirstAt(c: Chain, r: Rule) returns (k: nat)
    requires r in c
    ensures k < |c| && c[k] == r && RemoveFirst(c, r) == c[..k] + c[k + 1..]
  {
    assert c == [c[0]] + c[1..];
    if c[0] == r {
      k := 0;
    } else {
      var rest := c[1..];
      var j := RemoveFirstAt(rest, r);
      k := j + 1;
      assert c[..k] == [c[0]] + rest[..j] && c[k + 1..] == rest[j + 1..];
      assert RemoveFirst(c, r) == [c[0]] + (rest[..j] + rest[j + 1..]);
    }
  }

  function Copies(c: Chain, r: Rule): nat {
    if c == [] then 0 else (if c[0] == r then 1 else 0) + Copies(c[1..], r)
  }

  lemma {:induction false} CopiesAppend(a: Chain, b: Chain, r: Rule)
    ensures Copies(a + b, r) == Copies(a, r) + Copies(b, r)
    ensures r in a <==> Copies(a, r) > 0
  {
    if a == [] {
      assert a + b == b;
    } else {
      assert (a + b)[1..] == a[1..] + b;
      CopiesAppend(a[1..], b, r);
      assert a == [a[0]] + a[1..];
    }
  }

  lemma {:induction false} RemoveFirstCopies(c: Chain, r: Rule)
    requires r in c
    ensures Copies(RemoveFirst(c, r), r) == Copies(c, r) - 1
  {
    assert c == [c[0]] + c[1..];
    if c[0] != r {
      RemoveFirstCopies(c[1..], r);
      assert RemoveFirst(c, r)[1..] == RemoveFirst(c[1..], r);
    }
  }

  /** Adding a rule that is absent and purging it again is the identity; purging undoes Ensure on every chain up to
      the copies that were already there. */
  lemma PurgeEnsure(c: Chain, r: Rule)
    ensures Purge(Ensure(c, r), r) == Purge(c, r) == Purge(EnsureLast(c, r), r)
  {
    if r !in c {
      PurgeAppend([r], c, r);
      PurgeAppend(c, [r], r);
    }
  }

  lemma PurgeEnsureOther(c: Chain, r: Rule, q: Rule)
    requires q != r
    ensures Purge(Ensure(c, q), r) == Ensure(Purge(c, r), q)
    ensures Purge(EnsureLast(c, q), r) == EnsureLast(Purge(c, r), q)
  {
    PurgeFree(c, r);
    PurgeAppend([q], c, r);
    PurgeAppend(c, [q], r);
  }

  // ---- what editing does to verdicts ----

  lemma {:induction false} FirstAppend(w: Strangers, a: Chain, b: Chain, p: Packet)
    ensures First(w, a + b, p) == if First(w, a, p).Some? then First(w, a, p) else First(w, b, p)
  {
    if a == [] {
      assert a + b == b;
    } else {
      assert (a + b)[1..] == a[1..] + b;
      FirstAppend(w, a[1..], b, p);
    }
  }

  /** Re-applying a rule decides exactly the packets it hits when it was absent, and nothing when it was present. */
  lemma EnsureVerdict(w: Strangers, c: Chain, r: Rule, p: Packet)
    requires r.Own?
    ensures First(w, Ensure(c, r), p) == if r !in c && Hits(r, p) then Some(r.target) else First(w, c, p)
    ensures First(w, EnsureLast(c, r), p)
         == if r !in c && First(w, c, p).None? && Hits(r, p) then Some(r.target) else First(w, c, p)
  {
    FirstAppend(w, [r], c, p);
    FirstAppend(w, c, [r], p);
    assert [r][1..] == [];
  }

  /** A rule decides nothing about the packets it does not hit. */
  lemma {:induction false} PurgeMissed(w: Strangers, c: Chain, r: Rule, pkt: Packet)
    requires r.Own? && !Hits(r, pkt)
    ensures First(w, Purge(c, r), pkt) == First(w, c, pkt)
  {
    if c != [] {
      PurgeMissed(w, c[1..], r, pkt);
      FirstAppend(w, if c[0] == r then [] else [c[0]], Purge(c[1..], r), pkt);
      assert [c[0]][1..] == [];
    }
  }

  // ---- shields ----

  /** `x` never accepts a packet that `r` is there to stop. */
  ghost predicate Harmless(w: Strangers, x: Rule, r: Rule)
    requires r.Own?
  {
    forall p :: Hits(r, p) ==> Decide(w, x, p).None? || Stops(Decide(w, x, p).value)
  }

  /** `r` is in the chain and no rule ahead of it accepts what it stops. */
  ghost predicate Shields(w: Strangers, c: Chain, r: Rule)
    requires r.Own?
  {
    c != [] && (c[0] == r || (Harmless(w, c[0], r) && Shields(w, c[1..], r)))
  }

  lemma {:induction false} ShieldStops(w: Strangers, c: Chain, r: Rule, p: Packet)
    requires r.Own? && Stops(r.target) && Shields(w, c, r) && Hits(r, p)
    ensures First(w, c, p).Some? && Stops(First(w, c, p).value)
  {
    if c[0] != r && Decide(w, c[0], p).None? {
      ShieldStops(w, c[1..], r, p);
    }
  }

  /** No rule ahead of any copy of `r` accepts what `r` stops. Unlike a shield, `r` may be missing. */
  ghost predicate Unobstructed(w: Strangers, c: Chain, r: Rule)
    requires r.Own?
  {
    forall i, j :: 0 <= i < j < |c| && c[j] == r ==> Harmless(w, c[i], r)
  }

  /** A rule that is there and unobstructed is a shield. */
  lemma {:induction false} UnobstructedShields(w: Strangers, c: Chain, r: Rule)
    requires r.Own? && Unobstructed(w, c, r) && r in c
    ensures Shields(w, c, r)
  {
    if c[0] != r {
      assert c == [c[0]] + c[1..];
      var j :| 0 <= j < |c| && c[j] == r;
      assert Harmless(w, c[0], r);
      UnobstructedShields(w, c[1..], r);
    }
  }

  lemma UnobstructedDelete(w: Strangers, c: Chain, r: Rule, k: nat)
    requires r.Own? && Unobstructed(w, c, r) && k < |c|
    ensures Unobstructed(w, c[..k] + c[k + 1..], r)
  {
    var c' := c[..k] + c[k + 1..];
    forall i, j | 0 <= i < j < |c'| && c'[j] == r ensures Harmless(w, c'[i], r) {
      var i', j' := if i < k then i else i + 1, if j < k then j else j + 1;
      assert c[i'] == c'[i] && c[j'] == c'[j];
    }
  }

  lemma UnobstructedInsert(w: Strangers, c: Chain, r: Rule, k: nat, x: Rule)
    requires r.Own? && Unobstructed(w, c, r) && k <= |c|
    requires r !in c[k..] || Harmless(w, x, r)
    requires x == r ==> forall i :: 0 <= i < k ==> Harmless(w, c[i], r)
    ensures Unobstructed(w, c[..k] + [x] + c[k..], r)
  {
    var c' := c[..k] + [x] + c[k..];
    forall i, j | 0 <= i < j < |c'| && c'[j] == r ensures Harmless(w, c'[i], r) {
      if i == k {
        assert c'[j] == c[k..][j - k - 1];
      } else if j == k {
        assert c'[i] == c[i];
      } else {
        var i', j' := if i < k then i else i - 1, if j < k then j else j - 1;
        assert c[i'] == c'[i] && c[j'] == c'[j];
      }
    }
  }

  /** A rule inserted behind the shield, or one that is harmless to it, leaves it working. */
  lemma {:induction false} ShieldInsert(w: Strangers, c: Chain, r: Rule, k: nat, x: Rule)
    requires r.Own? && Shields(w, c, r) && k <= |c|
    requires r in c[..k] || Harmless(w, x, r) || x == r
    ensures Shields(w, c[..k] + [x] + c[k..], r)
  {
    var c' := c[..k] + [x] + c[k..];
    if k == 0 {
      assert c'[1..] == c;
    } else {
      assert c'[0] == c[0] && c'[1..] == c[1..][..k - 1] + [x] + c[1..][k - 1..];
      if c[0] != r {
        assert c[..k] == [c[0]] + c[1..][..k - 1];
        ShieldInsert(w, c[1..], r, k - 1, x);
      }
    }
  }

  /** Taking any other rule out leaves the shield working. */
  lemma {:induction false} ShieldDelete(w: Strangers, c: Chain, r: Rule, k: nat)
    requires r.Own? && Shields(w, c, r) && k < |c| && c[k] != r
    ensures Shields(w, c[..k] + c[k + 1..], r)
  {
    var c' := c[..k] + c[k + 1..];
    if k == 0 {
      assert c' == c[1..];
    } else {
      assert c'[0] == c[0] && c'[1..] == c[1..][..k - 1] + c[1..][k..];
      if c[0] != r {
        ShieldDelete(w, c[1..], r, k - 1);
      }
    }
  }
}
