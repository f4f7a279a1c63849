/** Capturing, applying and restoring the three kernel settings (internal/app/app.go). */
module Sysctl {
  import opened Text

  datatype Key = IpForward | RpFilterAll | RpFilterDefault

  /** The value `sysctl --system` gives a key once Hamara's file is in place. */
  function Managed(k: Key): string {
    if k == IpForward then "1" else "2"
  }

  datatype Values = Values(ipForward: string, rpFilterAll: string, rpFilterDefault: string) {
    function Get(k: Key): string {
      match k case IpForward => ipForward case RpFilterAll => rpFilterAll case RpFilterDefault => rpFilterDefault
    }

    function Set(k: Key, v: string): Values {
      match k
      case IpForward => this.(ipForward := v)
      case RpFilterAll => this.(rpFilterAll := v)
      case RpFilterDefault => this.(rpFilterDefault := v)
    }
  }

  const KEYS := [IpForward, RpFilterAll, RpFilterDefault]

  predicate Valid(v: string) {
    v == "0" || v == "1" || v == "2"
  }

  /** The saved configuration, as far as it matters here. */
  datatype Saved = Saved(routed: bool, previous: Values)

  datatype Host = Host(values: Values, config: Option<Saved>)

  /** One key after a restore: put back when it still has the managed value and the previous one is known. */
  function RestoredValue(k: Key, current: string, previous: string): string {
    if current == Managed(k) && Valid(previous) then previous else current
  }

  function Restored(v: Values, previous: Values): Values {
    Values(RestoredValue(IpForward, v.ipForward, previous.ipForward),
           RestoredValue(RpFilterAll, v.rpFilterAll, previous.rpFilterAll),
           RestoredValue(RpFilterDefault, v.rpFilterDefault, previous.rpFilterDefault))
  }

  function UninstallOf(h: Host): Host {
    var routed := h.config.Some? && h.config.value.routed;
    Host(if routed then Restored(h.values, h.config.value.previous) else h.values, None)
  }

  /** Everything an initialisation on an unconfigured host may end with: nothing done, or the configuration saved with
      the values captured before, and any of the keys applied. */
  ghost predicate InitRel(routed: bool, a: Host, b: Host) {
    b == a
    || (&& b.config.Some? && b.config.value.routed == routed
        && (routed ==> b.config.value.previous == a.values)
        && forall k: Key :: b.values.Get(k) == a.values.Get(k) || (routed && b.values.Get(k) == Managed(k)))
  }

  /** At every moment, either nothing has been changed since `start` or the configuration that can undo it is saved. */
  ghost predicate Undoable(start: Values, h: Host) {
    h.values == start || (h.config.Some? && h.config.value == Saved(true, start))
  }

  class Kernel {
    var host: Host
    ghost var moments: seq<Host>

    constructor (values: Values)
      ensures host == Host(values, None) && moments == []
    {
      host := Host(values, None);
      moments := [];
    }

    method Write(k: Key, v: string)
      modifies this
      ensures host == old(host).(values := old(host).values.Set(k, v)) && moments == old(moments) + [host]
    {
      host := host.(values := host.values.Set(k, v));
      moments := moments + [host];
    }

    method Save(config: Option<Saved>)
      modifies this
      ensures host == old(host).(config := config) && moments == old(moments) + [host]
    {
      host := host.(config := config);
      moments := moments + [host];
    }

    /** restorePreviousSysctls, when its writes succeed. */
    method RestorePrevious(previous: Values)
      modifies this
      ensures host == old(host).(values := Restored(old(host).values, previous))
    {
      for i := 0 to |KEYS|
        invariant host.config == old(host).config
        invariant forall j :: 0 <= j < i ==>
          host.values.Get(KEYS[j]) == RestoredValue(KEYS[j], old(host).values.Get(KEYS[j]), previous.Get(KEYS[j]))
        invariant forall j :: i <= j < |KEYS| ==> host.values.Get(KEYS[j]) == old(host).values.Get(KEYS[j])
      {
        var k := KEYS[i];
        if host.values.Get(k) == Managed(k) && Valid(previous.Get(k)) {
          Write(k, previous.Get(k));
        }
      }
      assert KEYS[0] == IpForward && KEYS[1] == RpFilterAll && KEYS[2] == RpFilterDefault;
    }

    method Uninstall()
      modifies this
      ensures host == UninstallOf(old(host))
    {
      if host.config.Some? && host.config.value.routed {
        RestorePrevious(host.config.value.previous);
      }
      Save(None);
    }

    /** InitOutside and Join on an unconfigured host: capture, save, then apply; each part may be the last, unless
        `reliable` says that nothing fails. */
    method Init(routed: bool, reliable: bool)
      requires host.config.None?
      modifies this
      ensures InitRel(routed, old(host), host)
      ensures reliable ==> host.config == Some(Saved(routed, if routed then old(host).values else Values("", "", "")))
      ensures reliable ==> host.values == if routed then Values("1", "2", "2") else old(host).values
      ensures |old(moments)| <= |moments| && moments[..|old(moments)|] == old(moments)
      ensures forall i :: |old(moments)| <= i < |moments| ==> Undoable(old(host).values, moments[i])
    {
      var previous := if routed then host.values else Values("", "", "");
      var prepared: bool := *;
      if !prepared && !reliable { return; }
      Save(Some(Saved(routed, previous)));
      if !routed { return; }
      for i := 0 to |KEYS|
        invariant host.config == Some(Saved(true, previous)) && previous == old(host).values
        invariant forall k: Key :: host.values.Get(k) == old(host).values.Get(k) || host.values.Get(k) == Managed(k)
        invariant reliable ==> forall j :: 0 <= j < i ==> host.values.Get(KEYS[j]) == Managed(KEYS[j])
        invariant |old(moments)| <= |moments| && moments[..|old(moments)|] == old(moments)
        invariant forall j :: |old(moments)| <= j < |moments| ==> Undoable(old(host).values, moments[j])
      {
        var applied: bool := *;
        if applied || reliable {
          Write(KEYS[i], Managed(KEYS[i]));
        }
      }
      assert KEYS[0] == IpForward && KEYS[1] == RpFilterAll && KEYS[2] == RpFilterDefault;
    }

    /** InitOutside with or without --force on any host. */
    method Reinstall(routed: bool, force: bool, reliable: bool)
      modifies this
      ensures reliable && (old(host).config.None? || force) ==>
                host.config.Some? && host.config.value.routed == routed
                && (routed ==> host.values == Values("1", "2", "2"))
      ensures if old(host).config.Some? && !force then host == old(host)
              else InitRel(routed, if old(host).config.Some? then UninstallOf(old(host)) else old(host), host)
    {
      if host.config.Some? {
        if !force { return; }
        Uninstall();
      }
      Init(routed, reliable);
    }
  }

  // ---- cycles of install and uninstall ----

  datatype Event = Install(routed: bool, force: bool) | Remove | Foreign(k: Key, v: string)

  /** `base` is what the keys would be without Hamara: the last value that somebody else gave each. */
  ghost predicate Next(a: Host, base: Values, e: Event, b: Host, base': Values) {
    match e
    case Install(routed, force) =>
      && base' == base
      && if a.config.Some? && !force then b == a
         else InitRel(routed, if a.config.Some? then UninstallOf(a) else a, b)
    case Remove => b == UninstallOf(a) && base' == base
    case Foreign(k, v) =>
      // while Hamara's values are applied, somebody else may set anything but the managed value itself
      && (v == "0" || v == "1" || v == "2") && (a.config.Some? && a.config.value.routed ==> v != Managed(k))
      && b == a.(values := a.values.Set(k, v)) && base' == base.Set(k, v)
  }

  ghost predicate KeyKept(h: Host, base: Values, k: Key) {
    var v, b := h.values.Get(k), base.Get(k);
    && Valid(b)
    && if h.config.Some? && h.config.value.routed then
         (v == b && b != Managed(k)) || (v in {b, Managed(k)} && h.config.value.previous.Get(k) == b)
       else v == b
  }

  ghost predicate Kept(h: Host, base: Values) {
    forall k: Key :: KeyKept(h, base, k)
  }

  lemma UninstallKey(h: Host, base: Values, k: Key)
    requires KeyKept(h, base, k)
    ensures UninstallOf(h).values.Get(k) == base.Get(k)
  {
  }

  lemma InstallKey(routed: bool, a: Host, b: Host, base: Values, k: Key)
    requires a.config.None? && KeyKept(a, base, k) && InitRel(routed, a, b)
    ensures KeyKept(b, base, k)
  {
  }

  lemma ForeignKey(a: Host, base: Values, k': Key, v: string, k: Key)
    requires KeyKept(a, base, k) && (v == "0" || v == "1" || v == "2")
    requires a.config.Some? && a.config.value.routed ==> v != Managed(k')
    ensures KeyKept(a.(values := a.values.Set(k', v)), base.Set(k', v), k)
  {
  }

  lemma StepKeeps(a: Host, base: Values, e: Event, b: Host, base': Values)
    requires Kept(a, base) && Next(a, base, e, b, base')
    ensures Kept(b, base')
  {
    forall k: Key ensures KeyKept(b, base', k) {
      assert KeyKept(a, base, k);
      match e {
        case Install(routed, force) =>
          if a.config.None? {
            InstallKey(routed, a, b, base, k);
          } else if force {
            UninstallKey(a, base, k);
            InstallKey(routed, UninstallOf(a), b, base, k);
          }
        case Remove => UninstallKey(a, base, k);
        case Foreign(k', v) => ForeignKey(a, base, k', v, k);
      }
    }
  }

  ghost predicate IsRun(hosts: seq<Host>, bases: seq<Values>, events: seq<Event>) {
    && |hosts| == |bases| == |events| + 1
    && hosts[0].config.None? && hosts[0].values == bases[0]
    && (forall k: Key :: bases[0].Get(k) == "0" || bases[0].Get(k) == "1" || bases[0].Get(k) == "2")
    && forall i :: 0 <= i < |events| ==> Next(hosts[i], bases[i], events[i], hosts[i + 1], bases[i + 1])
  }

  /** Over any number of installs, forced re-installs with a change of mode, failures part-way and uninstalls: a host
      without a configuration has its own values back, and a captured value is never Hamara's own. */
  lemma {:induction false} Conserved(hosts: seq<Host>, bases: seq<Values>, events: seq<Event>, i: nat)
    requires IsRun(hosts, bases, events) && i < |hosts|
    ensures Kept(hosts[i], bases[i])
    ensures hosts[i].config.None? ==> hosts[i].values == bases[i]
    ensures UninstallOf(hosts[i]).values == bases[i]
  {
    if i > 0 {
      Conserved(hosts, bases, events, i - 1);
      StepKeeps(hosts[i - 1], bases[i - 1], events[i - 1], hosts[i], bases[i]);
    } else {
      assert forall k: Key :: KeyKept(hosts[0], bases[0], k);
    }
    forall k: Key ensures UninstallOf(hosts[i]).values.Get(k) == bases[i].Get(k)
                  ensures hosts[i].config.None? ==> hosts[i].values.Get(k) == bases[i].Get(k) {
      assert KeyKept(hosts[i], bases[i], k);
      UninstallKey(hosts[i], bases[i], k);
    }
    SameValues(UninstallOf(hosts[i]).values, bases[i]);
    if hosts[i].config.None? {
      SameValues(hosts[i].values, bases[i]);
    }
  }

  lemma SameValues(v: Values, u: Values)
    requires forall k: Key :: v.Get(k) == u.Get(k)
    ensures v == u
  {
    assert v.Get(IpForward) == u.Get(IpForward) && v.Get(RpFilterAll) == u.Get(RpFilterAll);
    assert v.Get(RpFilterDefault) == u.Get(RpFilterDefault);
  }

  /** A value that somebody else sets while Hamara is installed survives the uninstall exactly when it is not the
      managed one, or the captured one is unusable, or both are the same: from the outside, a deliberate "1" cannot be
      told from Hamara's own. */
  lemma ForeignSurvives(h: Host, k: Key, v: string)
    requires h.config.Some? && h.config.value.routed
    ensures UninstallOf(h.(values := h.values.Set(k, v))).values.Get(k) == v
       <==> v != Managed(k) || !Valid(h.config.value.previous.Get(k)) || h.config.value.previous.Get(k) == v
  {
  }
}
