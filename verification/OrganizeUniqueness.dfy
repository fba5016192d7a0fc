/**
 * No two enabled peers share a name, a key or an address, over whole runs:
 * including names and addresses kept from older descriptors, which the schema
 * never looks at.
 */
module OrganizeUniqueness {
  import opened Addresses
  import opened OrderedDict
  import opened Queryable
  import opened Peers
  import opened OrganizeModel
  import opened OrganizeEffects
  import opened OrganizeInvariant

  ghost predicate Apart(p: Peer, q: Peer) {
    && p.EnabledNames() !! q.EnabledNames()
    && p.descriptor.pk != q.descriptor.pk
    && p.EnabledAddrs() !! q.EnabledAddrs()
  }

  ghost predicate Unique(ps: PeerDict) {
    forall a, b | a in ps.at && b in ps.at && a != b && ps.at[a].enabled && ps.at[b].enabled ::
      Apart(ps.at[a], ps.at[b])
  }

  // ----- where names and addresses come from -----

  function OldNames(was: Option<Peer>): set<string> {
    if was.Some? && was.value.enabled then was.value.EnabledNames() else {}
  }

  function OldAddrs(was: Option<Peer>): set<IP> {
    if was.Some? && was.value.enabled then was.value.EnabledAddrs() else {}
  }

  /** An enabled record holds what it held, what its descriptor announces, and the extras. */
  predicate From(p: Peer, was: Option<Peer>, names: set<string>, addrs: set<IP>) {
    p.enabled ==>
      && p.EnabledNames() <= OldNames(was) + {p.descriptor.hostname} + names
      && p.EnabledAddrs() <= OldAddrs(was) + p.descriptor.Announced() + addrs
  }

  function OldOf(ps: PeerDict, k: Key): Option<Peer> {
    if k in ps.at then Some(ps.at[k]) else None
  }

  /** Everything after comes from before, except the extras of one peer. */
  ghost predicate Traced(base: PeerDict, next: PeerDict, vk: Key, names: set<string>, addrs: set<IP>) {
    forall k | k in next.at ::
      From(next.at[k], OldOf(base, k), if k == vk then names else {}, if k == vk then addrs else {})
  }

  /** No other enabled peer holds one of these. */
  ghost predicate OthersLack(ps: PeerDict, vk: Key, names: set<string>, addrs: set<IP>) {
    forall k | k in ps.at && k != vk && ps.at[k].enabled ::
      ps.at[k].EnabledNames() !! names && ps.at[k].EnabledAddrs() !! addrs
  }

  lemma NoSharedClaim(p: Peer, d: Descriptor)
    requires p.Id() != d.vk && !Clash(p, d)
    ensures d.hostname !in p.EnabledNames() && p.descriptor.pk != d.pk && d.Announced() !! p.EnabledAddrs()
  {
    var shared := d.Announced() * p.EnabledAddrs();
    assert forall ip | ip in d.Announced() :: ip in p.EnabledAddrs() <==> ip in shared;
  }

  lemma PairApart(p: Peer, q: Peer, oldP: Option<Peer>, oldQ: Option<Peer>, names: set<string>, addrs: set<IP>)
    requires p.enabled && q.enabled && p.Id() != q.Id()
    requires !Clash(p, q.descriptor) && !Clash(q, p.descriptor)
    requires From(p, oldP, names, addrs) && From(q, oldQ, {}, {})
    requires OldNames(oldP) !! OldNames(oldQ) && OldAddrs(oldP) !! OldAddrs(oldQ)
    requires names !! OldNames(oldQ) && addrs !! OldAddrs(oldQ)
    ensures Apart(p, q)
  {
    NoSharedClaim(p, q.descriptor);
    NoSharedClaim(q, p.descriptor);
  }

  lemma OldApart(base: PeerDict, x: Key, y: Key)
    requires Unique(base) && x != y
    ensures OldNames(OldOf(base, x)) !! OldNames(OldOf(base, y)) && OldAddrs(OldOf(base, x)) !! OldAddrs(OldOf(base, y))
  {
    if x in base.at && y in base.at && base.at[x].enabled && base.at[y].enabled {
      assert Apart(base.at[x], base.at[y]);
    }
  }

  lemma OldLack(base: PeerDict, vk: Key, names: set<string>, addrs: set<IP>, x: Key, y: Key)
    requires OthersLack(base, vk, names, addrs) && x != y && y != vk
    ensures (if x == vk then names else {}) !! OldNames(OldOf(base, y))
    ensures (if x == vk then addrs else {}) !! OldAddrs(OldOf(base, y))
  {
  }

  /** Behind the gate, what is traced to a unique state is unique. */
  lemma TracedIsUnique(base: PeerDict, next: PeerDict, vk: Key, names: set<string>, addrs: set<IP>)
    requires PeersOk(next) && NoClash(next)
    requires Unique(base)
    requires Traced(base, next, vk, names, addrs)
    requires OthersLack(base, vk, names, addrs)
    ensures Unique(next)
  {
    forall a, b | a in next.at && b in next.at && a != b && next.at[a].enabled && next.at[b].enabled
      ensures Apart(next.at[a], next.at[b])
    {
      var x, y := if b == vk then b else a, if b == vk then a else b;
      OldApart(base, x, y);
      assert From(next.at[x], OldOf(base, x), if x == vk then names else {}, if x == vk then addrs else {});
      assert From(next.at[y], OldOf(base, y), {}, {});
      OldLack(base, vk, names, addrs, x, y);
      PairApart(next.at[x], next.at[y], OldOf(base, x), OldOf(base, y),
                if x == vk then names else {}, if x == vk then addrs else {});
    }
  }

  // ----- tracing each event -----

  /**
   * A refreshed record: its names and the last one announced; the announced addresses, and
   * the recorded ones if pinned.
   */
  lemma RefreshFrom(q: Peer, base: State, sys: SystemState)
    ensures var r := Refresh(q, q.descriptor, base, sys);
            r.Some? ==>
              && r.value.descriptor == q.descriptor && r.value.enabled == q.enabled
              && r.value.EnabledNames() <= q.EnabledNames() + {q.descriptor.hostname}
              && r.value.EnabledAddrs() <= q.descriptor.Announced() + (if q.pinned then q.Recorded() else {})
  {
  }

  lemma RecordedFrom(p: Peer)
    requires PeerOk(p)
    ensures p.Recorded() <= p.EnabledAddrs() + p.descriptor.Announced()
    ensures p.pinned ==> p.Recorded() == p.EnabledAddrs()
  {
    if p.pinned {
      AllOnRecorded(p);
    }
  }

  /** The names a hand edit may bring to an enabled peer that no descriptor announced. */
  function ExtraNames(p: Peer, f: UserField): set<string> {
    if !SetField(p, f).enabled then {}
    else
      match f
      case Nickname(name, on) => if on then {name} else {}
      case Petname(name) => if name == "" then {} else {name}
      case Enabled(_) => if p.enabled then {} else p.EnabledNames()
      case _ => {}
  }

  /** The addresses a hand edit may bring: for a pinned peer, even one that is being switched off. */
  function ExtraAddrs(p: Peer, f: UserField): set<IP> {
    if !SetField(p, f).enabled || !p.pinned then {}
    else
      match f
      case Addr(ip, _) => {ip}
      case Enabled(_) => if p.enabled then {} else p.Recorded()
      case _ => {}
  }

  lemma EditedNames(p: Peer, f: UserField)
    requires SetField(p, f).enabled
    ensures SetField(p, f).EnabledNames() <= OldNames(Some(p)) + ExtraNames(p, f)
  {
    match f
    case Nickname(name, on) =>
    case Petname(name) =>
    case _ =>
  }

  lemma AddrRecorded(p: Peer, ip: IP, on: bool)
    ensures SetField(p, Addr(ip, on)).Recorded() == p.Recorded() + {ip}
  {
    if ip.V4? {
      assert p.v4[ip := on].Keys == p.v4.Keys + {ip};
    } else {
      assert p.v6[ip := on].Keys == p.v6.Keys + {ip};
    }
  }

  lemma FieldRecorded(p: Peer, f: UserField)
    ensures SetField(p, f).Recorded() == p.Recorded() + (if f.Addr? then {f.ip} else {})
  {
    if f.Addr? {
      AddrRecorded(p, f.ip, f.on);
    }
  }

  lemma FieldSwitches(p: Peer, f: UserField)
    ensures !f.Enabled? ==> SetField(p, f).enabled == p.enabled
    ensures !f.Pinned? ==> SetField(p, f).pinned == p.pinned
  {
  }

  lemma EditedRecorded(p: Peer, f: UserField)
    requires PeerOk(p) && SetField(p, f).enabled && SetField(p, f).pinned
    ensures SetField(p, f).Recorded() <= OldAddrs(Some(p)) + p.descriptor.Announced() + ExtraAddrs(p, f)
  {
    RecordedFrom(p);
    FieldRecorded(p, f);
    FieldSwitches(p, f);
  }

  lemma EditFrom(p: Peer, f: UserField, base: State)
    requires PeerOk(p)
    ensures var q := SetField(p, f);
            var r := Refresh(q, q.descriptor, base, base.system);
            r.Some? ==> From(r.value, Some(p), ExtraNames(p, f), ExtraAddrs(p, f))
  {
    var q := SetField(p, f);
    UserFieldKeepsId(p, f);
    RefreshFrom(q, base, base.system);
    if q.enabled {
      EditedNames(p, f);
      if q.pinned {
        EditedRecorded(p, f);
      }
    }
  }

  lemma UntouchedFrom(p: Peer)
    ensures From(p, Some(p), {}, {})
  {
  }

  lemma EditLeavesOthers(n: State, base: State, vk: Key, f: UserField, k: Key)
    requires EditNext(n, base, vk, f).Some? && k != vk
    ensures var next := EditNext(n, base, vk, f).value.peers;
            && (k in next.at <==> k in n.peers.at)
            && (k in next.at ==> next.at[k] == n.peers.at[k])
  {
  }

  lemma EditedRecord(n: State, base: State, vk: Key, f: UserField)
    requires EditNext(n, base, vk, f).Some?
    ensures var next := EditNext(n, base, vk, f).value.peers;
            var q := SetField(n.peers.at[vk], f);
            var r := Refresh(q, q.descriptor, base, base.system);
            (vk in next.at <==> r.Some?) && (vk in next.at ==> next.at[vk] == r.value)
  {
  }

  lemma UntouchedByEdit(base: State, vk: Key, f: UserField, k: Key)
    requires EditNext(base, base, vk, f).Some? && k != vk
    ensures var next := EditNext(base, base, vk, f).value.peers;
            k in next.at ==> From(next.at[k], OldOf(base.peers, k), {}, {})
  {
    EditLeavesOthers(base, base, vk, f, k);
  }

  lemma EditTraced(base: State, vk: Key, f: UserField)
    requires PeersOk(base.peers) && EditNext(base, base, vk, f).Some?
    ensures Traced(base.peers, EditNext(base, base, vk, f).value.peers, vk,
                   ExtraNames(base.peers.at[vk], f), ExtraAddrs(base.peers.at[vk], f))
  {
    EditFrom(base.peers.at[vk], f, base);
    EditedRecord(base, base, vk, f);
    forall k | k != vk
      ensures var next := EditNext(base, base, vk, f).value.peers;
              k in next.at ==> From(next.at[k], OldOf(base.peers, k), {}, {}) {
      UntouchedByEdit(base, vk, f, k);
    }
  }

  lemma FromTwice(p: Peer, q: Peer, was: Option<Peer>)
    requires From(p, Some(q), {}, {}) && From(q, was, {}, {})
    requires p.descriptor == q.descriptor
    ensures From(p, was, {}, {})
  {
  }

  lemma VerifyingBringsNothing(p: Peer)
    ensures ExtraNames(p, Verified(true)) == {} && ExtraAddrs(p, Verified(true)) == {}
  {
  }

  lemma PinningBringsNothing(p: Peer)
    ensures ExtraNames(p, Pinned(true)) == {} && ExtraAddrs(p, Pinned(true)) == {}
  {
  }

  lemma PinningFrom(p: Peer, base: State)
    requires PeerOk(p)
    ensures var q := SetField(p, Pinned(true));
            var r := Refresh(q, q.descriptor, base, base.system);
            r.Some? ==> From(r.value, Some(p), {}, {}) && r.value.descriptor == p.descriptor
  {
    PinningBringsNothing(p);
    EditFrom(p, Pinned(true), base);
    RefreshFrom(SetField(p, Pinned(true)), base, base.system);
  }

  lemma PinnedFrom(base: State, mid: State, vk: Key, was: Option<Peer>)
    requires PeersOk(mid.peers) && vk in mid.peers.at
    requires From(mid.peers.at[vk], was, {}, {})
    ensures var q := SetField(mid.peers.at[vk], Pinned(true));
            var r := Refresh(q, q.descriptor, base, base.system);
            r.Some? ==> From(r.value, was, {}, {})
  {
    PinningFrom(mid.peers.at[vk], base);
    var q := SetField(mid.peers.at[vk], Pinned(true));
    var r := Refresh(q, q.descriptor, base, base.system);
    if r.Some? {
      FromTwice(r.value, mid.peers.at[vk], was);
    }
  }

  lemma VerifiedTraced(base: State, mid: State, vk: Key)
    requires PeersOk(base.peers) && EditNext(base, base, vk, Verified(true)) == Some(mid)
    ensures PeersOk(mid.peers) && Traced(base.peers, mid.peers, vk, {}, {})
  {
    VerifyingBringsNothing(base.peers.at[vk]);
    EditTraced(base, vk, Verified(true));
    EditOk(base, base, vk, Verified(true));
  }

  /** The second half of verifying: pinning what the first half left. */
  lemma PinnedTraced(base: State, mid: State, vk: Key)
    requires PeersOk(mid.peers) && Traced(base.peers, mid.peers, vk, {}, {})
    requires EditNext(mid, base, vk, Pinned(true)).Some?
    ensures Traced(base.peers, EditNext(mid, base, vk, Pinned(true)).value.peers, vk, {}, {})
  {
    var next := EditNext(mid, base, vk, Pinned(true)).value.peers;
    PinnedFrom(base, mid, vk, OldOf(base.peers, vk));
    forall k | k in next.at ensures From(next.at[k], OldOf(base.peers, k), {}, {}) {
      if k != vk {
        EditLeavesOthers(mid, base, vk, Pinned(true), k);
      }
    }
  }

  lemma VerifyTraced(base: State, vk: Key, hostname: string)
    requires PeersOk(base.peers) && VerifyNext(base, vk, hostname).Some?
    ensures Traced(base.peers, VerifyNext(base, vk, hostname).value.peers, vk, {}, {})
  {
    var mid := EditNext(base, base, vk, Verified(true));
    VerifiedTraced(base, mid.value, vk);
    PinnedTraced(base, mid.value, vk);
  }

  lemma SweptFrom(p: Peer, flagged: Peer, base: State, sys: SystemState)
    requires PeerOk(p) && SameButFlag(p, flagged)
    ensures var r := Refresh(flagged, flagged.descriptor, base, sys);
            r.Some? ==> From(r.value, Some(p), {}, {})
  {
    RefreshFrom(flagged, base, sys);
    RecordedFrom(p);
  }

  lemma SweepTraced(base: State, sys: SystemState, vk: Key)
    requires PeersOk(base.peers)
    ensures Traced(base.peers, AdjustNext(base, sys).peers, vk, {}, {})
  {
    var flagged := Reflagged(base, sys);
    var next := AdjustNext(base, sys).peers;
    ReflagFlags(base, sys);
    SweepAt(flagged, base.peers.order, base, sys);
    forall k | k in next.at ensures From(next.at[k], OldOf(base.peers, k), {}, {}) {
      assert SweptAt(next, flagged, k, base, sys);
      SweptFrom(base.peers.at[k], flagged.at[k], base, sys);
    }
  }

  lemma DraftFrom(base: State, d: Descriptor)
    requires PeersOk(base.peers)
    ensures var r := Refresh(Draft(base, d), d, base, base.system);
            r.Some? ==> From(r.value, OldOf(base.peers, d.vk), {}, {})
  {
    RefreshFrom(Draft(base, d), base, base.system);
    if d.vk in base.peers.at {
      RecordedFrom(base.peers.at[d.vk]);
    }
  }

  lemma AdmitTraced(base: State, d: Descriptor, vk: Key)
    requires PeersOk(base.peers)
    ensures Traced(base.peers, AdmitNext(base, d).peers, vk, {}, {})
  {
    DropAllAt(base.peers, ConflictsForDescriptor(Values(base.peers), d));
    DraftFrom(base, d);
    var next := AdmitNext(base, d).peers;
    forall k | k in next.at && k != d.vk ensures From(next.at[k], OldOf(base.peers, k), {}, {}) {
      UntouchedFrom(base.peers.at[k]);
    }
  }

  lemma AddrAddTraced(base: State, vk: Key, ip: IP)
    requires vk in base.peers.at
    ensures Traced(base.peers, AddrAddNext(base, vk, Some(ip)).value.peers, vk, {}, {ip})
  {
    var next := AddrAddNext(base, vk, Some(ip)).value.peers;
    forall k | k in next.at && k != vk ensures From(next.at[k], OldOf(base.peers, k), {}, {}) {
      UntouchedFrom(base.peers.at[k]);
    }
    var q := SetField(base.peers.at[vk], Addr(ip, true));
    assert q.EnabledAddrs() == base.peers.at[vk].EnabledAddrs() + {ip};
  }

  lemma AddrDelTraced(base: State, vk: Key, ip: IP)
    requires vk in base.peers.at && HasAddr(base.peers.at[vk], ip)
    ensures Traced(base.peers, AddrDelNext(base, vk, Some(ip)).value.peers, vk, {}, {})
  {
    var next := AddrDelNext(base, vk, Some(ip)).value.peers;
    forall k | k in next.at && k != vk ensures From(next.at[k], OldOf(base.peers, k), {}, {}) {
      UntouchedFrom(base.peers.at[k]);
    }
    assert WithoutAddr(base.peers.at[vk], ip).EnabledAddrs() <= base.peers.at[vk].EnabledAddrs();
  }

  // ----- the theorem -----

  /** What the user can check before an edit by hand: nobody else holds what it brings. */
  ghost predicate Harmless(st: State, ev: Event) {
    match ev
    case AddrAdd(vk, Some(ip)) =>
      vk in st.peers.at && st.peers.at[vk].enabled ==> OthersLack(st.peers, vk, {}, {ip})
    case EditPeer(vk, f) =>
      vk in st.peers.at ==> OthersLack(st.peers, vk, ExtraNames(st.peers.at[vk], f), ExtraAddrs(st.peers.at[vk], f))
    case _ => true
  }

  /** Events that need no check: everything but hand edits of names, addresses and the enabled switch. */
  predicate HandsOff(ev: Event) {
    match ev
    case AddrAdd(_, _) => false
    case EditPeer(_, f) => f.Pinned? || f.Verified? || f.Gateway?
    case _ => true
  }

  lemma HandsOffHarmless(st: State, ev: Event)
    requires HandsOff(ev)
    ensures Harmless(st, ev)
  {
  }

  lemma AddrAddUnique(base: PeerDict, next: PeerDict, vk: Key, ip: IP)
    requires forall k | k in next.at :: k in base.at && (k != vk ==> next.at[k] == base.at[k])
    requires vk in next.at && next.at[vk].enabled == base.at[vk].enabled
    requires Unique(base) && PeersOk(next) && NoClash(next)
    requires Traced(base, next, vk, {}, {ip})
    requires base.at[vk].enabled ==> OthersLack(base, vk, {}, {ip})
    ensures Unique(next)
  {
    if base.at[vk].enabled {
      TracedIsUnique(base, next, vk, {}, {ip});
    }
  }

  lemma AddrAddLeaves(base: State, vk: Key, ip: IP, k: Key)
    requires vk in base.peers.at && k in AddrAddNext(base, vk, Some(ip)).value.peers.at
    ensures k in base.peers.at
    ensures var next := AddrAddNext(base, vk, Some(ip)).value.peers;
            (k != vk ==> next.at[k] == base.peers.at[k]) && (k == vk ==> next.at[k].enabled == base.peers.at[k].enabled)
  {
  }

  lemma AddrAddedUnique(base: State, next: State, vk: Key, ip: IP)
    requires vk in base.peers.at && Unique(base.peers) && Harmless(base, AddrAdd(vk, Some(ip)))
    requires AddrAddNext(base, vk, Some(ip)) == Some(next) && PeersOk(next.peers) && NoClash(next.peers)
    ensures Unique(next.peers)
  {
    AddrAddTraced(base, vk, ip);
    forall k | k in next.peers.at
      ensures k in base.peers.at
      ensures (k != vk ==> next.peers.at[k] == base.peers.at[k])
              && (k == vk ==> next.peers.at[k].enabled == base.peers.at[k].enabled) {
      AddrAddLeaves(base, vk, ip, k);
    }
    AddrAddUnique(base.peers, next.peers, vk, ip);
  }

  lemma AddrDeletedUnique(base: State, next: State, vk: Key, ip: IP)
    requires vk in base.peers.at && Unique(base.peers)
    requires AddrDelNext(base, vk, Some(ip)) == Some(next) && PeersOk(next.peers) && NoClash(next.peers)
    ensures Unique(next.peers)
  {
    AddrDelTraced(base, vk, ip);
    TracedIsUnique(base.peers, next.peers, vk, {}, {});
  }

  lemma AddrEventsUnique(base: State, vk: Key, ip: Option<IP>, next: State)
    requires Unique(base.peers) && PeersOk(next.peers) && NoClash(next.peers)
    ensures AddrAddNext(base, vk, ip) == Some(next) && Harmless(base, AddrAdd(vk, ip)) ==> Unique(next.peers)
    ensures AddrDelNext(base, vk, ip) == Some(next) ==> Unique(next.peers)
  {
    if vk in base.peers.at && ip.Some? {
      if AddrAddNext(base, vk, ip) == Some(next) && Harmless(base, AddrAdd(vk, ip)) {
        AddrAddedUnique(base, next, vk, ip.value);
      }
      if AddrDelNext(base, vk, ip) == Some(next) {
        AddrDeletedUnique(base, next, vk, ip.value);
      }
    }
  }

  lemma EditUnique(base: State, vk: Key, f: UserField)
    requires PeersOk(base.peers) && Unique(base.peers) && Harmless(base, EditPeer(vk, f))
    requires var r := EditNext(base, base, vk, f); r.Some? && PeersOk(r.value.peers) && NoClash(r.value.peers)
    ensures Unique(EditNext(base, base, vk, f).value.peers)
  {
    EditTraced(base, vk, f);
    TracedIsUnique(base.peers, EditNext(base, base, vk, f).value.peers, vk,
                   ExtraNames(base.peers.at[vk], f), ExtraAddrs(base.peers.at[vk], f));
  }

  lemma VerifyUnique(base: State, vk: Key, hostname: string)
    requires PeersOk(base.peers) && Unique(base.peers)
    requires var r := VerifyNext(base, vk, hostname); r.Some? && PeersOk(r.value.peers) && NoClash(r.value.peers)
    ensures Unique(VerifyNext(base, vk, hostname).value.peers)
  {
    VerifyTraced(base, vk, hostname);
    TracedIsUnique(base.peers, VerifyNext(base, vk, hostname).value.peers, vk, {}, {});
  }

  lemma UnflaggedUnique(base: State, vk: Key, next: State)
    requires PeersOk(base.peers) && Unique(base.peers)
    requires EditNext(base, base, vk, Gateway(false)) == Some(next) && PeersOk(next.peers) && NoClash(next.peers)
    ensures Unique(next.peers)
  {
    HandsOffHarmless(base, EditPeer(vk, Gateway(false)));
    EditUnique(base, vk, Gateway(false));
  }

  lemma ReleaseUnique(base: State, next: State)
    requires PeersOk(base.peers) && Unique(base.peers)
    requires ReleaseNext(base) == Some(next) && PeersOk(next.peers) && NoClash(next.peers)
    ensures Unique(next.peers)
  {
    var cur := FirstGateway(Values(base.peers));
    if cur.Some? {
      UnflaggedUnique(base, cur.value.Id(), next);
    }
  }

  lemma SweepUnique(base: State, sys: SystemState)
    requires PeersOk(base.peers) && Unique(base.peers)
    requires var ps := AdjustNext(base, sys).peers; PeersOk(ps) && NoClash(ps)
    ensures Unique(AdjustNext(base, sys).peers)
  {
    SweepTraced(base, sys, Key([]));
    TracedIsUnique(base.peers, AdjustNext(base, sys).peers, Key([]), {}, {});
  }

  lemma IncomingUnique(base: State, d: Descriptor)
    requires PeersOk(base.peers) && Unique(base.peers)
    requires var r := IncomingNext(base, d); r.Some? && PeersOk(r.value.peers) && NoClash(r.value.peers)
    ensures Unique(IncomingNext(base, d).value.peers)
  {
    if Judge(base, d).Admitted? {
      AdmitTraced(base, d, Key([]));
      TracedIsUnique(base.peers, AdmitNext(base, d).peers, Key([]), {}, {});
    }
  }

  lemma RemoveUnique(base: State, q: Query)
    requires Unique(base.peers) && RemoveNext(base, q).Some?
    ensures Unique(RemoveNext(base, q).value.peers)
  {
  }

  lemma NextUnique(base: State, ev: Event)
    requires PeersOk(base.peers) && Unique(base.peers) && Harmless(base, ev)
    requires Next(base, ev).Some? && PeersOk(Next(base, ev).value.peers) && NoClash(Next(base, ev).value.peers)
    ensures Unique(Next(base, ev).value.peers)
  {
    match ev
    case VerifyAndPin(vk, hostname) => VerifyUnique(base, vk, hostname);
    case UserRemovePeer(q) => RemoveUnique(base, q);
    case AddrAdd(vk, ip) => AddrEventsUnique(base, vk, ip, Next(base, ev).value);
    case AddrDel(vk, ip) => AddrEventsUnique(base, vk, ip, Next(base, ev).value);
    case EditPeer(vk, f) => EditUnique(base, vk, f);
    case EditPref(_, _, _) =>
    case ReleaseGateway => ReleaseUnique(base, Next(base, ev).value);
    case NewSystemState(sys) => SweepUnique(base, sys);
    case Incoming(d) => IncomingUnique(base, d);
  }

  /** One event, committed or not, keeps names, keys and addresses apart unless a hand edit takes one that is held. */
  lemma StepKeepsUnique(base: State, ev: Event)
    requires Inv(base) && Unique(base.peers) && Harmless(base, ev)
    ensures Unique(Step(base, ev).state.peers)
  {
    StepKeepsInv(base, ev);
    if Step(base, ev).result.error.None? {
      NextUnique(base, ev);
    }
  }

  ghost predicate HarmlessRun(st: State, evs: seq<Event>) {
    forall i | 0 <= i < |evs| :: Harmless(RunAll(st, evs[..i]), evs[i])
  }

  lemma HarmlessBefore(st: State, evs: seq<Event>)
    requires evs != [] && HarmlessRun(st, evs)
    ensures HarmlessRun(st, evs[..|evs| - 1])
    ensures Harmless(RunAll(st, evs[..|evs| - 1]), evs[|evs| - 1])
  {
    var before := evs[..|evs| - 1];
    forall i | 0 <= i < |before| ensures Harmless(RunAll(st, before[..i]), before[i]) {
      assert before[..i] == evs[..i];
    }
  }

  lemma {:induction false} UniqueRun(st: State, evs: seq<Event>)
    requires Inv(st) && Unique(st.peers) && HarmlessRun(st, evs)
    ensures Inv(RunAll(st, evs)) && Unique(RunAll(st, evs).peers)
  {
    if evs != [] {
      var mid := RunAll(st, evs[..|evs| - 1]);
      HarmlessBefore(st, evs);
      UniqueRun(st, evs[..|evs| - 1]);
      StepKeepsInv(mid, evs[|evs| - 1]);
      StepKeepsUnique(mid, evs[|evs| - 1]);
    }
  }

  /** Over every run from the empty state whose hand edits take nothing that is held. */
  lemma RunsStayUnique(evs: seq<Event>)
    requires HarmlessRun(InitialState(), evs)
    ensures Unique(RunAll(InitialState(), evs).peers)
  {
    InitialInv();
    UniqueRun(InitialState(), evs);
  }

  // ----- the check is exact -----

  /** A refreshed pinned record has everything on; a refreshed record keeps its names and switches. */
  lemma RefreshKeeps(q: Peer, base: State, sys: SystemState)
    ensures var r := Refresh(q, q.descriptor, base, sys);
            r.Some? ==>
              && r.value.enabled == q.enabled
              && q.EnabledNames() <= r.value.EnabledNames()
              && (q.pinned ==> q.Recorded() <= r.value.EnabledAddrs())
  {
  }

  lemma EditBringsNames(p: Peer, f: UserField)
    ensures ExtraNames(p, f) <= SetField(p, f).EnabledNames()
  {
    match f
    case Nickname(name, on) =>
    case Petname(name) =>
    case _ =>
  }

  lemma EditBringsAddrs(p: Peer, f: UserField)
    ensures ExtraAddrs(p, f) <= SetField(p, f).Recorded()
  {
    FieldRecorded(p, f);
  }

  lemma BringsEnabled(p: Peer, f: UserField)
    ensures ExtraNames(p, f) != {} || ExtraAddrs(p, f) != {} ==> SetField(p, f).enabled
    ensures ExtraAddrs(p, f) != {} ==> SetField(p, f).pinned
  {
  }

  /** What the edit brings is held afterwards, if the peer is still on record. */
  lemma EditHolds(base: State, vk: Key, f: UserField)
    requires vk in base.peers.at && EditNext(base, base, vk, f).Some?
    ensures var next := EditNext(base, base, vk, f).value.peers;
            vk in next.at ==>
              && ExtraNames(base.peers.at[vk], f) <= next.at[vk].EnabledNames()
              && ExtraAddrs(base.peers.at[vk], f) <= next.at[vk].EnabledAddrs()
              && (ExtraNames(base.peers.at[vk], f) != {} || ExtraAddrs(base.peers.at[vk], f) != {} ==>
                    next.at[vk].enabled)
  {
    var p := base.peers.at[vk];
    RefreshKeeps(SetField(p, f), base, base.system);
    EditBringsNames(p, f);
    EditBringsAddrs(p, f);
    BringsEnabled(p, f);
  }

  lemma UniqueLack(ps: PeerDict, qs: PeerDict, vk: Key, names: set<string>, addrs: set<IP>)
    requires Unique(qs) && vk in qs.at
    requires forall k | k in ps.at && k != vk :: k in qs.at && qs.at[k] == ps.at[k]
    requires names <= qs.at[vk].EnabledNames() && addrs <= qs.at[vk].EnabledAddrs()
    requires names != {} || addrs != {} ==> qs.at[vk].enabled
    ensures OthersLack(ps, vk, names, addrs)
  {
    forall k | k in ps.at && k != vk && ps.at[k].enabled
      ensures ps.at[k].EnabledNames() !! names && ps.at[k].EnabledAddrs() !! addrs {
      if qs.at[vk].enabled {
        assert Apart(qs.at[k], qs.at[vk]);
      }
    }
  }

  lemma EditNeedsHarmless(base: State, vk: Key, f: UserField)
    requires EditNext(base, base, vk, f).Some? && vk in EditNext(base, base, vk, f).value.peers.at
    requires Unique(EditNext(base, base, vk, f).value.peers)
    ensures Harmless(base, EditPeer(vk, f))
  {
    EditHolds(base, vk, f);
    forall k | k in base.peers.at && k != vk
      ensures k in EditNext(base, base, vk, f).value.peers.at
              && EditNext(base, base, vk, f).value.peers.at[k] == base.peers.at[k] {
      EditLeavesOthers(base, base, vk, f, k);
    }
    UniqueLack(base.peers, EditNext(base, base, vk, f).value.peers, vk,
               ExtraNames(base.peers.at[vk], f), ExtraAddrs(base.peers.at[vk], f));
  }

  lemma AddrAddNeedsHarmless(base: State, vk: Key, ip: IP)
    requires vk in base.peers.at && Unique(AddrAddNext(base, vk, Some(ip)).value.peers)
    ensures Harmless(base, AddrAdd(vk, Some(ip)))
  {
    var next := AddrAddNext(base, vk, Some(ip)).value.peers;
    if base.peers.at[vk].enabled {
      assert next.at[vk].EnabledAddrs() == base.peers.at[vk].EnabledAddrs() + {ip};
      UniqueLack(base.peers, next, vk, {}, {ip});
    }
  }

  /** The peer a hand edit was about, if the event is one. */
  function Edited(ev: Event): Option<Key> {
    match ev
    case AddrAdd(vk, _) => Some(vk)
    case EditPeer(vk, _) => Some(vk)
    case _ => None
  }

  /**
   * Whether a committed event keeps everything apart is decided by the check alone:
   * a hand edit that brings what somebody else holds does get through the schema
   * and breaks it, unless it makes the peer vanish.
   */
  lemma HarmlessIsExact(base: State, ev: Event)
    requires Inv(base) && Unique(base.peers)
    requires Step(base, ev).result.error.None?
    requires Edited(ev).Some? && Edited(ev).value in base.peers.at ==> Edited(ev).value in Step(base, ev).state.peers.at
    ensures Unique(Step(base, ev).state.peers) <==> Harmless(base, ev)
  {
    StepKeepsInv(base, ev);
    if Unique(Step(base, ev).state.peers) {
      match ev
      case EditPeer(vk, f) => EditNeedsHarmless(base, vk, f);
      case AddrAdd(vk, Some(ip)) => if vk in base.peers.at { AddrAddNeedsHarmless(base, vk, ip); }
      case _ =>
    } else if Harmless(base, ev) {
      NextUnique(base, ev);
    }
  }
}
