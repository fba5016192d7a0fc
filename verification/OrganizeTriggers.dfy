/**
 * The triggers of an event tell the system about every peer it touched: a peer
 * that is new or changed is synced, a peer that is gone loses its WireGuard key.
 */
module OrganizeTriggers {
  import opened Addresses
  import opened OrderedDict
  import opened Queryable
  import opened Peers
  import opened OrganizeModel
  import opened OrganizeEffects

  ghost predicate Same(now: PeerDict, start: PeerDict, k: Key) {
    (k in now.at <==> k in start.at) && (k in now.at ==> now.at[k] == start.at[k])
  }

  /** The WireGuard key and the routes of the host are to be removed. */
  ghost predicate Dismissed(triggers: seq<Trigger>, d: Descriptor) {
    RemoveWgPeer(d.pk) in triggers && exists r: Peer :: RemoveRoutesOf(r) in triggers && r.descriptor == d
  }

  /** The system will hear about what became of k. */
  ghost predicate Told(triggers: seq<Trigger>, now: PeerDict, start: PeerDict, k: Key) {
    if k in now.at then SyncPeer(k) in triggers
    else k in start.at ==> Dismissed(triggers, start.at[k].descriptor)
  }

  /** Told about every peer that is not as it was, those in `but` excepted. */
  ghost predicate ToldBut(t: Txn, start: PeerDict, but: set<Key>) {
    t.Failed() || forall k | k !in but ::
      Same(t.next.peers, start, k) || Told(t.result.triggers, t.next.peers, start, k)
  }

  lemma ToldMore(triggers: seq<Trigger>, g: Trigger, now: PeerDict, start: PeerDict, k: Key)
    requires Told(triggers, now, start, k)
    ensures Told(triggers + [g], now, start, k)
  {
    forall x | x in triggers ensures x in triggers + [g] {
    }
  }

  lemma TriggerTold(t: Txn, start: PeerDict, but: set<Key>, g: Trigger)
    requires ToldBut(t, start, but)
    ensures ToldBut(t.Trigger(g), start, but)
  {
    if !t.Failed() {
      forall k | k !in but
        ensures Same(t.next.peers, start, k) || Told(t.result.triggers + [g], t.next.peers, start, k) {
        if !Same(t.next.peers, start, k) {
          ToldMore(t.result.triggers, g, t.next.peers, start, k);
        }
      }
    }
  }

  /** A write that names one peer can only leave that peer untold. */
  predicate Names(w: Write, vk: Key) {
    match w
    case Set(k, _) => k == vk
    case PutPeer(k, _) => k == vk
    case RemovePeer(k) => k == vk
    case RemoveAddr(k, _) => k == vk
    case _ => true
  }

  lemma WriteElsewhere(st: State, w: Write, vk: Key, k: Key)
    requires Names(w, vk) && k != vk && ApplyWrite(st, w).Some?
    ensures Same(ApplyWrite(st, w).value.peers, st.peers, k)
  {
  }

  lemma DoTold(t: Txn, start: PeerDict, but: set<Key>, w: Write, vk: Key)
    requires ToldBut(t, start, but) && Names(w, vk) && vk in but
    ensures ToldBut(t.Do(w), start, but)
  {
    if !t.Failed() && ApplyWrite(t.next, w).Some? {
      forall k | k !in but
        ensures Same(t.Do(w).next.peers, start, k) || Told(t.result.triggers, t.Do(w).next.peers, start, k) {
        WriteElsewhere(t.next, w, vk, k);
      }
    }
  }

  lemma DoIfTold(t: Txn, start: PeerDict, but: set<Key>, needed: bool, w: Write, vk: Key)
    requires ToldBut(t, start, but) && Names(w, vk) && vk in but
    ensures ToldBut(DoIf(t, needed, w), start, but)
  {
    if needed {
      DoTold(t, start, but, w, vk);
    }
  }

  /** Syncing a peer that is on record makes up for it. */
  lemma SyncTells(t: Txn, start: PeerDict, but: set<Key>, vk: Key)
    requires ToldBut(t, start, but) && (t.Failed() || vk in t.next.peers.at)
    ensures ToldBut(t.Trigger(SyncPeer(vk)), start, but - {vk})
  {
    TriggerTold(t, start, but, SyncPeer(vk));
    if !t.Failed() {
      assert SyncPeer(vk) in t.result.triggers + [SyncPeer(vk)];
    }
  }

  lemma DismissedBy(triggers: seq<Trigger>, peer: Peer)
    ensures Dismissed(triggers + [RemoveWgPeer(peer.descriptor.pk)] + [RemoveRoutesOf(peer)], peer.descriptor)
  {
    var later := triggers + [RemoveWgPeer(peer.descriptor.pk)] + [RemoveRoutesOf(peer)];
    assert later[|triggers|] == RemoveWgPeer(peer.descriptor.pk) && later[|triggers| + 1] == RemoveRoutesOf(peer);
  }

  lemma DismissalTells(t: Txn, start: PeerDict, but: set<Key>, peer: Peer)
    requires ToldBut(t, start, but) && (t.Failed() || peer.Id() !in t.next.peers.at)
    requires peer.Id() in start.at ==> start.at[peer.Id()].descriptor == peer.descriptor
    ensures ToldBut(t.Trigger(RemoveWgPeer(peer.descriptor.pk)).Trigger(RemoveRoutesOf(peer)), start, but - {peer.Id()})
  {
    var t1 := t.Trigger(RemoveWgPeer(peer.descriptor.pk));
    TriggerTold(t, start, but, RemoveWgPeer(peer.descriptor.pk));
    TriggerTold(t1, start, but, RemoveRoutesOf(peer));
    DismissedBy(t.result.triggers, peer);
  }

  lemma Removed(t: Txn, vk: Key)
    ensures var r := t.Do(RemovePeer(vk)); r.Failed() || vk !in r.next.peers.at
  {
  }

  lemma RemoveTells(t: Txn, start: PeerDict, but: set<Key>, peer: Peer)
    requires ToldBut(t, start, but)
    requires peer.Id() in start.at ==> start.at[peer.Id()].descriptor == peer.descriptor
    ensures ToldBut(RemovePeerAction(t, peer), start, but - {peer.Id()})
  {
    var vk := peer.Id();
    var t1 := t.Act(ActRemovePeer(vk));
    DoTold(t1, start, but + {vk}, RemovePeer(vk), vk);
    Removed(t1, vk);
    var t2 := t1.Do(RemovePeer(vk));
    DismissalTells(t2, start, but + {vk}, peer);
    assert but + {vk} - {vk} == but - {vk};
    var t3 := t2.Trigger(RemoveWgPeer(peer.descriptor.pk)).Trigger(RemoveRoutesOf(peer));
    if peer.gateway {
      TriggerTold(t3, start, but - {vk}, RemoveGatewayRoutes);
    }
  }

  lemma TablesTold(t: Txn, start: PeerDict, but: set<Key>, peer: Peer, v4: map<IPv4, bool>, v6: map<IPv6, bool>)
    requires ToldBut(t, start, but) && peer.Id() in but
    ensures ToldBut(WriteTables(t, peer, v4, v6), start, but)
  {
    var w4 := Set(peer.Id(), V4Table(v4));
    DoIfTold(t, start, but, v4 != peer.v4, w4, peer.Id());
    DoIfTold(DoIf(t, v4 != peer.v4, w4), start, but, v6 != peer.v6, Set(peer.Id(), V6Table(v6)), peer.Id());
  }

  lemma NameAndFlagTold(t: Txn, start: PeerDict, but: set<Key>, vk: Key, name: string, isNew: bool, flag: bool)
    requires ToldBut(t, start, but) && vk in but
    ensures ToldBut(WriteNameAndFlag(t, vk, name, isNew, flag), start, but)
  {
    var w := Set(vk, Nickname(name, true));
    DoIfTold(t, start, but, isNew, w, vk);
    DoIfTold(DoIf(t, isNew, w), start, but, flag, Set(vk, Gateway(true)), vk);
  }

  lemma DoIfKeeps(t: Txn, needed: bool, vk: Key, f: Field)
    requires !t.Failed() ==> vk in t.next.peers.at
    ensures var r := DoIf(t, needed, Set(vk, f)); !r.Failed() ==> vk in r.next.peers.at
  {
  }

  lemma WritesKeep(t: Txn, peer: Peer, v4: map<IPv4, bool>, v6: map<IPv6, bool>, name: string, isNew: bool, flag: bool)
    requires !t.Failed() ==> peer.Id() in t.next.peers.at
    ensures var r := WriteNameAndFlag(WriteTables(t, peer, v4, v6), peer.Id(), name, isNew, flag);
            !r.Failed() ==> peer.Id() in r.next.peers.at
  {
    DoIfKeeps(t, v4 != peer.v4, peer.Id(), V4Table(v4));
    var t1 := DoIf(t, v4 != peer.v4, Set(peer.Id(), V4Table(v4)));
    DoIfKeeps(t1, v6 != peer.v6, peer.Id(), V6Table(v6));
    var t2 := WriteTables(t, peer, v4, v6);
    DoIfKeeps(t2, isNew, peer.Id(), Nickname(name, true));
    DoIfKeeps(DoIf(t2, isNew, Set(peer.Id(), Nickname(name, true))), flag, peer.Id(), Gateway(true));
  }

  /** A refresh tells about its peer, whatever was left untold of it, and leaves the rest as it was. */
  lemma RefreshTells(t: Txn, start: PeerDict, but: set<Key>, base: State, peer: Peer, d: Descriptor, sys: SystemState)
    requires ToldBut(t, start, but) && (!t.Failed() ==> peer.Id() in t.next.peers.at)
    requires peer.Id() in start.at ==> start.at[peer.Id()].descriptor == peer.descriptor
    ensures ToldBut(UpdatePeer(t, base, peer, d, sys), start, but - {peer.Id()})
  {
    var vk := peer.Id();
    var v4 := V4For(peer.pinned, peer.v4, d, base.prefs, sys);
    var v6 := V6For(peer.pinned, peer.v6, d, base.prefs, sys);
    var isNew, flag := NameIsNew(peer, d, base.prefs), AnnouncesGateway(d, sys, base.system.gateways);
    TablesTold(t, start, but + {vk}, peer, v4, v6);
    var t1 := WriteTables(t, peer, v4, v6);
    assert but + {vk} - {vk} == but - {vk};
    if On(v4) == {} && On(v6) == {} {
      RemoveTells(t1, start, but + {vk}, peer);
    } else {
      NameAndFlagTold(t1, start, but + {vk}, vk, d.hostname, isNew, flag);
      WritesKeep(t, peer, v4, v6, d.hostname, isNew, flag);
      SyncTells(WriteNameAndFlag(t1, vk, d.hostname, isNew, flag), start, but + {vk}, vk);
    }
  }

  // ----- the events -----

  lemma NothingUntold(t: Txn, start: PeerDict)
    requires t.Failed() || t.next.peers == start
    ensures ToldBut(t, start, {})
  {
  }

  lemma Weaker(t: Txn, start: PeerDict, but: set<Key>, more: set<Key>)
    requires ToldBut(t, start, but) && but <= more
    ensures ToldBut(t, start, more)
  {
  }

  /** The record under vk has the descriptor the system knows it by, if it knows it. */
  predicate KnownDescriptor(t: Txn, start: PeerDict, vk: Key) {
    !t.Failed() && vk in t.next.peers.at ==>
      && t.next.peers.at[vk].Id() == vk
      && (vk in start.at ==> start.at[vk].descriptor == t.next.peers.at[vk].descriptor)
  }

  lemma EditWritten(t: Txn, vk: Key, f: UserField)
    ensures var t1 := t.Act(ActEdit(Set(vk, f))).Do(Set(vk, f));
            !t1.Failed() ==> !t.Failed() && vk in t.next.peers.at && vk in t1.next.peers.at
                             && t1.next.peers.at[vk] == SetField(t.next.peers.at[vk], f)
  {
  }

  lemma EditTells(t: Txn, start: PeerDict, base: State, vk: Key, f: UserField)
    requires ToldBut(t, start, {}) && KnownDescriptor(t, start, vk)
    ensures ToldBut(EditPeerAction(t, base, vk, f), start, {})
  {
    Weaker(t, start, {}, {vk});
    var t1 := t.Act(ActEdit(Set(vk, f))).Do(Set(vk, f));
    DoTold(t.Act(ActEdit(Set(vk, f))), start, {vk}, Set(vk, f), vk);
    EditWritten(t, vk, f);
    if !t1.Failed() {
      UserFieldKeepsId(t.next.peers.at[vk], f);
      var q := t1.next.peers.at[vk];
      RefreshTells(t1, start, {vk}, base, q, q.descriptor, base.system);
      assert {vk} - {vk} == {};
      TriggerTold(UpdatePeer(t1, base, q, q.descriptor, base.system), start, {}, RemoveUnknown);
    }
  }

  lemma EditedKeyKnown(t: Txn, base: State, vk: Key, f: UserField)
    requires !t.Failed() && t.next == base && Keyed(base.peers)
    ensures KnownDescriptor(EditPeerAction(t, base, vk, f), base.peers, vk)
  {
    EditEffect(t, base, vk, f);
    if vk in base.peers.at {
      UserFieldKeepsId(base.peers.at[vk], f);
    }
  }

  lemma VerifyTells(t: Txn, base: State, vk: Key, hostname: string)
    requires !t.Failed() && t.next == base && Keyed(base.peers)
    ensures ToldBut(RunVerify(t, base, vk, hostname), base.peers, {})
  {
    NothingUntold(t, base.peers);
    EditTells(t, base.peers, base, vk, Verified(true));
    EditedKeyKnown(t, base, vk, Verified(true));
    EditTells(EditPeerAction(t, base, vk, Verified(true)), base.peers, base, vk, Pinned(true));
  }

  lemma RemoveQueryTells(t: Txn, base: State, q: Query)
    requires !t.Failed() && t.next == base && Keyed(base.peers)
    ensures ToldBut(RunRemove(t, base, q), base.peers, {})
  {
    NothingUntold(t, base.peers);
    var found := LookUp(Values(base.peers), q);
    if found.Found? {
      LookUpMember(Values(base.peers), q);
      ValuesMembers(base.peers, found.peer);
      RemoveTells(t, base.peers, {}, found.peer);
      assert {} - {found.peer.Id()} == {};
    }
  }

  lemma ReleaseTells(t: Txn, base: State)
    requires !t.Failed() && t.next == base && Keyed(base.peers)
    ensures ToldBut(RunRelease(t, base), base.peers, {})
  {
    NothingUntold(t, base.peers);
    var cur := FirstGateway(Values(base.peers));
    if cur.Some? {
      EditTells(t, base.peers, base, cur.value.Id(), Gateway(false));
      TriggerTold(EditPeerAction(t, base, cur.value.Id(), Gateway(false)), base.peers, {}, GetNewSystemState);
    }
  }

  lemma AddrTells(t: Txn, base: State, vk: Key, ip: IP, w: Write)
    requires !t.Failed() && t.next == base && Keyed(base.peers) && vk in base.peers.at
    requires w == Set(vk, Addr(ip, true)) || w == RemoveAddr(vk, ip)
    ensures ToldBut(t.Do(w).Trigger(SyncPeer(vk)), base.peers, {})
  {
    NothingUntold(t, base.peers);
    Weaker(t, base.peers, {}, {vk});
    DoTold(t, base.peers, {vk}, w, vk);
    SyncTells(t.Do(w), base.peers, {vk}, vk);
    assert {vk} - {vk} == {};
  }

  lemma AddrEventsTell(t: Txn, base: State, vk: Key, ip: Option<IP>)
    requires !t.Failed() && t.next == base && Keyed(base.peers)
    ensures ToldBut(RunAddrAdd(t, base, vk, ip), base.peers, {})
    ensures ToldBut(RunAddrDel(t, base, vk, ip), base.peers, {})
  {
    if vk in base.peers.at && ip.Some? {
      AddrTells(t.Act(ActAddrAdd(vk, ip)), base, vk, ip.value, Set(vk, Addr(ip.value, true)));
      var t1 := t.Act(ActAddrDel(vk, ip));
      AddrTells(t1, base, vk, ip.value, RemoveAddr(vk, ip.value));
      TriggerTold(t1.Do(RemoveAddr(vk, ip.value)).Trigger(SyncPeer(vk)), base.peers, {}, RemoveRoute(ip.value));
    }
  }

  // ----- a new system state -----

  /** The keys from the i-th on. */
  function FromOn(ps: PeerDict, i: nat): set<Key>
    requires i <= |ps.order|
  {
    set k | k in ps.at && k !in ps.order[..i]
  }

  lemma LeftToTell(ps: PeerDict, i: nat)
    requires 0 < i <= |ps.order|
    ensures FromOn(ps, i) == FromOn(ps, i - 1) - {ps.order[i - 1]}
  {
    assert ps.order[..i] == ps.order[..i - 1] + [ps.order[i - 1]];
  }

  /** Before the sweep nobody has been told. */
  lemma FlagsUntold(t: Txn, base: State, sys: SystemState, flagged: PeerDict)
    requires Holds(t, base, flagged) && flagged.at.Keys == base.peers.at.Keys
    ensures ToldBut(UpdateAll(t, base, Values(base.peers)[..0], sys), base.peers, FromOn(base.peers, 0))
  {
  }

  /** Telling one more, where the sweep has come to. */
  lemma NextTold(t: Txn, base: State, sys: SystemState, sofar: PeerDict, flagged: PeerDict, but: set<Key>, k: Key)
    requires FlaggedFrom(base.peers, flagged) && k in base.peers.at && Holds(t, base, sofar) && k in sofar.at
    requires ToldBut(t, base.peers, but)
    ensures ToldBut(UpdatePeer(t, base, base.peers.at[k], base.peers.at[k].descriptor, sys), base.peers, but - {k})
  {
    RefreshTells(t, base.peers, but, base, base.peers.at[k], base.peers.at[k].descriptor, sys);
  }

  lemma SweptSoFar(t: Txn, base: State, sys: SystemState, flagged: PeerDict, i: nat)
    requires Holds(t, base, flagged) && FlaggedFrom(base.peers, flagged) && i < |base.peers.order|
    ensures Holds(UpdateAll(t, base, Values(base.peers)[..i], sys), base,
                  Sweep(flagged, base.peers.order[..i], base, sys))
    ensures base.peers.order[i] in base.peers.at
            && base.peers.order[i] in Sweep(flagged, base.peers.order[..i], base, sys).at
  {
    UpdateAllEffect(t, base, sys, flagged, i);
    NotSweptYet(base, sys, flagged, i);
  }

  /** The same, said of one peer more. */
  lemma ToldUpTo(t: Txn, base: State, sys: SystemState, i: nat)
    requires 0 < i <= |base.peers.order| && base.peers.order[i - 1] in base.peers.at
    requires var p := base.peers.at[base.peers.order[i - 1]];
             ToldBut(UpdatePeer(UpdateAll(t, base, Values(base.peers)[..i - 1], sys), base, p, p.descriptor, sys),
                     base.peers,
                     FromOn(base.peers, i - 1) - {base.peers.order[i - 1]})
    ensures ToldBut(UpdateAll(t, base, Values(base.peers)[..i], sys), base.peers, FromOn(base.peers, i))
  {
    ValuesUpTo(base.peers, i);
    UpdateAllSnoc(t, base, Values(base.peers)[..i - 1], base.peers.at[base.peers.order[i - 1]], sys);
    LeftToTell(base.peers, i);
  }

  lemma TellOneMore(t: Txn, base: State, sys: SystemState, flagged: PeerDict, i: nat)
    requires Holds(t, base, flagged) && FlaggedFrom(base.peers, flagged) && 0 < i <= |base.peers.order|
    requires ToldBut(UpdateAll(t, base, Values(base.peers)[..i - 1], sys), base.peers, FromOn(base.peers, i - 1))
    ensures ToldBut(UpdateAll(t, base, Values(base.peers)[..i], sys), base.peers, FromOn(base.peers, i))
  {
    var sofar := Sweep(flagged, base.peers.order[..i - 1], base, sys);
    SweptSoFar(t, base, sys, flagged, i - 1);
    NextTold(UpdateAll(t, base, Values(base.peers)[..i - 1], sys), base, sys, sofar, flagged, FromOn(base.peers, i - 1),
             base.peers.order[i - 1]);
    ToldUpTo(t, base, sys, i);
  }

  lemma {:induction false} UpdateAllTells(t: Txn, base: State, sys: SystemState, flagged: PeerDict, i: nat)
    requires Holds(t, base, flagged) && FlaggedFrom(base.peers, flagged) && i <= |base.peers.order|
    ensures ToldBut(UpdateAll(t, base, Values(base.peers)[..i], sys), base.peers, FromOn(base.peers, i))
  {
    if i == 0 {
      FlagsUntold(t, base, sys, flagged);
    } else {
      UpdateAllTells(t, base, sys, flagged, i - 1);
      TellOneMore(t, base, sys, flagged, i);
    }
  }

  lemma SystemTold(t: Txn, start: PeerDict, sys: SystemState)
    requires ToldBut(t, start, {})
    ensures ToldBut(t.Do(SetSystem(sys)), start, {})
  {
  }

  lemma FlagsAgree(base: State, flagged: PeerDict)
    requires Keyed(base.peers) && OnlyFlagsDiffer(base.peers, flagged)
    ensures FlaggedFrom(base.peers, flagged)
  {
    forall k | k in base.peers.at
      ensures Agrees(base.peers.at[k], flagged.at[k]) && flagged.at[k].descriptor == base.peers.at[k].descriptor {
      assert SameButFlag(base.peers.at[k], flagged.at[k]);
    }
  }

  lemma AdjustTells(t: Txn, base: State, sys: SystemState)
    requires !t.Failed() && t.next == base && Keyed(base.peers)
    ensures ToldBut(Adjust(t, base, sys), base.peers, {})
  {
    var t1 := MoveGateway(t.Act(ActAdjust(sys)), Values(base.peers), sys);
    MoveGatewayEffect(t.Act(ActAdjust(sys)), base, sys);
    ReflagFlags(base, sys);
    FlagsAgree(base, Reflagged(base, sys));
    UpdateAllTells(t1, base, sys, Reflagged(base, sys), |base.peers.order|);
    assert Values(base.peers)[..|base.peers.order|] == Values(base.peers);
    assert base.peers.order[..|base.peers.order|] == base.peers.order;
    assert FromOn(base.peers, |base.peers.order|) == {};
    SystemTold(UpdateAll(t1, base, Values(base.peers), sys), base.peers, sys);
  }

  // ----- an incoming descriptor -----

  lemma {:induction false} RemoveAllTells(t: Txn, start: PeerDict, gone: seq<Peer>)
    requires ToldBut(t, start, {})
    requires forall g | g in gone && g.Id() in start.at :: start.at[g.Id()].descriptor == g.descriptor
    ensures ToldBut(RemoveAllOf(t, gone), start, {})
  {
    if gone != [] {
      var last := |gone| - 1;
      assert gone == gone[..last] + [gone[last]];
      RemoveAllTells(t, start, gone[..last]);
      RemoveTells(RemoveAllOf(t, gone[..last]), start, {}, gone[last]);
      assert {} - {gone[last].Id()} == {};
    }
  }

  lemma ConflictsKnown(base: State, d: Descriptor)
    requires Keyed(base.peers)
    ensures forall g | g in ConflictsForDescriptor(Values(base.peers), d) && g.Id() in base.peers.at ::
              base.peers.at[g.Id()].descriptor == g.descriptor
  {
    ValuesDistinct(base.peers);
    ConflictsExact(Values(base.peers), d);
    forall g | g in ConflictsForDescriptor(Values(base.peers), d) && g.Id() in base.peers.at
      ensures base.peers.at[g.Id()].descriptor == g.descriptor {
      ValuesMembers(base.peers, g);
    }
  }

  lemma AcceptTells(t: Txn, base: State, d: Descriptor)
    requires ToldBut(t, base.peers, {}) && d.vk !in base.peers.at
    ensures ToldBut(AcceptNewPeer(t, base, d), base.peers, {})
  {
    var peer := MakePeer(d, !d.e && base.prefs.pinNewPeers);
    Weaker(t, base.peers, {}, {d.vk});
    DoTold(t.Act(ActAcceptNewPeer(d)), base.peers, {d.vk}, PutPeer(d.vk, peer), d.vk);
    RefreshTells(t.Act(ActAcceptNewPeer(d)).Do(PutPeer(d.vk, peer)), base.peers, {d.vk}, base, peer, d, base.system);
    assert {d.vk} - {d.vk} == {};
  }

  lemma DescriptorTells(t: Txn, base: State, d: Descriptor)
    requires ToldBut(t, base.peers, {}) && Keyed(base.peers) && d.vk in base.peers.at
    ensures ToldBut(UpdateDescriptor(t, base, base.peers.at[d.vk], d), base.peers, {})
  {
    var w := Set(d.vk, Desc(d));
    Weaker(t, base.peers, {}, {d.vk});
    DoTold(t.Act(ActUpdateDescriptor(d.vk, d)), base.peers, {d.vk}, w, d.vk);
    RefreshTells(t.Act(ActUpdateDescriptor(d.vk, d)).Do(w), base.peers, {d.vk}, base, base.peers.at[d.vk], d,
                 base.system);
    assert {d.vk} - {d.vk} == {};
  }

  lemma AdmitTells(t: Txn, base: State, d: Descriptor)
    requires !t.Failed() && t.next == base && Keyed(base.peers)
    ensures ToldBut(Admit(t, base, d), base.peers, {})
  {
    NothingUntold(t, base.peers);
    ConflictsKnown(base, d);
    RemoveAllTells(t, base.peers, ConflictsForDescriptor(Values(base.peers), d));
    var t1 := RemoveAllOf(t, ConflictsForDescriptor(Values(base.peers), d));
    if d.vk in base.peers.at {
      DescriptorTells(t1, base, d);
    } else {
      AcceptTells(t1, base, d);
    }
  }

  lemma IncomingTells(t: Txn, base: State, d: Descriptor)
    requires !t.Failed() && t.next == base && Keyed(base.peers)
    ensures ToldBut(ProcessDescriptor(t, base, d), base.peers, {})
  {
    NothingUntold(t, base.peers);
    if Judge(base, d).Admitted? {
      AdmitTells(t, base, d);
    }
  }

  // ----- the theorem -----

  lemma PrefTells(t: Txn, base: State, op: Operation, pref: Pref, value: Input)
    requires !t.Failed() && t.next == base
    ensures ToldBut(EditPrefAction(t, op, pref, value), base.peers, {})
  {
    NothingUntold(t, base.peers);
  }

  lemma PeerEventTells(t: Txn, base: State, ev: Event)
    requires !t.Failed() && t.next == base && Keyed(base.peers)
    requires ev.VerifyAndPin? || ev.EditPeer? || ev.ReleaseGateway?
    ensures ToldBut(RunUser(t, base, ev), base.peers, {})
  {
    NothingUntold(t, base.peers);
    match ev
    case VerifyAndPin(vk, hostname) => VerifyTells(t, base, vk, hostname);
    case EditPeer(vk, f) => EditTells(t, base.peers, base, vk, f);
    case ReleaseGateway => ReleaseTells(t, base);
    case _ =>
  }

  lemma UserTells(t: Txn, base: State, ev: Event)
    requires !t.Failed() && t.next == base && Keyed(base.peers)
    requires !ev.NewSystemState? && !ev.Incoming?
    ensures ToldBut(RunUser(t, base, ev), base.peers, {})
  {
    match ev
    case UserRemovePeer(q) => RemoveQueryTells(t, base, q);
    case AddrAdd(vk, ip) => AddrEventsTell(t, base, vk, ip);
    case AddrDel(vk, ip) => AddrEventsTell(t, base, vk, ip);
    case EditPref(op, pref, value) => PrefTells(t, base, op, pref, value);
    case _ => PeerEventTells(t, base, ev);
  }

  lemma RunTells(base: State, ev: Event)
    requires Keyed(base.peers)
    ensures ToldBut(Run(Begin(base, ev), base, ev), base.peers, {})
  {
    var t := Begin(base, ev);
    match ev
    case NewSystemState(sys) => AdjustTells(t, base, sys);
    case Incoming(d) => IncomingTells(t, base, d);
    case _ => UserTells(t, base, ev);
  }

  /**
   * After a committed event every peer is as it was, or is on record and will be
   * synced, or is gone and the WireGuard key the system knew it by will be removed.
   */
  lemma TriggersTell(base: State, ev: Event, k: Key)
    requires Keyed(base.peers)
    ensures var o := Step(base, ev);
            o.result.error.None? ==>
              Same(o.state.peers, base.peers, k) || Told(o.result.triggers, o.state.peers, base.peers, k)
  {
    RunTells(base, ev);
  }
}
