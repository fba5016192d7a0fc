/**
 * Which WireGuard keys the triggers of an event name. A key that is on record no
 * longer stays configured unless a trigger names it; only an update that brings a
 * record a new key forgets to name the old one.
 */
module OrganizeKeys {
  import opened Addresses
  import opened OrderedDict
  import opened Queryable
  import opened Peers
  import opened OrganizeModel
  import opened OrganizeTerms
  import opened OrganizeEffects
  import opened OrganizeInvariant
  import opened OrganizeUniqueness
  import opened OrganizeAdmission
  import opened OrganizeOutcomes
  import opened OrganizeTriggers

  ghost predicate OnRecord(ps: PeerDict, pk: Key) {
    exists k | k in ps.at :: ps.at[k].descriptor.pk == pk
  }

  /** The key was on record and is not any more. */
  ghost predicate Unwanted(base: PeerDict, now: PeerDict, pk: Key) {
    OnRecord(base, pk) && !OnRecord(now, pk)
  }

  /** The system is told to remove the key, or everything it does not know. */
  predicate Named(triggers: seq<Trigger>, pk: Key) {
    RemoveWgPeer(pk) in triggers || RemoveUnknown in triggers
  }

  ghost predicate AllNamed(base: PeerDict, o: Outcome) {
    forall pk | Unwanted(base, o.state.peers, pk) :: Named(o.result.triggers, pk)
  }

  /** k stays on record, with another key than before. */
  ghost predicate Rekeyed(base: PeerDict, now: PeerDict, k: Key) {
    k in base.at && k in now.at && base.at[k].descriptor.pk != now.at[k].descriptor.pk
  }

  /** A peer that is gone had this key. */
  ghost predicate LeftWith(base: PeerDict, now: PeerDict, pk: Key) {
    exists k | k in base.at && k !in now.at :: base.at[k].descriptor.pk == pk
  }

  /** The key that k gave up is forgotten: no record has it and no departure named it. */
  ghost predicate Forgotten(base: PeerDict, now: PeerDict, k: Key) {
    && Rekeyed(base, now, k)
    && !OnRecord(now, base.at[k].descriptor.pk)
    && !LeftWith(base, now, base.at[k].descriptor.pk)
  }

  // ----- who can be rekeyed -----

  ghost predicate KeepsDescriptor(base: PeerDict, now: PeerDict, k: Key) {
    k in base.at && k in now.at ==> now.at[k].descriptor == base.at[k].descriptor
  }

  lemma EditKeepsDescriptor(n: State, base: State, vk: Key, f: UserField, k: Key)
    requires EditNext(n, base, vk, f).Some?
    ensures KeepsDescriptor(n.peers, EditNext(n, base, vk, f).value.peers, k)
    ensures k in EditNext(n, base, vk, f).value.peers.at ==> k in n.peers.at
  {
    if k == vk {
      UserFieldKeepsId(n.peers.at[vk], f);
      EditedRecord(n, base, vk, f);
    } else {
      EditLeavesOthers(n, base, vk, f, k);
    }
  }

  lemma VerifyKeepsDescriptor(base: State, vk: Key, hostname: string, next: State, k: Key)
    requires VerifyNext(base, vk, hostname) == Some(next)
    ensures KeepsDescriptor(base.peers, next.peers, k)
  {
    var mid := VerifyIsBoth(base, vk, hostname, next);
    EditKeepsDescriptor(base, base, vk, Verified(true), k);
    EditKeepsDescriptor(mid, base, vk, Pinned(true), k);
  }

  lemma SweepKeepsDescriptor(base: State, sys: SystemState, k: Key)
    requires Keyed(base.peers)
    ensures KeepsDescriptor(base.peers, AdjustNext(base, sys).peers, k)
  {
    var flagged := Reflagged(base, sys);
    ReflagFlags(base, sys);
    SweepAt(flagged, base.peers.order, base, sys);
    if k in base.peers.at {
      assert SweptAt(AdjustNext(base, sys).peers, flagged, k, base, sys);
      assert SameButFlag(base.peers.at[k], flagged.at[k]);
    }
  }

  lemma ReleaseKeepsDescriptor(base: State, next: State, k: Key)
    requires ReleaseNext(base) == Some(next)
    ensures KeepsDescriptor(base.peers, next.peers, k)
  {
    var cur := FirstGateway(Values(base.peers));
    if cur.Some? {
      EditKeepsDescriptor(base, base, cur.value.Id(), Gateway(false), k);
    }
  }

  lemma AddrKeepsDescriptor(base: State, vk: Key, ip: Option<IP>, k: Key)
    ensures AddrAddNext(base, vk, ip).Some? ==> KeepsDescriptor(base.peers, AddrAddNext(base, vk, ip).value.peers, k)
    ensures AddrDelNext(base, vk, ip).Some? ==> KeepsDescriptor(base.peers, AddrDelNext(base, vk, ip).value.peers, k)
  {
  }

  lemma UserKeepsDescriptor(base: State, ev: Event, k: Key)
    requires UserNext(base, ev).Some?
    ensures KeepsDescriptor(base.peers, UserNext(base, ev).value.peers, k)
  {
    match ev
    case VerifyAndPin(vk, hostname) => VerifyKeepsDescriptor(base, vk, hostname, UserNext(base, ev).value, k);
    case UserRemovePeer(q) =>
    case AddrAdd(vk, ip) => AddrKeepsDescriptor(base, vk, ip, k);
    case AddrDel(vk, ip) => AddrKeepsDescriptor(base, vk, ip, k);
    case EditPeer(vk, f) => EditKeepsDescriptor(base, base, vk, f, k);
    case EditPref(_, _, _) =>
    case ReleaseGateway => ReleaseKeepsDescriptor(base, UserNext(base, ev).value, k);
    case _ =>
  }

  lemma NextKeepsDescriptor(base: State, ev: Event, k: Key)
    requires Keyed(base.peers) && !ev.Incoming? && Next(base, ev).Some?
    ensures KeepsDescriptor(base.peers, Next(base, ev).value.peers, k)
  {
    if ev.NewSystemState? {
      SweepKeepsDescriptor(base, ev.system, k);
    } else {
      UserKeepsDescriptor(base, ev, k);
    }
  }

  lemma SenderRekeyed(base: State, d: Descriptor, k: Key)
    requires Keyed(base.peers) && IncomingNext(base, d).Some?
    requires Rekeyed(base.peers, IncomingNext(base, d).value.peers, k)
    ensures d.vk == k && Judge(base, d).Admitted? && IncomingNext(base, d).value == AdmitNext(base, d)
  {
    if Judge(base, d).Admitted? {
      AdmitAt(base, d, k);
    }
  }

  /** Only the sender of an incoming descriptor gets a new one. */
  lemma OnlySenderRekeyed(base: State, ev: Event, k: Key)
    requires Inv(base) && Step(base, ev).result.error.None?
    requires Rekeyed(base.peers, Step(base, ev).state.peers, k)
    ensures ev.Incoming? && ev.d.vk == k && Judge(base, ev.d).Admitted? && Step(base, ev).state == AdmitNext(base, ev.d)
  {
    StepKeepsInv(base, ev);
    if ev.Incoming? {
      IncomingDispatch(base, ev.d);
      SenderRekeyed(base, ev.d, k);
    } else {
      NextKeepsDescriptor(base, ev, k);
    }
  }

  // ----- what an update names -----

  /** The triggers so far name only these keys. */
  ghost predicate NamesOnly(t: Txn, pks: set<Key>) {
    t.Failed()
    || (RemoveUnknown !in t.result.triggers && forall pk | RemoveWgPeer(pk) in t.result.triggers :: pk in pks)
  }

  lemma TriggerNames(t: Txn, pks: set<Key>, g: Trigger)
    requires NamesOnly(t, pks) && !g.RemoveUnknown? && (g.RemoveWgPeer? ==> g.pk in pks)
    ensures NamesOnly(t.Trigger(g), pks)
  {
  }

  lemma DoNames(t: Txn, pks: set<Key>, w: Write)
    requires NamesOnly(t, pks)
    ensures NamesOnly(t.Do(w), pks)
  {
  }

  lemma DoIfNames(t: Txn, pks: set<Key>, needed: bool, w: Write)
    requires NamesOnly(t, pks)
    ensures NamesOnly(DoIf(t, needed, w), pks)
  {
    DoNames(t, pks, w);
  }

  lemma RemovalNames(t: Txn, pks: set<Key>, peer: Peer)
    requires NamesOnly(t, pks) && peer.descriptor.pk in pks
    ensures NamesOnly(RemovePeerAction(t, peer), pks)
  {
    DoNames(t.Act(ActRemovePeer(peer.Id())), pks, RemovePeer(peer.Id()));
    var t1 := t.Act(ActRemovePeer(peer.Id())).Do(RemovePeer(peer.Id()));
    TriggerNames(t1, pks, RemoveWgPeer(peer.descriptor.pk));
    var t2 := t1.Trigger(RemoveWgPeer(peer.descriptor.pk));
    TriggerNames(t2, pks, RemoveRoutesOf(peer));
    TriggerNames(t2.Trigger(RemoveRoutesOf(peer)), pks, RemoveGatewayRoutes);
  }

  lemma {:induction false} RemovalsName(t: Txn, pks: set<Key>, gone: seq<Peer>)
    requires NamesOnly(t, pks) && forall g | g in gone :: g.descriptor.pk in pks
    ensures NamesOnly(RemoveAllOf(t, gone), pks)
  {
    if gone != [] {
      var last := |gone| - 1;
      assert gone == gone[..last] + [gone[last]];
      RemovalsName(t, pks, gone[..last]);
      RemovalNames(RemoveAllOf(t, gone[..last]), pks, gone[last]);
    }
  }

  lemma TablesName(t: Txn, pks: set<Key>, peer: Peer, v4: map<IPv4, bool>, v6: map<IPv6, bool>)
    requires NamesOnly(t, pks)
    ensures NamesOnly(WriteTables(t, peer, v4, v6), pks)
  {
    var w4 := Set(peer.Id(), V4Table(v4));
    DoIfNames(t, pks, v4 != peer.v4, w4);
    DoIfNames(DoIf(t, v4 != peer.v4, w4), pks, v6 != peer.v6, Set(peer.Id(), V6Table(v6)));
  }

  lemma NameAndFlagNames(t: Txn, pks: set<Key>, vk: Key, name: string, isNew: bool, flag: bool)
    requires NamesOnly(t, pks)
    ensures NamesOnly(WriteNameAndFlag(t, vk, name, isNew, flag), pks)
  {
    var w := Set(vk, Nickname(name, true));
    DoIfNames(t, pks, isNew, w);
    DoIfNames(DoIf(t, isNew, w), pks, flag, Set(vk, Gateway(true)));
  }

  lemma UpdateNames(t: Txn, pks: set<Key>, base: State, peer: Peer, d: Descriptor)
    requires NamesOnly(t, pks) && Refresh(peer, d, base, base.system).Some?
    ensures NamesOnly(UpdatePeer(t, base, peer, d, base.system), pks)
  {
    var v4 := V4For(peer.pinned, peer.v4, d, base.prefs, base.system);
    var v6 := V6For(peer.pinned, peer.v6, d, base.prefs, base.system);
    var isNew, flag := NameIsNew(peer, d, base.prefs), AnnouncesGateway(d, base.system, base.system.gateways);
    TablesName(t, pks, peer, v4, v6);
    var t1 := WriteTables(t, peer, v4, v6);
    NameAndFlagNames(t1, pks, peer.Id(), d.hostname, isNew, flag);
    TriggerNames(WriteNameAndFlag(t1, peer.Id(), d.hostname, isNew, flag), pks, SyncPeer(peer.Id()));
  }

  function EvictedKeys(base: State, d: Descriptor): set<Key> {
    set g | g in ConflictsForDescriptor(Values(base.peers), d) :: g.descriptor.pk
  }

  lemma RefreshOfDraft(base: State, d: Descriptor)
    requires d.vk in base.peers.at
    ensures Refresh(base.peers.at[d.vk], d, base, base.system).Some? <==> Arrival(base, d).Some?
  {
  }

  lemma AdmitNames(t: Txn, base: State, d: Descriptor)
    requires NamesOnly(t, {}) && d.vk in base.peers.at && Arrival(base, d).Some?
    ensures NamesOnly(Admit(t, base, d), EvictedKeys(base, d))
  {
    var pks := EvictedKeys(base, d);
    var gone := ConflictsForDescriptor(Values(base.peers), d);
    RemovalsName(t, pks, gone);
    RefreshOfDraft(base, d);
    var peer, w := base.peers.at[d.vk], Set(base.peers.at[d.vk].Id(), Desc(d));
    var t1 := RemoveAllOf(t, gone).Act(ActUpdateDescriptor(peer.Id(), d));
    DoNames(t1, pks, w);
    UpdateNames(t1.Do(w), pks, base, peer, d);
  }

  lemma RunIsProcess(t: Txn, base: State, d: Descriptor)
    ensures Run(t, base, Incoming(d)) == ProcessDescriptor(t, base, d)
  {
  }

  lemma ProcessNames(t: Txn, base: State, d: Descriptor, v: Verdict)
    requires v == Judge(base, d) && v.Admitted? && d.vk in base.peers.at && Arrival(base, d).Some?
    requires NamesOnly(t, {})
    ensures NamesOnly(ProcessDescriptor(t, base, d), EvictedKeys(base, d))
  {
    AdmitNames(t, base, d);
    ProcessIsAdmit(t, base, d, v);
  }

  lemma FinishNames(base: State, t: Txn, pks: set<Key>)
    requires NamesOnly(t, pks)
    ensures var r := Finish(base, t).result;
            r.error.None? ==> RemoveUnknown !in r.triggers && forall pk | RemoveWgPeer(pk) in r.triggers :: pk in pks
  {
  }

  lemma StepIsFinish(base: State, ev: Event)
    ensures Step(base, ev) == Finish(base, Run(Begin(base, ev), base, ev))
  {
  }

  /** A committed update of a known peer that stays names only the keys of the peers it pushed out. */
  lemma UpdateNamesEvicted(base: State, d: Descriptor)
    requires Judge(base, d).Admitted? && d.vk in base.peers.at && Arrival(base, d).Some?
    ensures var r := Step(base, Incoming(d)).result;
            r.error.None? ==>
              RemoveUnknown !in r.triggers && forall pk | RemoveWgPeer(pk) in r.triggers :: pk in EvictedKeys(base, d)
  {
    var t := Begin(base, Incoming(d));
    assert NamesOnly(t, {});
    ProcessNames(t, base, d, Judge(base, d));
    RunIsProcess(t, base, d);
    StepIsFinish(base, Incoming(d));
    FinishNames(base, Run(t, base, Incoming(d)), EvictedKeys(base, d));
  }

  lemma EvictedLeft(base: State, d: Descriptor, pk: Key)
    requires Keyed(base.peers) && pk in EvictedKeys(base, d)
    ensures LeftWith(base.peers, AdmitNext(base, d).peers, pk)
  {
    var g :| g in ConflictsForDescriptor(Values(base.peers), d) && g.descriptor.pk == pk;
    ConflictsRemovable(base, d);
    ValuesDistinct(base.peers);
    ConflictsExact(Values(base.peers), d);
    ValuesMembers(base.peers, g);
    AdmitAt(base, d, g.Id());
  }

  // ----- the theorem -----

  lemma ForgottenUnnamed(base: State, ev: Event, k: Key)
    requires Inv(base) && Step(base, ev).result.error.None?
    requires Forgotten(base.peers, Step(base, ev).state.peers, k)
    ensures Unwanted(base.peers, Step(base, ev).state.peers, base.peers.at[k].descriptor.pk)
    ensures !Named(Step(base, ev).result.triggers, base.peers.at[k].descriptor.pk)
  {
    OnlySenderRekeyed(base, ev, k);
    var pk := base.peers.at[k].descriptor.pk;
    AdmitAt(base, ev.d, k);
    UpdateNamesEvicted(base, ev.d);
    if pk in EvictedKeys(base, ev.d) {
      EvictedLeft(base, ev.d, pk);
    }
  }

  lemma LeaverIsNamed(base: State, ev: Event, k: Key)
    requires Keyed(base.peers) && Step(base, ev).result.error.None?
    requires k in base.peers.at && k !in Step(base, ev).state.peers.at
    ensures Named(Step(base, ev).result.triggers, base.peers.at[k].descriptor.pk)
  {
    TriggersTell(base, ev, k);
  }

  /** A key that is unwanted and that no departing peer had was given up by a record that stays. */
  lemma GivenUp(base: PeerDict, now: PeerDict, pk: Key)
    requires Unwanted(base, now, pk) && !LeftWith(base, now, pk)
    ensures exists k :: Forgotten(base, now, k)
  {
    var k :| k in base.at && base.at[k].descriptor.pk == pk;
    assert k in now.at;
    assert Forgotten(base, now, k);
  }

  lemma UnnamedForgotten(base: State, ev: Event, pk: Key)
    requires Keyed(base.peers) && Step(base, ev).result.error.None?
    requires Unwanted(base.peers, Step(base, ev).state.peers, pk) && !Named(Step(base, ev).result.triggers, pk)
    ensures exists k :: Forgotten(base.peers, Step(base, ev).state.peers, k)
  {
    var now := Step(base, ev).state.peers;
    forall j | j in base.peers.at && j !in now.at ensures base.peers.at[j].descriptor.pk != pk {
      LeaverIsNamed(base, ev, j);
    }
    GivenUp(base.peers, now, pk);
  }

  // ----- when a key is given up -----

  /** An admitted descriptor that leaves its known sender on record, with another key than before. */
  ghost predicate Rekeys(base: State, ev: Event) {
    && ev.Incoming? && Judge(base, ev.d).Admitted?
    && ev.d.vk in base.peers.at && base.peers.at[ev.d.vk].descriptor.pk != ev.d.pk
    && (base.peers.at[ev.d.vk].pinned || exists ip | ip in ev.d.Announced() :: Usable(ip, base.prefs, base.system))
  }

  ghost predicate NobodyElseHas(base: PeerDict, vk: Key, pk: Key) {
    forall k | k in base.at && k != vk :: base.at[k].descriptor.pk != pk
  }

  /** And nobody else has the key it had before. */
  ghost predicate GivesUp(base: State, ev: Event) {
    Rekeys(base, ev) && NobodyElseHas(base.peers, ev.d.vk, base.peers.at[ev.d.vk].descriptor.pk)
  }

  lemma KnownArrives(base: State, d: Descriptor)
    requires Judge(base, d).Admitted? && d.vk in base.peers.at
    ensures Arrival(base, d).Some? <==>
              base.peers.at[d.vk].pinned || exists ip | ip in d.Announced() :: Usable(ip, base.prefs, base.system)
  {
    JudgeAdmissible(base, d);
    RefreshNone(Draft(base, d), d, base);
  }

  lemma CommittedAdmission(base: State, d: Descriptor)
    requires Inv(base) && Judge(base, d).Admitted? && Step(base, Incoming(d)).result.error.None?
    ensures Step(base, Incoming(d)).state == AdmitNext(base, d)
  {
    ReceivesAdmitted(base, d);
  }

  lemma RekeyedExactly(base: State, ev: Event, k: Key)
    requires Inv(base) && Step(base, ev).result.error.None?
    ensures Rekeyed(base.peers, Step(base, ev).state.peers, k) <==> Rekeys(base, ev) && ev.d.vk == k
  {
    if Rekeyed(base.peers, Step(base, ev).state.peers, k) {
      OnlySenderRekeyed(base, ev, k);
    }
    if ev.Incoming? && ev.d.vk == k && Judge(base, ev.d).Admitted? {
      CommittedAdmission(base, ev.d);
      AdmittedRecord(base, ev.d, AdmitNext(base, ev.d));
      if k in base.peers.at {
        KnownArrives(base, ev.d);
      }
    }
  }

  /** Whoever has the key now or left with it had it before, and only vk's key changed. */
  lemma NobodyElseExactly(base: PeerDict, now: PeerDict, vk: Key)
    requires Rekeyed(base, now, vk)
    requires forall k | k in now.at && k != vk :: k in base.at && now.at[k] == base.at[k]
    ensures Forgotten(base, now, vk) <==> NobodyElseHas(base, vk, base.at[vk].descriptor.pk)
  {
  }

  lemma AdmittedOthers(base: State, d: Descriptor, now: PeerDict)
    requires Keyed(base.peers) && now == AdmitNext(base, d).peers
    ensures forall k | k in now.at && k != d.vk :: k in base.peers.at && now.at[k] == base.peers.at[k]
  {
    forall k | k in now.at && k != d.vk ensures k in base.peers.at && now.at[k] == base.peers.at[k] {
      AdmitAt(base, d, k);
    }
  }

  lemma ForgottenExactly(base: State, ev: Event, k: Key)
    requires Inv(base) && Step(base, ev).result.error.None?
    ensures Forgotten(base.peers, Step(base, ev).state.peers, k) <==> GivesUp(base, ev) && ev.d.vk == k
  {
    RekeyedExactly(base, ev, k);
    if Rekeys(base, ev) && ev.d.vk == k {
      CommittedAdmission(base, ev.d);
      AdmittedOthers(base, ev.d, Step(base, ev).state.peers);
      NobodyElseExactly(base.peers, Step(base, ev).state.peers, k);
    }
  }

  /**
   * After a committed event every key that is on record no longer is named by a trigger,
   * if and only if the event was not a descriptor that gives up a key of its sender's.
   */
  lemma KeysAreNamed(base: State, ev: Event)
    requires Inv(base) && Step(base, ev).result.error.None?
    ensures AllNamed(base.peers, Step(base, ev)) <==> !GivesUp(base, ev)
  {
    if GivesUp(base, ev) {
      ForgottenExactly(base, ev, ev.d.vk);
      ForgottenUnnamed(base, ev, ev.d.vk);
    }
    if !AllNamed(base.peers, Step(base, ev)) {
      var pk :| Unwanted(base.peers, Step(base, ev).state.peers, pk) && !Named(Step(base, ev).result.triggers, pk);
      UnnamedForgotten(base, ev, pk);
      var k :| Forgotten(base.peers, Step(base, ev).state.peers, k);
      ForgottenExactly(base, ev, k);
    }
  }

  ghost predicate DistinctKeys(ps: PeerDict) {
    forall a, b | a in ps.at && b in ps.at && ps.at[a].descriptor.pk == ps.at[b].descriptor.pk :: a == b
  }

  /** Where no two records share a key, any new key of a record that stays does. */
  lemma RekeyingIsForgetting(base: State, ev: Event)
    requires Inv(base) && DistinctKeys(base.peers) && Step(base, ev).result.error.None?
    ensures AllNamed(base.peers, Step(base, ev)) <==> !Rekeys(base, ev)
  {
    KeysAreNamed(base, ev);
  }
}
