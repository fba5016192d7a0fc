/** What holds in every committed state, whatever events led to it. */
module OrganizeInvariant {
  import opened Addresses
  import opened OrderedDict
  import opened Queryable
  import opened Peers
  import opened OrganizeModel
  import opened OrganizeEffects

  // ----- the gate, pairwise -----

  /** No enabled peer holds what another enabled peer's latest descriptor claims. */
  ghost predicate NoClash(ps: PeerDict) {
    forall a, b | a in ps.at && b in ps.at && a != b && ps.at[a].enabled && ps.at[b].enabled ::
      !Clash(ps.at[a], ps.at[b].descriptor)
  }

  ghost predicate OneGateway(ps: PeerDict) {
    forall a, b | a in ps.at && b in ps.at && ps.at[a].enabled && ps.at[b].enabled ::
      ps.at[a].gateway && ps.at[b].gateway ==> a == b
  }

  lemma {:induction false} InConflictEmpty(all: seq<Peer>, ps: seq<Peer>)
    ensures InConflict(all, ps) == [] <==> forall p | p in ps :: ConflictsForDescriptor(all, p.descriptor) == []
  {
    if ps != [] {
      InConflictEmpty(all, ps[1..]);
      assert ps == [ps[0]] + ps[1..];
    }
  }

  lemma {:induction false} GatewayPosition(ps: seq<Peer>) returns (i: nat)
    requires EnabledGateways(ps) != []
    ensures i < |ps| && ps[i].gateway && ps[i].enabled
  {
    if ps[0].gateway && ps[0].enabled {
      i := 0;
    } else {
      i := GatewayPosition(ps[1..]);
      i := i + 1;
    }
  }

  lemma {:induction false} GatewayPositions(ps: seq<Peer>) returns (i: nat, j: nat)
    requires |EnabledGateways(ps)| > 1
    ensures i < j < |ps| && ps[i].gateway && ps[i].enabled && ps[j].gateway && ps[j].enabled
  {
    if |EnabledGateways(ps[1..])| > 1 {
      i, j := GatewayPositions(ps[1..]);
      i, j := i + 1, j + 1;
    } else {
      i := 0;
      j := GatewayPosition(ps[1..]);
      j := j + 1;
    }
  }

  lemma {:induction false} GatewayCounted(ps: seq<Peer>, i: nat, j: nat)
    requires i <= j < |ps| && ps[i].gateway && ps[i].enabled && ps[j].gateway && ps[j].enabled
    ensures |EnabledGateways(ps)| >= if i < j then 2 else 1
  {
    if i > 0 {
      GatewayCounted(ps[1..], i - 1, j - 1);
    } else if j > 0 {
      GatewayCounted(ps[1..], j - 1, j - 1);
    }
  }

  lemma ManyGateways(ps: PeerDict)
    requires |EnabledGateways(Values(ps))| > 1
    ensures !OneGateway(ps)
  {
    var i, j := GatewayPositions(Values(ps));
    assert ps.order[i] in ps.at && ps.order[j] in ps.at;
  }

  lemma TwoGateways(ps: PeerDict, a: Key, b: Key)
    requires a in ps.at && b in ps.at && a != b
    requires ps.at[a].enabled && ps.at[b].enabled && ps.at[a].gateway && ps.at[b].gateway
    ensures |EnabledGateways(Values(ps))| > 1
  {
    var i :| 0 <= i < |ps.order| && ps.order[i] == a;
    var j :| 0 <= j < |ps.order| && ps.order[j] == b;
    GatewayCounted(Values(ps), if i < j then i else j, if i < j then j else i);
  }

  lemma OneGatewayCounted(ps: PeerDict)
    requires Keyed(ps)
    ensures |EnabledGateways(Values(ps))| <= 1 <==> OneGateway(ps)
  {
    if |EnabledGateways(Values(ps))| > 1 {
      ManyGateways(ps);
    } else if !OneGateway(ps) {
      var a, b :| a in ps.at && b in ps.at && ps.at[a].enabled && ps.at[b].enabled
                  && ps.at[a].gateway && ps.at[b].gateway && a != b;
      TwoGateways(ps, a, b);
    }
  }

  lemma NoConflictFor(ps: PeerDict, b: Key)
    requires Keyed(ps) && b in ps.at
    ensures ConflictsForDescriptor(Values(ps), ps.at[b].descriptor) == []
       <==> forall a | a in ps.at && a != b && ps.at[a].enabled :: !Clash(ps.at[a], ps.at[b].descriptor)
  {
    var found := ConflictsForDescriptor(Values(ps), ps.at[b].descriptor);
    ValuesDistinct(ps);
    ConflictsExact(Values(ps), ps.at[b].descriptor);
    if found != [] {
      assert found[0] in found;
      ValuesMembers(ps, found[0]);
    }
    forall a | a in ps.at && a != b && ps.at[a].enabled && Clash(ps.at[a], ps.at[b].descriptor) ensures found != [] {
      ValuesMembers(ps, ps.at[a]);
      assert ps.at[a] in found;
    }
  }

  lemma ConflictFreeIsNoClash(ps: PeerDict)
    requires Keyed(ps)
    ensures (forall p | p in EnabledOnly(Values(ps)) :: ConflictsForDescriptor(Values(ps), p.descriptor) == []) ==>
              NoClash(ps)
  {
    var all := Values(ps);
    if forall p | p in EnabledOnly(all) :: ConflictsForDescriptor(all, p.descriptor) == [] {
      forall a, b | a in ps.at && b in ps.at && a != b && ps.at[a].enabled && ps.at[b].enabled
        ensures !Clash(ps.at[a], ps.at[b].descriptor) {
        ValuesMembers(ps, ps.at[b]);
        NoConflictFor(ps, b);
      }
    }
  }

  lemma NoClashIsConflictFree(ps: PeerDict)
    requires Keyed(ps) && NoClash(ps)
    ensures forall p | p in EnabledOnly(Values(ps)) :: ConflictsForDescriptor(Values(ps), p.descriptor) == []
  {
    forall p | p in EnabledOnly(Values(ps)) ensures ConflictsForDescriptor(Values(ps), p.descriptor) == [] {
      ValuesMembers(ps, p);
      NoConflictFor(ps, p.Id());
    }
  }

  lemma ConflictsEmpty(all: seq<Peer>)
    ensures Conflicts(all) == [] <==> InConflict(all, EnabledOnly(all)) == [] && |EnabledGateways(all)| <= 1
  {
    if |EnabledGateways(all)| > 1 {
      assert |Ids(EnabledGateways(all))| > 1;
    }
  }

  /** The schema's conflict list is empty exactly when no two enabled peers clash and one gateway at most is enabled. */
  lemma SchemaIsPairwise(st: State)
    requires Keyed(st.peers)
    ensures SchemaOk(st) <==> NoClash(st.peers) && OneGateway(st.peers)
  {
    var all := Values(st.peers);
    ConflictsEmpty(all);
    OneGatewayCounted(st.peers);
    InConflictEmpty(all, EnabledOnly(all));
    ConflictFreeIsNoClash(st.peers);
    if NoClash(st.peers) {
      NoClashIsConflictFree(st.peers);
    }
  }

  // ----- the invariant -----

  predicate AllSwitchedOn<K>(m: map<K, bool>) {
    forall k | k in m :: m[k]
  }

  /**
   * A stored record: its descriptor has a primary and at least one other address,
   * its last announced name is on record (so `Peer.name` never raises), a pinned
   * peer has every recorded address on, and an address that is off is announced.
   */
  ghost predicate PeerOk(p: Peer) {
    && p.descriptor.p.Some?
    && p.descriptor.Announced() != {}
    && p.descriptor.hostname in p.nicknames
    && (p.pinned ==> AllSwitchedOn(p.v4) && AllSwitchedOn(p.v6))
    && p.Recorded() - p.EnabledAddrs() <= p.descriptor.Announced()
  }

  ghost predicate PeersOk(ps: PeerDict) {
    forall k | k in ps.at :: ps.at[k].Id() == k && PeerOk(ps.at[k])
  }

  /** The map key is the descriptor's verify key, every record is in order, and the schema holds. */
  ghost predicate Inv(st: State) {
    PeersOk(st.peers) && NoClash(st.peers) && OneGateway(st.peers)
  }

  lemma InitialInv()
    ensures Inv(InitialState())
  {
  }

  predicate Admissible(d: Descriptor) {
    d.p.Some? && d.Announced() != {}
  }

  lemma AllOnRecorded(p: Peer)
    requires AllSwitchedOn(p.v4) && AllSwitchedOn(p.v6)
    ensures p.Recorded() == p.EnabledAddrs()
  {
  }

  lemma RefreshOk(q: Peer, base: State, sys: SystemState)
    requires Admissible(q.descriptor)
    requires q.descriptor.hostname in q.nicknames || InLocalDomain(q.descriptor.hostname, base.prefs)
    ensures var r := Refresh(q, q.descriptor, base, sys);
            r.Some? ==> r.value.Id() == q.Id() && PeerOk(r.value)
  {
    var r := Refresh(q, q.descriptor, base, sys);
    if r.Some? && q.pinned {
      AllOnRecorded(r.value);
    }
  }

  lemma SettleOk(ps: PeerDict, vk: Key, r: Option<Peer>)
    requires forall k | k in ps.at && k != vk :: ps.at[k].Id() == k && PeerOk(ps.at[k])
    requires r.Some? ==> r.value.Id() == vk && PeerOk(r.value)
    ensures PeersOk(Settle(ps, vk, r))
  {
  }

  lemma UserFieldKeepsNames(p: Peer, f: UserField)
    ensures p.nicknames.Keys <= SetField(p, f).nicknames.Keys
  {
  }

  lemma EditOk(n: State, base: State, vk: Key, f: UserField)
    requires PeersOk(n.peers)
    ensures EditNext(n, base, vk, f).Some? ==> PeersOk(EditNext(n, base, vk, f).value.peers)
  {
    if vk in n.peers.at {
      var q := SetField(n.peers.at[vk], f);
      UserFieldKeepsId(n.peers.at[vk], f);
      UserFieldKeepsNames(n.peers.at[vk], f);
      RefreshOk(q, base, base.system);
      SettleOk(Put(n.peers, vk, q), vk, Refresh(q, q.descriptor, base, base.system));
    }
  }

  lemma JudgeAdmissible(base: State, d: Descriptor)
    requires Judge(base, d).Admitted?
    ensures Admissible(d) && InLocalDomain(d.hostname, base.prefs)
  {
    var ip :| ip in d.All() && base.system.Local(ip);
    assert ip in d.Announced();
  }

  lemma SurvivorOk(base: State, d: Descriptor, k: Key)
    requires PeersOk(base.peers) && k in Survivors(base, d).at
    ensures Survivors(base, d).at[k].Id() == k && PeerOk(Survivors(base, d).at[k])
  {
    DropAllAt(base.peers, ConflictsForDescriptor(Values(base.peers), d));
  }

  lemma DraftOk(base: State, d: Descriptor)
    requires PeersOk(base.peers) && Admissible(d) && InLocalDomain(d.hostname, base.prefs)
    ensures var r := Refresh(Draft(base, d), d, base, base.system);
            r.Some? ==> r.value.Id() == d.vk && PeerOk(r.value)
  {
    RefreshOk(Draft(base, d), base, base.system);
  }

  lemma SurvivorsOk(base: State, d: Descriptor)
    requires PeersOk(base.peers)
    ensures PeersOk(Survivors(base, d))
  {
    forall k | k in Survivors(base, d).at
      ensures Survivors(base, d).at[k].Id() == k && PeerOk(Survivors(base, d).at[k]) {
      SurvivorOk(base, d, k);
    }
  }

  lemma DraftSettledOk(ps: PeerDict, vk: Key, draft: Peer, r: Option<Peer>)
    requires PeersOk(ps) && (r.Some? ==> r.value.Id() == vk && PeerOk(r.value))
    ensures PeersOk(Settle(Put(ps, vk, draft), vk, r))
  {
    SettleOk(Put(ps, vk, draft), vk, r);
  }

  lemma AdmitOk(base: State, d: Descriptor)
    requires PeersOk(base.peers)
    requires Admissible(d) && InLocalDomain(d.hostname, base.prefs)
    ensures PeersOk(AdmitNext(base, d).peers)
  {
    SurvivorsOk(base, d);
    DraftOk(base, d);
    DraftSettledOk(Survivors(base, d), d.vk, Draft(base, d), Refresh(Draft(base, d), d, base, base.system));
  }

  lemma SweepOk(base: State, sys: SystemState, flagged: PeerDict)
    requires PeersOk(base.peers) && OnlyFlagsDiffer(base.peers, flagged)
    ensures PeersOk(Sweep(flagged, base.peers.order, base, sys))
  {
    SweepAt(flagged, base.peers.order, base, sys);
    var r := Sweep(flagged, base.peers.order, base, sys);
    forall k | k in r.at ensures r.at[k].Id() == k && PeerOk(r.at[k]) {
      assert SweptAt(r, flagged, k, base, sys);
      assert SameButFlag(base.peers.at[k], flagged.at[k]);
      RefreshOk(flagged.at[k], base, sys);
    }
  }

  lemma AddrAddedKeepsId(p: Peer, ip: IP)
    ensures SetField(p, Addr(ip, true)).Id() == p.Id()
  {
  }

  lemma AddrAddedOk(p: Peer, ip: IP)
    requires PeerOk(p)
    ensures PeerOk(SetField(p, Addr(ip, true)))
  {
    var q := SetField(p, Addr(ip, true));
    assert q.Recorded() == p.Recorded() + {ip};
    assert q.EnabledAddrs() == p.EnabledAddrs() + {ip};
  }

  lemma AddrAddOk(base: State, vk: Key, ip: Option<IP>)
    requires PeersOk(base.peers)
    ensures AddrAddNext(base, vk, ip).Some? ==> PeersOk(AddrAddNext(base, vk, ip).value.peers)
  {
    if vk in base.peers.at && ip.Some? {
      var q := SetField(base.peers.at[vk], Addr(ip.value, true));
      AddrAddedOk(base.peers.at[vk], ip.value);
      AddrAddedKeepsId(base.peers.at[vk], ip.value);
      SettleOk(base.peers, vk, Some(q));
    }
  }

  lemma AddrDeletedOk(p: Peer, ip: IP)
    requires PeerOk(p)
    ensures PeerOk(WithoutAddr(p, ip))
  {
    var q := WithoutAddr(p, ip);
    assert q.Recorded() == p.Recorded() - {ip};
    assert q.EnabledAddrs() == p.EnabledAddrs() - {ip};
  }

  lemma AddrDeletedKeepsId(p: Peer, ip: IP)
    ensures WithoutAddr(p, ip).Id() == p.Id()
  {
  }

  lemma AddrDelOk(base: State, vk: Key, ip: Option<IP>)
    requires PeersOk(base.peers)
    ensures AddrDelNext(base, vk, ip).Some? ==> PeersOk(AddrDelNext(base, vk, ip).value.peers)
  {
    if vk in base.peers.at && ip.Some? {
      var q := WithoutAddr(base.peers.at[vk], ip.value);
      AddrDeletedOk(base.peers.at[vk], ip.value);
      AddrDeletedKeepsId(base.peers.at[vk], ip.value);
      SettleOk(base.peers, vk, Some(q));
      assert Settle(base.peers, vk, Some(q)) == Put(base.peers, vk, q);
    }
  }

  lemma VerifyOk(base: State, vk: Key, hostname: string)
    requires PeersOk(base.peers)
    ensures VerifyNext(base, vk, hostname).Some? ==> PeersOk(VerifyNext(base, vk, hostname).value.peers)
  {
    EditOk(base, base, vk, Verified(true));
    var n := EditNext(base, base, vk, Verified(true));
    if n.Some? {
      EditOk(n.value, base, vk, Pinned(true));
    }
  }

  lemma RemoveQueryOk(base: State, q: Query)
    requires PeersOk(base.peers)
    ensures RemoveNext(base, q).Some? ==> PeersOk(RemoveNext(base, q).value.peers)
  {
  }

  lemma ReleaseIs(base: State, cur: Option<Peer>)
    requires cur == FirstGateway(Values(base.peers))
    ensures ReleaseNext(base) == if cur.None? then Some(base) else EditNext(base, base, cur.value.Id(), Gateway(false))
  {
  }

  lemma ReleaseOk(base: State)
    requires PeersOk(base.peers)
    ensures ReleaseNext(base).Some? ==> PeersOk(ReleaseNext(base).value.peers)
  {
    var cur := FirstGateway(Values(base.peers));
    ReleaseIs(base, cur);
    if cur.Some? {
      EditOk(base, base, cur.value.Id(), Gateway(false));
    }
  }

  lemma AdjustOk(base: State, sys: SystemState)
    requires PeersOk(base.peers)
    ensures PeersOk(AdjustNext(base, sys).peers)
  {
    ReflagFlags(base, sys);
    SweepOk(base, sys, Reflagged(base, sys));
  }

  lemma IncomingOk(base: State, d: Descriptor)
    requires PeersOk(base.peers)
    ensures IncomingNext(base, d).Some? ==> PeersOk(IncomingNext(base, d).value.peers)
  {
    if Judge(base, d).Admitted? {
      JudgeAdmissible(base, d);
      AdmitOk(base, d);
    }
  }

  lemma PrefOk(base: State, op: Operation, pref: Pref, value: Input)
    requires PeersOk(base.peers)
    ensures PrefNext(base, op, pref, value).Some? ==> PeersOk(PrefNext(base, op, pref, value).value.peers)
  {
  }

  lemma PeerEventOk(base: State, ev: Event)
    requires PeersOk(base.peers) && (ev.VerifyAndPin? || ev.EditPeer? || ev.ReleaseGateway?)
    ensures UserNext(base, ev).Some? ==> PeersOk(UserNext(base, ev).value.peers)
  {
    match ev
    case VerifyAndPin(vk, hostname) => VerifyOk(base, vk, hostname);
    case EditPeer(vk, f) => EditOk(base, base, vk, f);
    case ReleaseGateway => ReleaseOk(base);
    case _ =>
  }

  lemma UserOk(base: State, ev: Event)
    requires PeersOk(base.peers)
    ensures UserNext(base, ev).Some? ==> PeersOk(UserNext(base, ev).value.peers)
  {
    match ev
    case UserRemovePeer(q) => RemoveQueryOk(base, q);
    case AddrAdd(vk, ip) => AddrAddOk(base, vk, ip);
    case AddrDel(vk, ip) => AddrDelOk(base, vk, ip);
    case EditPref(op, pref, value) => PrefOk(base, op, pref, value);
    case _ =>
      if ev.VerifyAndPin? || ev.EditPeer? || ev.ReleaseGateway? {
        PeerEventOk(base, ev);
      }
  }

  lemma NextOk(base: State, ev: Event)
    requires PeersOk(base.peers)
    ensures Next(base, ev).Some? ==> PeersOk(Next(base, ev).value.peers)
  {
    match ev
    case NewSystemState(sys) => AdjustOk(base, sys);
    case Incoming(d) => IncomingOk(base, d);
    case _ => UserOk(base, ev);
  }

  /** A committed event leaves the reference's state, with the invariant; a failed one leaves everything. */
  lemma StepKeepsInv(base: State, ev: Event)
    requires Inv(base)
    ensures Inv(Step(base, ev).state)
    ensures Step(base, ev).result.error.None? ==> Next(base, ev) == Some(Step(base, ev).state)
    ensures Step(base, ev).result.error.Some? ==> Step(base, ev).state == base
  {
    StepIsNextBehindGate(base, ev);
    if Step(base, ev).result.error.None? {
      NextOk(base, ev);
      SchemaIsPairwise(Next(base, ev).value);
    }
  }

  /** The invariant holds after every run from the empty state. */
  lemma {:induction false} RunsKeepInv(evs: seq<Event>)
    ensures Inv(RunAll(InitialState(), evs))
  {
    if evs == [] {
      InitialInv();
    } else {
      RunsKeepInv(evs[..|evs| - 1]);
      StepKeepsInv(RunAll(InitialState(), evs[..|evs| - 1]), evs[|evs| - 1]);
    }
  }
}
