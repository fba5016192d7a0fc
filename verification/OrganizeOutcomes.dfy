/** What every event comes to: when it is refused, what it changes and what it leaves alone. */
module OrganizeOutcomes {
  import opened Addresses
  import opened OrderedDict
  import opened Queryable
  import opened Peers
  import opened OrganizeModel
  import opened OrganizeTerms
  import opened OrganizeEffects
  import opened OrganizeInvariant
  import opened OrganizeUniqueness
  import opened OrganizeAdmission
  import opened OrganizeLocality
  import opened OrganizeGateway
  import opened OrganizeGates
  import opened OrganizeLookups
  import opened OrganizeNotices
  import opened OrganizePrefs

  /** An error: nothing is changed and nothing is to be done. */
  predicate Refused(base: State, o: Outcome) {
    o.state == base && o.result.error.Some? && o.result.triggers == []
  }

  /** Success without a write: nothing is changed and nothing is to be done. */
  predicate Idles(base: State, o: Outcome) {
    o.state == base && o.result.error.None? && o.result.triggers == [] && o.result.writes == []
  }

  /** The reference's state if there is one and the schema accepts it; else a refusal. */
  ghost predicate Settles(base: State, ev: Event, o: Outcome) {
    var n := Next(base, ev);
    if n.Some? && SchemaOk(n.value) then o.state == n.value && o.result.error.None? else Refused(base, o)
  }

  /** Preferences, system state and everybody but vk are as they were. */
  ghost predicate OnlyPeer(base: State, now: State, vk: Key) {
    && now.prefs == base.prefs && now.system == base.system
    && forall k | k != vk ::
         && (k in now.peers.at <==> k in base.peers.at)
         && (k in now.peers.at ==> now.peers.at[k] == base.peers.at[k])
  }

  lemma StepSettles(base: State, ev: Event)
    requires Inv(base)
    ensures Inv(Step(base, ev).state) && Settles(base, ev, Step(base, ev))
  {
    StepKeepsInv(base, ev);
    StepIsNextBehindGate(base, ev);
  }

  lemma StepStaysOk(base: State, ev: Event)
    requires Inv(base)
    ensures Inv(Step(base, ev).state)
  {
    StepKeepsInv(base, ev);
  }

  lemma GateOpens(base: State, ev: Event, next: State)
    requires Inv(base) && Next(base, ev) == Some(next) && NoClash(next.peers) && OneGateway(next.peers)
    ensures Step(base, ev).state == next && Step(base, ev).result.error.None?
  {
    NextOk(base, ev);
    SchemaIsPairwise(next);
    StepIsNextBehindGate(base, ev);
  }

  lemma FailureIsClean(base: State, ev: Event)
    ensures var o := Step(base, ev); o.result.error.Some? ==> Refused(base, o)
  {
  }

  lemma GateShuts(base: State, ev: Event)
    requires Keyed(base.peers) && Next(base, ev).None?
    ensures Refused(base, Step(base, ev))
  {
    StepIsNextBehindGate(base, ev);
    FailureIsClean(base, ev);
  }

  /** Whether a state the reference has is committed is decided by the schema. */
  lemma GateDecides(base: State, ev: Event, next: State)
    requires Inv(base) && Next(base, ev) == Some(next)
    ensures Keyed(next.peers)
    ensures var o := Step(base, ev);
            if SchemaOk(next) then o.state == next && o.result.error.None? else Refused(base, o)
  {
    NextOk(base, ev);
    StepSettles(base, ev);
  }

  // ----- adding an address -----

  /** Two enabled peers cannot have one on that the other announces. */
  ghost predicate AnnouncedElsewhere(ps: PeerDict, vk: Key, ip: IP) {
    && vk in ps.at && ps.at[vk].enabled
    && exists k | k in ps.at && k != vk :: ps.at[k].enabled && ip in ps.at[k].descriptor.Announced()
  }

  /** q is p with the address on record and on. */
  predicate WithAddr(p: Peer, q: Peer, ip: IP) {
    && q == p.(v4 := q.v4, v6 := q.v6)
    && q.Recorded() == p.Recorded() + {ip} && q.EnabledAddrs() == p.EnabledAddrs() + {ip}
  }

  ghost predicate Adds(base: State, vk: Key, ip: Option<IP>, o: Outcome) {
    if vk !in base.peers.at then Idles(base, o)
    else if ip.None? || AnnouncedElsewhere(base.peers, vk, ip.value) then Refused(base, o)
    else
      && o.result.error.None? && o.result.triggers == [SyncPeer(vk)]
      && OnlyPeer(base, o.state, vk) && vk in o.state.peers.at
      && WithAddr(base.peers.at[vk], o.state.peers.at[vk], ip.value)
  }

  lemma AddedEnabled(p: Peer, ip: IP)
    ensures SetField(p, Addr(ip, true)).EnabledAddrs() == p.EnabledAddrs() + {ip}
  {
  }

  lemma AddedRest(p: Peer, ip: IP)
    ensures var q := SetField(p, Addr(ip, true)); q == p.(v4 := q.v4, v6 := q.v6)
  {
  }

  lemma AddedAddr(p: Peer, ip: IP)
    ensures WithAddr(p, SetField(p, Addr(ip, true)), ip)
  {
    AddrRecorded(p, ip, true);
    AddedEnabled(p, ip);
    AddedRest(p, ip);
  }

  lemma PutBecomes(ps: PeerDict, vk: Key, q: Peer)
    requires vk in ps.at
    ensures Becomes(ps, Put(ps, vk, q), vk, q)
  {
  }

  lemma AddedMeets(p: Peer, q: Peer, ip: IP, other: Peer)
    requires WithAddr(p, q, ip) && p.Id() != other.Id()
    requires other.enabled ==> !Clash(p, other.descriptor) && !(p.gateway && other.gateway)
    ensures Meets(q.EnabledAddrs(), q.gateway, other) <==> other.enabled && ip in other.descriptor.Announced()
  {
    if other.enabled {
      NoSharedClaim(p, other.descriptor);
      var shared := other.descriptor.Announced() * q.EnabledAddrs();
      assert ip in other.descriptor.Announced() <==> ip in shared;
    }
  }

  lemma AddedMeetsAnother(ps: PeerDict, vk: Key, q: Peer, ip: IP)
    requires Keyed(ps) && NoClash(ps) && OneGateway(ps) && vk in ps.at && ps.at[vk].enabled
    requires WithAddr(ps.at[vk], q, ip)
    ensures MeetsAnother(ps, vk, q.EnabledAddrs(), q.gateway) <==> AnnouncedElsewhere(ps, vk, ip)
  {
    forall k | k in ps.at && k != vk
      ensures Meets(q.EnabledAddrs(), q.gateway, ps.at[k])
              <==> ps.at[k].enabled && ip in ps.at[k].descriptor.Announced() {
      AddedMeets(ps.at[vk], q, ip, ps.at[k]);
    }
  }

  lemma AddedGate(ps: PeerDict, next: State, vk: Key, q: Peer, ip: IP)
    requires PeersOk(ps) && NoClash(ps) && OneGateway(ps) && Keyed(next.peers)
    requires Becomes(ps, next.peers, vk, q) && WithAddr(ps.at[vk], q, ip)
    ensures SchemaOk(next) <==> !AnnouncedElsewhere(ps, vk, ip)
  {
    MeetsGate(ps, next, vk, q);
    if q.enabled {
      AddedMeetsAnother(ps, vk, q, ip);
    }
  }

  lemma AddrAddNote(base: State, vk: Key, ip: Option<IP>)
    ensures var o := Step(base, AddrAdd(vk, ip));
            if vk !in base.peers.at then o.result.triggers == [] && o.result.writes == []
            else ip.Some? && o.result.error.None? ==> o.result.triggers == [SyncPeer(base.peers.at[vk].Id())]
  {
  }

  lemma AddrAddBecomes(base: State, vk: Key, ip: IP) returns (next: State, q: Peer)
    requires vk in base.peers.at
    ensures Next(base, AddrAdd(vk, Some(ip))) == Some(next)
    ensures next == base.(peers := next.peers)
    ensures Becomes(base.peers, next.peers, vk, q) && WithAddr(base.peers.at[vk], q, ip)
  {
    q := SetField(base.peers.at[vk], Addr(ip, true));
    next := base.(peers := Put(base.peers, vk, q));
    AddedAddr(base.peers.at[vk], ip);
    PutBecomes(base.peers, vk, q);
  }

  lemma AddsKnown(base: State, vk: Key, ip: IP)
    requires Inv(base) && vk in base.peers.at
    ensures var o := Step(base, AddrAdd(vk, Some(ip)));
            if AnnouncedElsewhere(base.peers, vk, ip) then Refused(base, o)
            else o.result.error.None? && OnlyPeer(base, o.state, vk) && vk in o.state.peers.at
                 && WithAddr(base.peers.at[vk], o.state.peers.at[vk], ip)
  {
    var next, q := AddrAddBecomes(base, vk, ip);
    GateDecides(base, AddrAdd(vk, Some(ip)), next);
    AddedGate(base.peers, next, vk, q, ip);
  }

  lemma AddsExactly(base: State, vk: Key, ip: Option<IP>)
    requires Inv(base)
    ensures Adds(base, vk, ip, Step(base, AddrAdd(vk, ip)))
  {
    AddrAddNote(base, vk, ip);
    if vk !in base.peers.at {
      GateOpens(base, AddrAdd(vk, ip), base);
    } else if ip.None? {
      GateShuts(base, AddrAdd(vk, ip));
    } else {
      AddsKnown(base, vk, ip.value);
    }
  }

  // ----- deleting an address -----

  /** q is p with the address off its record. */
  predicate WithoutIp(p: Peer, q: Peer, ip: IP) {
    && q == p.(v4 := q.v4, v6 := q.v6)
    && q.Recorded() == p.Recorded() - {ip} && q.EnabledAddrs() == p.EnabledAddrs() - {ip}
  }

  ghost predicate Deletes(base: State, vk: Key, ip: Option<IP>, o: Outcome) {
    if vk !in base.peers.at then Idles(base, o)
    else if ip.None? || ip.value !in base.peers.at[vk].Recorded() then Refused(base, o)
    else
      && o.result.error.None? && o.result.triggers == [SyncPeer(vk), RemoveRoute(ip.value)]
      && OnlyPeer(base, o.state, vk) && vk in o.state.peers.at
      && WithoutIp(base.peers.at[vk], o.state.peers.at[vk], ip.value)
  }

  lemma HasAddrIsRecorded(p: Peer, ip: IP)
    ensures HasAddr(p, ip) <==> ip in p.Recorded()
  {
  }

  lemma DeletedRecorded(p: Peer, ip: IP)
    ensures WithoutAddr(p, ip).Recorded() == p.Recorded() - {ip}
  {
  }

  lemma DeletedEnabled(p: Peer, ip: IP)
    ensures WithoutAddr(p, ip).EnabledAddrs() == p.EnabledAddrs() - {ip}
  {
  }

  lemma DeletedAddr(p: Peer, ip: IP)
    ensures WithoutIp(p, WithoutAddr(p, ip), ip)
  {
    DeletedRecorded(p, ip);
    DeletedEnabled(p, ip);
  }

  lemma FewerMeet(p: Peer, q: Peer, other: Peer)
    requires p.Id() != other.Id() && q.gateway == p.gateway && q.EnabledAddrs() <= p.EnabledAddrs()
    requires other.enabled ==> !Clash(p, other.descriptor) && !(p.gateway && other.gateway)
    ensures !Meets(q.EnabledAddrs(), q.gateway, other)
  {
    if other.enabled {
      NoSharedClaim(p, other.descriptor);
      assert other.descriptor.Announced() * q.EnabledAddrs() == {};
    }
  }

  lemma FewerMeetsNobody(ps: PeerDict, vk: Key, q: Peer)
    requires Keyed(ps) && NoClash(ps) && OneGateway(ps) && vk in ps.at && ps.at[vk].enabled
    requires q.gateway == ps.at[vk].gateway && q.EnabledAddrs() <= ps.at[vk].EnabledAddrs()
    ensures !MeetsAnother(ps, vk, q.EnabledAddrs(), q.gateway)
  {
    forall k | k in ps.at && k != vk ensures !Meets(q.EnabledAddrs(), q.gateway, ps.at[k]) {
      FewerMeet(ps.at[vk], q, ps.at[k]);
    }
  }

  lemma DeletedGate(ps: PeerDict, next: State, vk: Key, q: Peer, ip: IP)
    requires PeersOk(ps) && NoClash(ps) && OneGateway(ps) && Keyed(next.peers)
    requires Becomes(ps, next.peers, vk, q) && WithoutIp(ps.at[vk], q, ip)
    ensures SchemaOk(next)
  {
    MeetsGate(ps, next, vk, q);
    if q.enabled {
      FewerMeetsNobody(ps, vk, q);
    }
  }

  lemma AddrDelRun(base: State, vk: Key, ip: Option<IP>)
    ensures var t := RunAddrDel(Begin(base, AddrDel(vk, ip)), base, vk, ip);
            if vk !in base.peers.at then t.result.triggers == [] && t.result.writes == []
            else ip.Some? && !t.Failed() ==>
                   t.result.triggers == [SyncPeer(base.peers.at[vk].Id()), RemoveRoute(ip.value)]
  {
  }

  lemma AddrDelNote(base: State, vk: Key, ip: Option<IP>)
    ensures var o := Step(base, AddrDel(vk, ip));
            if vk !in base.peers.at then o.result.triggers == [] && o.result.writes == []
            else ip.Some? && o.result.error.None? ==>
                   o.result.triggers == [SyncPeer(base.peers.at[vk].Id()), RemoveRoute(ip.value)]
  {
    AddrDelRun(base, vk, ip);
  }

  lemma AddrDelBecomes(base: State, vk: Key, ip: IP) returns (next: State, q: Peer)
    requires vk in base.peers.at && HasAddr(base.peers.at[vk], ip)
    ensures Next(base, AddrDel(vk, Some(ip))) == Some(next)
    ensures next == base.(peers := next.peers)
    ensures Becomes(base.peers, next.peers, vk, q) && WithoutIp(base.peers.at[vk], q, ip)
  {
    q := WithoutAddr(base.peers.at[vk], ip);
    next := base.(peers := Put(base.peers, vk, q));
    DeletedAddr(base.peers.at[vk], ip);
    PutBecomes(base.peers, vk, q);
  }

  lemma DeletesKnown(base: State, vk: Key, ip: IP)
    requires Inv(base) && vk in base.peers.at
    ensures var o := Step(base, AddrDel(vk, Some(ip)));
            if !HasAddr(base.peers.at[vk], ip) then Refused(base, o)
            else o.result.error.None? && OnlyPeer(base, o.state, vk) && vk in o.state.peers.at
                 && WithoutIp(base.peers.at[vk], o.state.peers.at[vk], ip)
  {
    if HasAddr(base.peers.at[vk], ip) {
      var next, q := AddrDelBecomes(base, vk, ip);
      GateDecides(base, AddrDel(vk, Some(ip)), next);
      DeletedGate(base.peers, next, vk, q, ip);
    } else {
      GateShuts(base, AddrDel(vk, Some(ip)));
    }
  }

  lemma DeletesExactly(base: State, vk: Key, ip: Option<IP>)
    requires Inv(base)
    ensures Deletes(base, vk, ip, Step(base, AddrDel(vk, ip)))
  {
    AddrDelNote(base, vk, ip);
    if vk !in base.peers.at {
      GateOpens(base, AddrDel(vk, ip), base);
    } else if ip.None? {
      GateShuts(base, AddrDel(vk, ip));
    } else {
      HasAddrIsRecorded(base.peers.at[vk], ip.value);
      DeletesKnown(base, vk, ip.value);
    }
  }

  // ----- removing a peer -----

  /** The one record the query is for goes; if there is none nothing happens, and otherwise it is refused. */
  ghost predicate Forgets(base: State, q: Query, o: Outcome) {
    && (forall k | AsksOnly(base.peers, q, k) ::
          && o.result.error.None? && o.result.triggers == Farewell(base.peers.at[k])
          && k !in o.state.peers.at && OnlyPeer(base, o.state, k))
    && ((forall k :: !Asks(base.peers, q, k)) ==> Idles(base, o))
    && ((exists k :: Asks(base.peers, q, k)) && (forall k :: !AsksOnly(base.peers, q, k)) ==> Refused(base, o))
  }

  lemma RemovalRun(base: State, q: Query, found: Lookup)
    requires found == LookUp(Values(base.peers), q)
    ensures var t := RunRemove(Begin(base, UserRemovePeer(q)), base, q);
            found.Missing? ==> t.result.triggers == [] && t.result.writes == []
  {
  }

  lemma RemovalNote(base: State, q: Query, found: Lookup)
    requires found == LookUp(Values(base.peers), q)
    ensures var o := Step(base, UserRemovePeer(q));
            found.Missing? ==> o.result.triggers == [] && o.result.writes == []
  {
    RemovalRun(base, q, found);
  }

  lemma RemovalGate(base: State, vk: Key)
    requires Inv(base)
    ensures NoClash(Drop(base.peers, vk)) && OneGateway(Drop(base.peers, vk))
  {
  }

  lemma ForgetsFound(base: State, q: Query, p: Peer)
    requires Inv(base) && LookUp(Values(base.peers), q) == Found(p)
    ensures p.Id() in base.peers.at && base.peers.at[p.Id()] == p
    ensures var o := Step(base, UserRemovePeer(q));
            && o.result.error.None? && o.state == base.(peers := Drop(base.peers, p.Id()))
            && o.result.triggers == Farewell(p)
  {
    LookUpMember(Values(base.peers), q);
    ValuesMembers(base.peers, p);
    RemovalGate(base, p.Id());
    GateOpens(base, UserRemovePeer(q), base.(peers := Drop(base.peers, p.Id())));
    RemovalStepNotes(base, q, p);
  }

  /** The outcome for each result of the look-up. */
  ghost predicate ForgetsAs(base: State, o: Outcome, found: Lookup) {
    match found
    case Ambiguous => Refused(base, o)
    case Missing => Idles(base, o)
    case Found(p) =>
      o.result.error.None? && o.state == base.(peers := Drop(base.peers, p.Id())) && o.result.triggers == Farewell(p)
  }

  lemma ForgetsLookUp(base: State, q: Query)
    requires Inv(base)
    ensures ForgetsAs(base, Step(base, UserRemovePeer(q)), LookUp(Values(base.peers), q))
  {
    var found := LookUp(Values(base.peers), q);
    RemovalNote(base, q, found);
    match found
    case Ambiguous => GateShuts(base, UserRemovePeer(q));
    case Missing => GateOpens(base, UserRemovePeer(q), base);
    case Found(p) => ForgetsFound(base, q, p);
  }

  lemma ForgetsAsked(base: State, q: Query, o: Outcome, found: Lookup)
    requires Keyed(base.peers) && ForgetsAs(base, o, found)
    requires found.Missing? <==> forall k :: !Asks(base.peers, q, k)
    requires forall k | k in base.peers.at :: found == Found(base.peers.at[k]) <==> AsksOnly(base.peers, q, k)
    requires found.Found? ==> exists k :: AsksOnly(base.peers, q, k)
    ensures Forgets(base, q, o)
  {
    forall k | AsksOnly(base.peers, q, k)
      ensures o.result.error.None? && o.result.triggers == Farewell(base.peers.at[k])
      ensures k !in o.state.peers.at && OnlyPeer(base, o.state, k) {
      assert found == Found(base.peers.at[k]);
    }
  }

  lemma ForgetsExactly(base: State, q: Query)
    requires Inv(base)
    ensures Forgets(base, q, Step(base, UserRemovePeer(q)))
  {
    ForgetsLookUp(base, q);
    LookUpExactly(base.peers, q);
    ForgetsAsked(base, q, Step(base, UserRemovePeer(q)), LookUp(Values(base.peers), q));
  }

  // ----- verifying and pinning -----

  ghost predicate Verifies(base: State, vk: Key, hostname: string, o: Outcome) {
    && Settles(base, VerifyAndPin(vk, hostname), o)
    && (o.result.error.Some? <==> VerifyRefused(base, vk, hostname))
    && (o.result.error.None? ==>
          && OnlyPeer(base, o.state, vk) && vk in base.peers.at && vk in o.state.peers.at
          && PinnedOver(base.peers.at[vk], o.state.peers.at[vk], base)
          && o.result.triggers == [SyncPeer(vk), RemoveUnknown, SyncPeer(vk), RemoveUnknown])
  }

  lemma VerifyDispatch(base: State, vk: Key, hostname: string)
    ensures Next(base, VerifyAndPin(vk, hostname)) == VerifyNext(base, vk, hostname)
  {
  }

  lemma OnlyPeerTwice(a: State, b: State, c: State, vk: Key)
    requires OnlyPeer(a, b, vk) && OnlyPeer(b, c, vk)
    ensures OnlyPeer(a, c, vk)
  {
  }

  lemma EditIsOnlyPeer(n: State, base: State, vk: Key, f: UserField)
    requires EditNext(n, base, vk, f).Some?
    ensures OnlyPeer(n, EditNext(n, base, vk, f).value, vk)
  {
    forall k | k != vk
      ensures var next := EditNext(n, base, vk, f).value.peers;
              (k in next.at <==> k in n.peers.at) && (k in next.at ==> next.at[k] == n.peers.at[k]) {
      EditLeavesOthers(n, base, vk, f, k);
    }
  }

  lemma BothLeaveOthers(base: State, mid: State, next: State, vk: Key)
    requires EditNext(base, base, vk, Verified(true)) == Some(mid)
             && EditNext(mid, base, vk, Pinned(true)) == Some(next)
    ensures OnlyPeer(base, next, vk)
  {
    EditIsOnlyPeer(base, base, vk, Verified(true));
    EditIsOnlyPeer(mid, base, vk, Pinned(true));
    OnlyPeerTwice(base, mid, next, vk);
  }

  lemma VerifyIsBoth(base: State, vk: Key, hostname: string, next: State) returns (mid: State)
    requires VerifyNext(base, vk, hostname) == Some(next)
    ensures EditNext(base, base, vk, Verified(true)) == Some(mid) && EditNext(mid, base, vk, Pinned(true)) == Some(next)
  {
    mid := EditNext(base, base, vk, Verified(true)).value;
  }

  lemma FirstIsSynced(base: State, vk: Key, mid: State)
    requires Keyed(base.peers) && EditNext(base, base, vk, Verified(true)) == Some(mid) && vk in mid.peers.at
    ensures vk in base.peers.at
    ensures EditNotices(base.peers.at[vk], Verified(true), base) == [SyncPeer(vk), RemoveUnknown]
  {
    EditedRecord(base, base, vk, Verified(true));
    UserFieldKeepsId(base.peers.at[vk], Verified(true));
  }

  lemma PinningSyncs(m: Peer, base: State)
    requires PeerOk(m)
    ensures EditNotices(m, Pinned(true), base) == [SyncPeer(m.Id()), RemoveUnknown]
  {
    EditedRefreshable(m, Pinned(true));
    PinnedAlike(m, base);
    RefreshExact(SetField(m, Pinned(true)), base, base.system);
  }

  lemma BothAreSynced(base: State, vk: Key, mid: State)
    requires Inv(base) && EditNext(base, base, vk, Verified(true)) == Some(mid) && vk in mid.peers.at
    ensures vk in base.peers.at
    ensures EditNotices(base.peers.at[vk], Verified(true), base) == [SyncPeer(vk), RemoveUnknown]
    ensures EditNotices(mid.peers.at[vk], Pinned(true), base) == [SyncPeer(vk), RemoveUnknown]
  {
    FirstIsSynced(base, vk, mid);
    EditOk(base, base, vk, Verified(true));
    PinningSyncs(mid.peers.at[vk], base);
  }

  lemma VerifyPins(base: State, vk: Key, hostname: string, next: State)
    requires Inv(base) && VerifyNext(base, vk, hostname) == Some(next)
    ensures OnlyPeer(base, next, vk) && vk in base.peers.at && vk in next.peers.at
    ensures PinnedOver(base.peers.at[vk], next.peers.at[vk], base)
  {
    var mid := VerifyIsBoth(base, vk, hostname, next);
    BothHalves(base, vk, mid, next);
    BothLeaveOthers(base, mid, next, vk);
  }

  lemma VerifySyncs(base: State, vk: Key, hostname: string, next: State)
    requires Inv(base) && VerifyNext(base, vk, hostname) == Some(next)
    ensures var r := Step(base, VerifyAndPin(vk, hostname)).result;
            r.error.None? ==> r.triggers == [SyncPeer(vk), RemoveUnknown, SyncPeer(vk), RemoveUnknown]
  {
    var mid := VerifyIsBoth(base, vk, hostname, next);
    VerifyStepNotes(base, vk, hostname, mid);
    if Step(base, VerifyAndPin(vk, hostname)).result.error.None? {
      BothAreSynced(base, vk, mid);
    }
  }

  lemma VerifiesExactly(base: State, vk: Key, hostname: string)
    requires Inv(base)
    ensures Verifies(base, vk, hostname, Step(base, VerifyAndPin(vk, hostname)))
  {
    StepSettles(base, VerifyAndPin(vk, hostname));
    VerifyDispatch(base, vk, hostname);
    VerifyGateExact(base, vk, hostname);
    if VerifyNext(base, vk, hostname).Some? {
      VerifyPins(base, vk, hostname, VerifyNext(base, vk, hostname).value);
      VerifySyncs(base, vk, hostname, VerifyNext(base, vk, hostname).value);
    }
  }

  // ----- editing a peer -----

  /** The edited peer stays if it is pinned or has a usable address, with its field edited; nobody else changes. */
  ghost predicate PeerEdited(base: State, vk: Key, f: UserField, now: State)
    requires vk in base.peers.at
  {
    var p := base.peers.at[vk];
    && OnlyPeer(base, now, vk)
    && (vk in now.peers.at <==>
          PinnedWith(p, f) || exists ip | ip in p.descriptor.Announced() :: Usable(ip, base.prefs, base.system))
    && (vk in now.peers.at ==> EditedTo(p, f, now.peers.at[vk], base))
  }

  ghost predicate Edits(base: State, vk: Key, f: UserField, o: Outcome) {
    && Settles(base, EditPeer(vk, f), o)
    && (o.result.error.Some? <==> vk !in base.peers.at || EditCollides(base, vk, f))
    && (o.result.error.None? ==>
          && vk in base.peers.at && PeerEdited(base, vk, f, o.state)
          && o.result.triggers ==
             (if vk in o.state.peers.at then [SyncPeer(vk)] else Farewell(SetField(base.peers.at[vk], f)))
             + [RemoveUnknown])
  }

  lemma PeerEditedBy(base: State, vk: Key, f: UserField, next: State)
    requires Inv(base) && EditNext(base, base, vk, f) == Some(next)
    ensures vk in base.peers.at && PeerEdited(base, vk, f, next)
  {
    EditIsOnlyPeer(base, base, vk, f);
    EditExactly(base, vk, f, next);
  }

  lemma EditNoticed(base: State, vk: Key, f: UserField, next: State)
    requires Keyed(base.peers) && EditNext(base, base, vk, f) == Some(next)
    ensures vk in base.peers.at
    ensures EditNotices(base.peers.at[vk], f, base) ==
              (if vk in next.peers.at then [SyncPeer(vk)] else Farewell(SetField(base.peers.at[vk], f)))
              + [RemoveUnknown]
  {
    EditedRecord(base, base, vk, f);
    UserFieldKeepsId(base.peers.at[vk], f);
  }

  lemma EditsExactly(base: State, vk: Key, f: UserField)
    requires Inv(base)
    ensures Edits(base, vk, f, Step(base, EditPeer(vk, f)))
  {
    StepSettles(base, EditPeer(vk, f));
    EditDispatch(base, vk, f);
    if vk in base.peers.at {
      var next := EditNext(base, base, vk, f).value;
      PeerEditedBy(base, vk, f, next);
      EditGateExact(base, vk, f, next);
      EditStepNotes(base, vk, f);
      EditNoticed(base, vk, f, next);
    }
  }

  // ----- editing a preference -----

  /** Refused unless the preference takes the edit; then exactly that preference is edited, and nothing else changes. */
  ghost predicate Prefers(base: State, op: Operation, pref: Pref, value: Input, o: Outcome) {
    if !Takes(op, pref, value) then Refused(base, o)
    else
      && o.result.error.None? && o.result.triggers == [GetNewSystemState, RemoveUnknown]
      && o.state == base.(prefs := o.state.prefs)
      && PrefEdited(base.prefs, op, pref, value, o.state.prefs)
  }

  lemma PrefDispatch(base: State, op: Operation, pref: Pref, value: Input)
    ensures Next(base, EditPref(op, pref, value)) == PrefNext(base, op, pref, value)
  {
  }

  lemma PrefNote(base: State, op: Operation, pref: Pref, value: Input)
    ensures var o := Step(base, EditPref(op, pref, value));
            o.result.error.None? ==> o.result.triggers == [GetNewSystemState, RemoveUnknown]
  {
  }

  lemma PrefersAs(base: State, op: Operation, pref: Pref, value: Input)
    requires Inv(base)
    ensures var o := Step(base, EditPref(op, pref, value));
            match EditedPrefs(base.prefs, op, pref, value)
            case None => Refused(base, o)
            case Some(prefs) =>
              && o.result.error.None? && o.result.triggers == [GetNewSystemState, RemoveUnknown]
              && o.state == base.(prefs := prefs)
  {
    var ev := EditPref(op, pref, value);
    PrefDispatch(base, op, pref, value);
    PrefNote(base, op, pref, value);
    if PrefNext(base, op, pref, value).Some? {
      GateOpens(base, ev, PrefNext(base, op, pref, value).value);
    } else {
      GateShuts(base, ev);
    }
  }

  lemma PrefersExactly(base: State, op: Operation, pref: Pref, value: Input)
    requires Inv(base)
    ensures Prefers(base, op, pref, value, Step(base, EditPref(op, pref, value)))
  {
    PrefersAs(base, op, pref, value);
    EditIsTaken(base.prefs, op, pref, value);
    if EditedPrefs(base.prefs, op, pref, value).Some? {
      PrefsExactly(base.prefs, op, pref, value);
    }
  }

  // ----- releasing the gateway -----

  /** What a committed release is, by the state it leaves and its triggers. */
  ghost predicate ReleasedTo(base: State, k: Key, now: State, triggers: seq<Trigger>) {
    && k in base.peers.at && PeerEdited(base, k, Gateway(false), now)
    && triggers ==
       (if k in now.peers.at then [SyncPeer(k)] else Farewell(SetField(base.peers.at[k], Gateway(false))))
       + [RemoveUnknown] + [GetNewSystemState]
  }

  ghost predicate Releases(base: State, o: Outcome) {
    && Settles(base, ReleaseGateway, o)
    && match Current(base.peers)
       case None => Idles(base, o)
       case Some(k) =>
         && k in base.peers.at && (o.result.error.Some? <==> ReleaseCollides(base, k))
         && (o.result.error.None? ==> ReleasedTo(base, k, o.state, o.result.triggers))
  }

  lemma ReleaseNote(base: State)
    ensures var o := Step(base, ReleaseGateway);
            Current(base.peers).None? ==> o.result.triggers == [] && o.result.writes == []
  {
  }

  lemma ReleasedBy(base: State, k: Key, next: State, triggers: seq<Trigger>)
    requires Inv(base) && k in base.peers.at && EditNext(base, base, k, Gateway(false)) == Some(next)
    requires triggers == EditNotices(base.peers.at[k], Gateway(false), base) + [GetNewSystemState]
    ensures ReleasedTo(base, k, next, triggers)
  {
    PeerEditedBy(base, k, Gateway(false), next);
    EditNoticed(base, k, Gateway(false), next);
  }

  lemma ReleasesCurrent(base: State, k: Key)
    requires Inv(base) && Current(base.peers) == Some(k) && Step(base, ReleaseGateway).result.error.None?
    ensures ReleasedTo(base, k, Step(base, ReleaseGateway).state, Step(base, ReleaseGateway).result.triggers)
  {
    CurrentIs(base.peers);
    ReleasedState(base, k);
    ReleaseStepNotes(base, base.peers.at[k]);
    ReleasedBy(base, k, Step(base, ReleaseGateway).state, Step(base, ReleaseGateway).result.triggers);
  }

  lemma ReleaseRefusal(base: State, k: Key)
    requires Inv(base) && Current(base.peers) == Some(k)
    ensures k in base.peers.at
    ensures Step(base, ReleaseGateway).result.error.Some? <==> ReleaseCollides(base, k)
  {
    CurrentIs(base.peers);
    ReleaseDispatch(base);
    ReleaseIsEdit(base, k);
    var next := EditNext(base, base, k, Gateway(false)).value;
    GateDecides(base, ReleaseGateway, next);
    ReleaseGateExact(base, k, next);
  }

  lemma NobodyReleased(base: State)
    requires Current(base.peers).None?
    ensures ReleaseNext(base) == Some(base)
  {
  }

  lemma NothingToRelease(base: State)
    requires Inv(base) && Current(base.peers).None?
    ensures Step(base, ReleaseGateway).state == base && Step(base, ReleaseGateway).result.error.None?
  {
    ReleaseDispatch(base);
    NobodyReleased(base);
    GateOpens(base, ReleaseGateway, base);
  }

  lemma ReleasesExactly(base: State)
    requires Inv(base)
    ensures Releases(base, Step(base, ReleaseGateway))
  {
    ReleaseNote(base);
    StepSettles(base, ReleaseGateway);
    if Current(base.peers).None? {
      NothingToRelease(base);
    } else {
      ReleaseRefusal(base, Current(base.peers).value);
      if Step(base, ReleaseGateway).result.error.None? {
        ReleasesCurrent(base, Current(base.peers).value);
      }
    }
  }

  // ----- a new system state -----

  ghost predicate Adjusts(base: State, sys: SystemState, o: Outcome) {
    && Settles(base, NewSystemState(sys), o)
    && (o.result.error.Some? <==> SystemRefused(base, sys))
    && (o.result.error.None? ==>
          && o.state.prefs == base.prefs && o.state.system == sys && AllAdjusted(base, sys, o.state.peers)
          && o.result.triggers == SystemNotices(base, sys, o.state.peers))
  }

  lemma AdjustsExactly(base: State, sys: SystemState)
    requires Inv(base)
    ensures Adjusts(base, sys, Step(base, NewSystemState(sys)))
  {
    StepSettles(base, NewSystemState(sys));
    AdjustDispatch(base, sys);
    SystemStateGateExact(base, sys);
    SystemStateAdjusts(base, sys);
    SystemStepNotes(base, sys);
  }

  /** Two enabled peers that announce one address stop every system state that makes it local and allowed. */
  lemma SharedAddressBlocks(base: State, sys: SystemState, a: Key, b: Key, ip: IP)
    requires Inv(base) && a in base.peers.at && b in base.peers.at && a != b
    requires base.peers.at[a].enabled && base.peers.at[b].enabled
    requires ip in base.peers.at[a].descriptor.Announced() && ip in base.peers.at[b].descriptor.Announced()
    requires Usable(ip, base.prefs, sys)
    ensures Refused(base, Step(base, NewSystemState(sys)))
  {
    AdjustsExactly(base, sys);
    assert StaysOn(base, sys, a) && StaysOn(base, sys, b);
    assert ip in base.peers.at[b].descriptor.Announced() * AddrsOn(base.peers.at[a], base.prefs, sys);
    assert PairCollides(base, sys, a, b);
  }

  // ----- an incoming descriptor -----

  /** What is left once the descriptor is taken in: everybody not pushed out, and the sender if it can stay. */
  ghost predicate TakenIn(base: State, d: Descriptor, now: State) {
    && now.prefs == base.prefs && now.system == base.system
    && (forall k | k != d.vk ::
          && (k in now.peers.at <==> Stays(base.peers, d, k))
          && (k in now.peers.at ==> now.peers.at[k] == base.peers.at[k]))
    && (d.vk in now.peers.at <==> RemainsOnArrival(base, d))
    && (d.vk in now.peers.at ==> ArrivedAs(base, d, now.peers.at[d.vk]))
  }

  /** Without a primary address it is refused; if it is not acceptable nothing happens. */
  ghost predicate Receives(base: State, d: Descriptor, o: Outcome) {
    if d.p.None? then Refused(base, o)
    else if !Acceptable(base, d) then Idles(base, o)
    else if GetsThrough(base, d) then
      && o.result.error.None? && TakenIn(base, d, o.state)
      && o.result.triggers == IncomingNotices(base, d, o.state.peers)
    else Refused(base, o)
  }

  lemma JudgeNote(base: State, d: Descriptor, v: Verdict)
    requires v == Judge(base, d)
    ensures var o := Step(base, Incoming(d));
            v.Ignored? || v.Rejected? ==> o.result.triggers == [] && o.result.writes == []
  {
  }

  lemma AdmittedIsTakenIn(base: State, d: Descriptor)
    requires Inv(base) && Judge(base, d).Admitted?
    ensures TakenIn(base, d, AdmitNext(base, d))
  {
    JudgeAdmissible(base, d);
    ArrivalExactly(base, d);
    AdmitAt(base, d, d.vk);
    forall k | k != d.vk
      ensures k in AdmitNext(base, d).peers.at <==> Stays(base.peers, d, k)
      ensures k in AdmitNext(base, d).peers.at ==> AdmitNext(base, d).peers.at[k] == base.peers.at[k] {
      AdmitAt(base, d, k);
    }
  }

  lemma ReceivesAdmitted(base: State, d: Descriptor)
    requires Inv(base) && Judge(base, d).Admitted?
    ensures var o := Step(base, Incoming(d));
            if GetsThrough(base, d) then o.result.error.None? && o.state == AdmitNext(base, d) else Refused(base, o)
  {
    IncomingDispatch(base, d);
    AdmittedNext(base, d, Judge(base, d));
    AdmissionGateExact(base, d);
    StepSettles(base, Incoming(d));
  }

  lemma ReceivesStopped(base: State, d: Descriptor, v: Verdict)
    requires Inv(base) && v == Judge(base, d) && !v.Admitted?
    ensures var o := Step(base, Incoming(d)); if v.Broken? then Refused(base, o) else Idles(base, o)
  {
    JudgeNote(base, d, v);
    if v.Broken? {
      GateShuts(base, Incoming(d));
    } else {
      GateOpens(base, Incoming(d), base);
    }
  }

  lemma ReceivesExactly(base: State, d: Descriptor)
    requires Inv(base)
    ensures Receives(base, d, Step(base, Incoming(d)))
  {
    JudgeExactly(base, d);
    if Judge(base, d).Admitted? {
      ReceivesAdmitted(base, d);
      AdmittedIsTakenIn(base, d);
      IncomingStepNotes(base, d);
    } else {
      ReceivesStopped(base, d, Judge(base, d));
    }
  }

  // ----- why a descriptor is turned away -----

  /** What a descriptor is said to be ignored for is so. */
  predicate TrueIgnore(base: State, d: Descriptor, reason: string) {
    || (&& reason == "primary IP is not in ULA subnet" && d.p.Some?
        && !Contains(Net(V6([0xfc, 0, 0, 0, 0, 0, 0, 0, 0, 0, 0, 0, 0, 0, 0, 0]), 7), d.p.value))
    || (reason == "has our wg pk" && d.pk == base.system.ourPk)
    || (reason == "replay" && d.vk in base.peers.at && d.vf < base.peers.at[d.vk].descriptor.vf)
  }

  /** What it is said to be rejected for is so. */
  ghost predicate TrueReject(base: State, d: Descriptor, reason: string) {
    || (reason == "no addresses local to us" && forall ip | ip in d.Announced() :: !OnSubnet(ip, base.system))
    || (reason == "invalid domain" && !NamedLocally(d.hostname, base.prefs))
    || (&& reason == "conflict"
        && exists k | k in base.peers.at ::
             base.peers.at[k].enabled && base.peers.at[k].pinned && Clash(base.peers.at[k], d))
  }

  lemma IgnoredTruly(base: State, d: Descriptor)
    requires Judge(base, d).Ignored?
    ensures TrueIgnore(base, d, Judge(base, d).reason)
  {
  }

  lemma RejectedIs(base: State, d: Descriptor)
    requires Judge(base, d).Rejected?
    ensures var reason := Judge(base, d).reason;
            || (reason == "no addresses local to us" && !exists ip | ip in d.All() :: base.system.Local(ip))
            || (reason == "invalid domain" && !InLocalDomain(d.hostname, base.prefs))
            || (reason == "conflict" && exists q | q in ConflictsForDescriptor(Values(base.peers), d) :: q.pinned)
  {
  }

  lemma RejectedTruly(base: State, d: Descriptor)
    requires Keyed(base.peers) && Judge(base, d).Rejected?
    ensures TrueReject(base, d, Judge(base, d).reason)
  {
    RejectedIs(base, d);
    PinnedConflicts(base, d);
    LocalNameExactly(d.hostname, base.prefs);
    forall ip | ip in d.Announced() ensures ip in d.All() && (base.system.Local(ip) <==> OnSubnet(ip, base.system)) {
      LocalExactly(ip, base.system);
      AnnouncedIsAll(d, ip);
    }
  }

  lemma VerdictIsSaid(base: State, d: Descriptor, v: Verdict)
    requires v == Judge(base, d)
    ensures var acts := Step(base, Incoming(d)).result.actions;
            && (v.Ignored? ==> acts == [ActIgnore(v.reason)])
            && (v.Rejected? ==> acts == [ActReject(v.reason)])
  {
  }

  /** A descriptor that is not acceptable is turned away with one reason, and a true one. */
  lemma ReasonIsTrue(base: State, d: Descriptor)
    requires Inv(base) && d.p.Some? && !Acceptable(base, d)
    ensures var acts := Step(base, Incoming(d)).result.actions;
            && |acts| == 1
            && if acts[0].ActIgnore? then TrueIgnore(base, d, acts[0].reason)
               else acts[0].ActReject? && TrueReject(base, d, acts[0].reason)
  {
    JudgeExactly(base, d);
    VerdictIsSaid(base, d, Judge(base, d));
    if Judge(base, d).Ignored? {
      IgnoredTruly(base, d);
    } else {
      RejectedTruly(base, d);
    }
  }

  // ----- hosts that are out of reach -----

  /** A descriptor none of whose addresses is on a subnet changes nothing. */
  lemma FarDescriptorIsIdle(base: State, d: Descriptor)
    requires Inv(base) && forall ip | ip in d.Announced() :: !OnSubnet(ip, base.system)
    ensures var o := Step(base, Incoming(d)); o.state == base && o.result.triggers == []
  {
    ReceivesExactly(base, d);
  }

  /** A peer that is not pinned and announces no usable address goes with the system state that makes it so. */
  lemma FarPeerLeaves(base: State, sys: SystemState, k: Key)
    requires Inv(base) && k in base.peers.at && !base.peers.at[k].pinned
    requires forall ip | ip in base.peers.at[k].descriptor.Announced() :: !Usable(ip, base.prefs, sys)
    requires Step(base, NewSystemState(sys)).result.error.None?
    ensures k !in Step(base, NewSystemState(sys)).state.peers.at
  {
    AdjustsExactly(base, sys);
  }
}
