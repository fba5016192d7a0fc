/**
 * Admitting a descriptor: when the schema can still refuse it once the
 * conflicting peers are gone, and what a second delivery does.
 */
module OrganizeAdmission {
  import opened Addresses
  import opened OrderedDict
  import opened Queryable
  import opened Peers
  import opened OrganizeModel
  import opened OrganizeTerms
  import opened OrganizeEffects
  import opened OrganizeInvariant
  import opened OrganizeUniqueness

  /** The sender's record once its descriptor is admitted, or None when it is removed at once. */
  function Arrival(base: State, d: Descriptor): Option<Peer> {
    Refresh(Draft(base, d), d, base, base.system)
  }

  /** The peers an admitted descriptor pushes out. */
  predicate Evicted(q: Peer, d: Descriptor) {
    q.enabled && Clash(q, d)
  }

  ghost predicate Stays(base: PeerDict, d: Descriptor, k: Key) {
    k in base.at && k != d.vk && !Evicted(base.at[k], d)
  }

  lemma SurvivorsAt(base: State, d: Descriptor, k: Key)
    requires Keyed(base.peers) && k != d.vk
    ensures k in Survivors(base, d).at <==> Stays(base.peers, d, k)
    ensures k in Survivors(base, d).at ==> Survivors(base, d).at[k] == base.peers.at[k]
  {
    var gone := ConflictsForDescriptor(Values(base.peers), d);
    ValuesDistinct(base.peers);
    ConflictsExact(Values(base.peers), d);
    DropAllAt(base.peers, gone);
    if k in base.peers.at {
      ValuesMembers(base.peers, base.peers.at[k]);
      if g :| g in gone && g.Id() == k {
        ValuesMembers(base.peers, g);
      }
    }
  }

  /** Everybody else is kept or evicted; the sender ends with its arrival record. */
  lemma AdmitAt(base: State, d: Descriptor, k: Key)
    requires Keyed(base.peers)
    ensures var next := AdmitNext(base, d).peers;
            && (k in next.at <==> if k == d.vk then Arrival(base, d).Some? else Stays(base.peers, d, k))
            && (k in next.at ==> next.at[k] == if k == d.vk then Arrival(base, d).value else base.peers.at[k])
  {
    if k != d.vk {
      SurvivorsAt(base, d, k);
    }
  }

  lemma ArrivalDescriptor(base: State, d: Descriptor)
    ensures Arrival(base, d).Some? ==>
              Arrival(base, d).value.descriptor == d && Arrival(base, d).value.enabled == Draft(base, d).enabled
  {
  }

  // ----- the gate after an admission -----

  /**
   * q announces what the arrival brings with this descriptor. A peer that stays can
   * only do so with that name or address switched off, or it would have been evicted.
   */
  predicate Shadows(q: Peer, arrival: Peer, d: Descriptor) {
    || (q.descriptor.hostname == d.hostname && d.hostname in arrival.EnabledNames())
    || q.descriptor.Announced() * d.Announced() * arrival.EnabledAddrs() != {}
  }

  lemma ShadowClashes(q: Peer, arrival: Peer, d: Descriptor)
    requires arrival.Id() == d.vk && q.Id() != d.vk && Shadows(q, arrival, d)
    ensures Clash(arrival, q.descriptor)
  {
    var shared := q.descriptor.Announced() * d.Announced() * arrival.EnabledAddrs();
    if shared != {} {
      var ip :| ip in shared;
      assert ip in q.descriptor.Announced() * arrival.EnabledAddrs();
    }
  }

  lemma ClashShadows(q: Peer, arrival: Peer, d: Descriptor, was: Option<Peer>)
    requires arrival.enabled && arrival.descriptor == d && From(arrival, was, {}, {})
    requires q.enabled && !Clash(q, d) && q.Id() != d.vk
    requires was.Some? ==> was.value.Id() == d.vk && was.value.enabled && !Clash(was.value, q.descriptor)
    requires Clash(arrival, q.descriptor)
    ensures Shadows(q, arrival, d)
  {
    if was.Some? {
      NoSharedClaim(was.value, q.descriptor);
    }
    if q.descriptor.hostname !in arrival.EnabledNames() {
      var ip :| ip in q.descriptor.Announced() * arrival.EnabledAddrs();
      assert ip in q.descriptor.Announced() * d.Announced() * arrival.EnabledAddrs();
    }
  }

  lemma StayerShadows(base: State, d: Descriptor, k: Key)
    requires Inv(base) && Stays(base.peers, d, k) && base.peers.at[k].enabled
    requires Arrival(base, d).Some? && Arrival(base, d).value.enabled
    ensures !Clash(base.peers.at[k], d)
    ensures Clash(Arrival(base, d).value, base.peers.at[k].descriptor)
            <==> Shadows(base.peers.at[k], Arrival(base, d).value, d)
  {
    var q := base.peers.at[k];
    var arrival := Arrival(base, d).value;
    ArrivalDescriptor(base, d);
    DraftFrom(base, d);
    if Shadows(q, arrival, d) {
      ShadowClashes(q, arrival, d);
    }
    if Clash(arrival, q.descriptor) {
      ClashShadows(q, arrival, d, OldOf(base.peers, d.vk));
    }
  }

  ghost predicate NobodyShadows(base: State, d: Descriptor, arrival: Peer) {
    forall k | Stays(base.peers, d, k) && base.peers.at[k].enabled :: !Shadows(base.peers.at[k], arrival, d)
  }

  ghost predicate OtherGateway(base: State, d: Descriptor) {
    exists k :: Stays(base.peers, d, k) && base.peers.at[k].enabled && base.peers.at[k].gateway
  }

  lemma PairAfterAdmission(base: State, d: Descriptor, arrival: Peer, a: Key, b: Key)
    requires Inv(base) && Arrival(base, d) == Some(arrival) && arrival.enabled
    requires NobodyShadows(base, d, arrival)
    requires var next := AdmitNext(base, d).peers;
             a in next.at && b in next.at && a != b && next.at[a].enabled && next.at[b].enabled
    ensures var next := AdmitNext(base, d).peers; !Clash(next.at[a], next.at[b].descriptor)
  {
    AdmitAt(base, d, a);
    AdmitAt(base, d, b);
    ArrivalDescriptor(base, d);
    if a == d.vk {
      StayerShadows(base, d, b);
    } else if b == d.vk {
      StayerShadows(base, d, a);
    }
  }

  lemma AdmitNoClash(base: State, d: Descriptor, arrival: Peer)
    requires Inv(base) && Arrival(base, d) == Some(arrival) && arrival.enabled
    ensures NoClash(AdmitNext(base, d).peers) <==> NobodyShadows(base, d, arrival)
  {
    var next := AdmitNext(base, d).peers;
    AdmitAt(base, d, d.vk);
    if NoClash(next) {
      forall k | Stays(base.peers, d, k) && base.peers.at[k].enabled ensures !Shadows(base.peers.at[k], arrival, d) {
        AdmitAt(base, d, k);
        StayerShadows(base, d, k);
        assert !Clash(next.at[d.vk], next.at[k].descriptor);
      }
    }
    if NobodyShadows(base, d, arrival) {
      forall a, b | a in next.at && b in next.at && a != b && next.at[a].enabled && next.at[b].enabled
        ensures !Clash(next.at[a], next.at[b].descriptor) {
        PairAfterAdmission(base, d, arrival, a, b);
      }
    }
  }

  lemma AdmitOneGateway(base: State, d: Descriptor, arrival: Peer)
    requires Inv(base) && Arrival(base, d) == Some(arrival) && arrival.enabled
    ensures OneGateway(AdmitNext(base, d).peers) <==> !(arrival.gateway && OtherGateway(base, d))
  {
    var next := AdmitNext(base, d).peers;
    AdmitAt(base, d, d.vk);
    if arrival.gateway && OtherGateway(base, d) {
      var k :| Stays(base.peers, d, k) && base.peers.at[k].enabled && base.peers.at[k].gateway;
      AdmitAt(base, d, k);
    } else {
      forall a, b | a in next.at && b in next.at && next.at[a].enabled && next.at[b].enabled
                    && next.at[a].gateway && next.at[b].gateway
        ensures a == b {
        AdmitAt(base, d, a);
        AdmitAt(base, d, b);
      }
    }
  }

  /** With the sender gone or disabled, nobody enabled is new. */
  lemma AdmitQuietly(base: State, d: Descriptor)
    requires Inv(base) && (Arrival(base, d).Some? ==> !Arrival(base, d).value.enabled)
    ensures NoClash(AdmitNext(base, d).peers) && OneGateway(AdmitNext(base, d).peers)
  {
    var next := AdmitNext(base, d).peers;
    forall k | k in next.at && next.at[k].enabled ensures k in base.peers.at && next.at[k] == base.peers.at[k] {
      AdmitAt(base, d, k);
    }
  }

  /** The descriptor gets through the schema: nobody who stays shadows it, and it adds no second gateway. */
  ghost predicate GetsThrough(base: State, d: Descriptor) {
    var arrival := Arrival(base, d);
    arrival.Some? && arrival.value.enabled ==>
      NobodyShadows(base, d, arrival.value) && !(arrival.value.gateway && OtherGateway(base, d))
  }

  lemma AdmitKeepsOk(base: State, d: Descriptor)
    requires Inv(base) && Judge(base, d).Admitted?
    ensures PeersOk(AdmitNext(base, d).peers)
  {
    JudgeAdmissible(base, d);
    AdmitOk(base, d);
  }

  /** For an admitted descriptor the schema accepts exactly what gets through. */
  lemma AdmissionGateExact(base: State, d: Descriptor)
    requires Inv(base) && Judge(base, d).Admitted?
    ensures SchemaOk(AdmitNext(base, d)) <==> GetsThrough(base, d)
  {
    AdmitKeepsOk(base, d);
    SchemaIsPairwise(AdmitNext(base, d));
    var arrival := Arrival(base, d);
    if arrival.Some? && arrival.value.enabled {
      AdmitNoClash(base, d, arrival.value);
      AdmitOneGateway(base, d, arrival.value);
    } else {
      AdmitQuietly(base, d);
    }
  }

  /** The peer has what it announces switched on. */
  predicate AnnouncedOn(p: Peer) {
    p.descriptor.hostname in p.EnabledNames() && p.descriptor.Announced() <= p.EnabledAddrs()
  }

  lemma AnnouncedOnCannotShadow(q: Peer, arrival: Peer, d: Descriptor)
    requires AnnouncedOn(q) && q.Id() != d.vk && !Clash(q, d)
    ensures !Shadows(q, arrival, d)
  {
    NoSharedClaim(q, d);
    assert q.descriptor.Announced() * d.Announced() * arrival.EnabledAddrs() <= d.Announced() * q.EnabledAddrs();
  }

  /**
   * When every enabled peer has what it announces switched on, removing the
   * conflicting peers is enough: the conflict part of the schema never fires.
   */
  lemma EvictionSuffices(base: State, d: Descriptor)
    requires Inv(base) && Judge(base, d).Admitted?
    requires forall k | k in base.peers.at && base.peers.at[k].enabled :: AnnouncedOn(base.peers.at[k])
    ensures NoClash(AdmitNext(base, d).peers)
  {
    var arrival := Arrival(base, d);
    if arrival.Some? && arrival.value.enabled {
      forall k | Stays(base.peers, d, k) && base.peers.at[k].enabled
        ensures !Shadows(base.peers.at[k], arrival.value, d) {
        AnnouncedOnCannotShadow(base.peers.at[k], arrival.value, d);
      }
      AdmitNoClash(base, d, arrival.value);
    } else {
      AdmitQuietly(base, d);
    }
  }

  // ----- a second delivery -----

  lemma TablesTwice(pinned: bool, v4: map<IPv4, bool>, v6: map<IPv6, bool>, d: Descriptor, prefs: Prefs,
                    sys: SystemState)
    ensures var w4 := V4For(pinned, v4, d, prefs, sys); V4For(pinned, w4, d, prefs, sys) == w4
    ensures var w6 := V6For(pinned, v6, d, prefs, sys); V6For(pinned, w6, d, prefs, sys) == w6
  {
    var w4 := V4For(pinned, v4, d, prefs, sys);
    var w6 := V6For(pinned, v6, d, prefs, sys);
    assert V4For(pinned, w4, d, prefs, sys).Keys == w4.Keys;
    assert V6For(pinned, w6, d, prefs, sys).Keys == w6.Keys;
  }

  lemma RefreshTwice(q: Peer, d: Descriptor, base: State)
    requires InLocalDomain(d.hostname, base.prefs)
    requires Refresh(q, d, base, base.system).Some?
    ensures var p := Refresh(q, d, base, base.system).value; Refresh(p, d, base, base.system) == Some(p)
  {
    TablesTwice(q.pinned, q.v4, q.v6, d, base.prefs, base.system);
  }

  /** d was admitted to base and next is the state before the schema. */
  ghost predicate Admits(base: State, d: Descriptor, next: State) {
    Inv(base) && Judge(base, d).Admitted? && next == AdmitNext(base, d) && Keyed(next.peers)
  }

  /** After an admission the same descriptor has nobody left to push out. */
  lemma NobodyLeftToEvict(base: State, d: Descriptor, next: State)
    requires Admits(base, d, next)
    ensures ConflictsForDescriptor(Values(next.peers), d) == []
  {
    var found := ConflictsForDescriptor(Values(next.peers), d);
    ValuesDistinct(next.peers);
    ConflictsExact(Values(next.peers), d);
    if found != [] {
      var q := found[0];
      assert q in found;
      ValuesMembers(next.peers, q);
      AdmitAt(base, d, q.Id());
      assert false;
    }
  }

  lemma JudgeAdmits(st: State, d: Descriptor, ip: IP)
    requires d.p.Some? && Contains(IPV6_ULA, d.p.value) && d.pk != st.system.ourPk
    requires d.vk in st.peers.at ==> st.peers.at[d.vk].descriptor.vf <= d.vf
    requires ip in d.All() && OnSubnet(ip, st.system) && NamedLocally(d.hostname, st.prefs)
    requires forall q | q in ConflictsForDescriptor(Values(st.peers), d) :: !q.pinned
    ensures Judge(st, d).Admitted?
  {
    LocalExactly(ip, st.system);
    LocalNameExactly(d.hostname, st.prefs);
  }

  lemma JudgeMeans(base: State, d: Descriptor) returns (ip: IP)
    requires Judge(base, d).Admitted?
    ensures d.p.Some? && Contains(IPV6_ULA, d.p.value) && d.pk != base.system.ourPk
    ensures ip in d.All() && OnSubnet(ip, base.system) && NamedLocally(d.hostname, base.prefs)
  {
    ip :| ip in d.All() && base.system.Local(ip);
    LocalExactly(ip, base.system);
    LocalNameExactly(d.hostname, base.prefs);
  }

  /**
   * What a descriptor must be to be taken in: its primary address is in fc00::/7, its key is
   * not ours, it is not older than what is known of its sender, an address of it is on a
   * subnet, its name is local, and no pinned enabled peer clashes with it.
   */
  ghost predicate Acceptable(base: State, d: Descriptor) {
    && d.p.Some? && Contains(Net(V6([0xfc, 0, 0, 0, 0, 0, 0, 0, 0, 0, 0, 0, 0, 0, 0, 0]), 7), d.p.value)
    && d.pk != base.system.ourPk
    && (d.vk in base.peers.at ==> base.peers.at[d.vk].descriptor.vf <= d.vf)
    && (exists ip | ip in d.Announced() :: OnSubnet(ip, base.system))
    && NamedLocally(d.hostname, base.prefs)
    && forall k | k in base.peers.at && base.peers.at[k].enabled && Clash(base.peers.at[k], d) ::
      !base.peers.at[k].pinned
  }

  lemma PinnedConflicts(base: State, d: Descriptor)
    requires Keyed(base.peers)
    ensures (forall q | q in ConflictsForDescriptor(Values(base.peers), d) :: !q.pinned) <==>
              forall k | k in base.peers.at && base.peers.at[k].enabled && Clash(base.peers.at[k], d) ::
                !base.peers.at[k].pinned
  {
    ValuesDistinct(base.peers);
    ConflictsExact(Values(base.peers), d);
    forall q | q in ConflictsForDescriptor(Values(base.peers), d)
      ensures q.Id() in base.peers.at && base.peers.at[q.Id()] == q {
      ValuesMembers(base.peers, q);
    }
    forall k | k in base.peers.at ensures base.peers.at[k] in Values(base.peers) {
      ValuesMembers(base.peers, base.peers.at[k]);
    }
  }

  lemma AnnouncedIsAll(d: Descriptor, ip: IP)
    ensures ip in d.All() <==> ip in d.Announced()
  {
  }

  lemma JudgeRest(base: State, d: Descriptor)
    requires Judge(base, d).Admitted?
    ensures d.vk in base.peers.at ==> base.peers.at[d.vk].descriptor.vf <= d.vf
    ensures forall q | q in ConflictsForDescriptor(Values(base.peers), d) :: !q.pinned
  {
  }

  /** A descriptor is taken in exactly if it is acceptable; it breaks the event exactly if it has no primary address. */
  lemma JudgeExactly(base: State, d: Descriptor)
    requires Keyed(base.peers)
    ensures Judge(base, d).Admitted? <==> Acceptable(base, d)
    ensures Judge(base, d).Broken? <==> d.p.None?
  {
    PinnedConflicts(base, d);
    if Judge(base, d).Admitted? {
      var ip := JudgeMeans(base, d);
      JudgeRest(base, d);
      AnnouncedIsAll(d, ip);
    }
    if Acceptable(base, d) {
      var ip :| ip in d.Announced() && OnSubnet(ip, base.system);
      AnnouncedIsAll(d, ip);
      JudgeAdmits(base, d, ip);
    }
  }

  lemma JudgeRules(base: State, d: Descriptor, next: State)
    requires Judge(base, d).Admitted?
    requires next.prefs == base.prefs && next.system == base.system
    requires d.vk in next.peers.at ==> next.peers.at[d.vk].descriptor == d
    requires ConflictsForDescriptor(Values(next.peers), d) == []
    ensures Judge(next, d).Admitted?
  {
    var ip := JudgeMeans(base, d);
    JudgeAdmits(next, d, ip);
  }

  lemma AdmittedRecord(base: State, d: Descriptor, next: State)
    requires Keyed(base.peers) && next == AdmitNext(base, d)
    ensures next.prefs == base.prefs && next.system == base.system
    ensures d.vk in next.peers.at <==> Arrival(base, d).Some?
    ensures d.vk in next.peers.at ==>
              next.peers.at[d.vk] == Arrival(base, d).value && next.peers.at[d.vk].descriptor == d
  {
    AdmitAt(base, d, d.vk);
    ArrivalDescriptor(base, d);
  }

  lemma JudgedAgain(base: State, d: Descriptor, next: State)
    requires Admits(base, d, next)
    ensures Judge(next, d).Admitted?
    ensures Survivors(next, d) == next.peers
  {
    NobodyLeftToEvict(base, d, next);
    AdmittedRecord(base, d, next);
    JudgeRules(base, d, next);
  }

  lemma AdmitFixed(next: State, d: Descriptor)
    requires Survivors(next, d) == next.peers
    requires d.vk in next.peers.at && next.peers.at[d.vk].descriptor == d
    requires Refresh(next.peers.at[d.vk], d, next, next.system) == Some(next.peers.at[d.vk])
    ensures AdmitNext(next, d) == next
  {
    PutSame(next.peers, d.vk);
  }

  lemma RefreshRules(q: Peer, d: Descriptor, base: State, next: State)
    requires next.prefs == base.prefs && next.system == base.system
    ensures Refresh(q, d, base, base.system) == Refresh(q, d, next, next.system)
  {
  }

  lemma SecondKept(base: State, d: Descriptor, next: State)
    requires Admits(base, d, next)
    requires Arrival(base, d).Some?
    ensures AdmitNext(next, d) == next
  {
    JudgedAgain(base, d, next);
    JudgeAdmissible(base, d);
    AdmittedRecord(base, d, next);
    RefreshTwice(Draft(base, d), d, base);
    RefreshRules(next.peers.at[d.vk], d, base, next);
    AdmitFixed(next, d);
  }

  /** An unpinned peer whose descriptor brings no allowed local address, while new peers are pinned. */
  predicate Revived(base: State, d: Descriptor) {
    && d.vk in base.peers.at
    && !base.peers.at[d.vk].pinned
    && !(exists ip | ip in d.Announced() :: Usable(ip, base.prefs, base.system))
    && base.prefs.pinNewPeers && !d.e
  }

  lemma RefreshNone(q: Peer, d: Descriptor, base: State)
    requires d.Announced() != {}
    ensures Refresh(q, d, base, base.system).None? <==>
            !q.pinned && !(exists ip | ip in d.Announced() :: Usable(ip, base.prefs, base.system))
  {
    var v4 := V4For(q.pinned, q.v4, d, base.prefs, base.system);
    var v6 := V6For(q.pinned, q.v6, d, base.prefs, base.system);
    QualifiesAlways(base.prefs, base.system);
    if q.pinned {
      var ip :| ip in d.Announced();
      assert ip in On(v4) || ip in On(v6);
    } else if ip :| ip in d.Announced() && Usable(ip, base.prefs, base.system) {
      assert ip in On(v4) || ip in On(v6);
    } else {
      assert On(v4) == {} && On(v6) == {};
    }
  }

  lemma {:induction false} WithoutAppended(s: seq<Key>, k: Key)
    requires k !in s
    ensures Without(s + [k], k) == s
  {
    if s == [] {
      assert s + [k] == [k];
    } else {
      assert (s + [k])[1..] == s[1..] + [k];
      WithoutAppended(s[1..], k);
    }
  }

  lemma PutDropAbsent(d: PeerDict, k: Key, v: Peer)
    requires k !in d.at
    ensures Drop(Put(d, k, v), k) == d
  {
    assert d.at[k := v] - {k} == d.at;
    WithoutAppended(d.order, k);
  }

  lemma RemovedAgain(next: State, d: Descriptor)
    requires Survivors(next, d) == next.peers && d.vk !in next.peers.at && Arrival(next, d).None?
    ensures AdmitNext(next, d) == next
  {
    PutDropAbsent(next.peers, d.vk, Draft(next, d));
  }

  lemma RevivedArrives(base: State, d: Descriptor, next: State)
    requires next.prefs == base.prefs && next.system == base.system && d.vk !in next.peers.at
    requires d.Announced() != {}
    requires Arrival(base, d).None?
    ensures Revived(base, d) <==> Arrival(next, d).Some?
  {
    RefreshNone(Draft(base, d), d, base);
    RefreshNone(Draft(next, d), d, next);
  }

  lemma SecondAfterRemoval(base: State, d: Descriptor, next: State)
    requires Admits(base, d, next)
    requires Arrival(base, d).None?
    ensures !Revived(base, d) ==> AdmitNext(next, d) == next
    ensures Revived(base, d) ==> AdmitNext(next, d) != next
  {
    JudgedAgain(base, d, next);
    JudgeAdmissible(base, d);
    AdmittedRecord(base, d, next);
    RevivedArrives(base, d, next);
    if Revived(base, d) {
      AdmittedRecord(next, d, AdmitNext(next, d));
    } else {
      RemovedAgain(next, d);
    }
  }

  lemma IncomingDispatch(base: State, d: Descriptor)
    ensures Next(base, Incoming(d)) == IncomingNext(base, d)
  {
  }

  lemma AdmitStep(base: State, d: Descriptor)
    requires Inv(base) && Judge(base, d).Admitted?
    ensures Step(base, Incoming(d)).state == if GetsThrough(base, d) then AdmitNext(base, d) else base
  {
    IncomingDispatch(base, d);
    AdmittedNext(base, d, Judge(base, d));
    AdmissionGateExact(base, d);
    StepIsNextBehindGate(base, Incoming(d));
  }

  lemma StoppedStep(base: State, d: Descriptor)
    requires Inv(base) && !Judge(base, d).Admitted?
    ensures Step(base, Incoming(d)).state == base
  {
    StepIsNextBehindGate(base, Incoming(d));
  }

  predicate AnnouncesAlike(a: Descriptor, d: Descriptor) {
    a.hostname == d.hostname || a.Announced() * d.Announced() != {}
  }

  /** A peer that stays announces the descriptor's host name or one of its addresses. */
  ghost predicate AnnouncedByStayer(base: State, d: Descriptor) {
    exists k :: Stays(base.peers, d, k) && base.peers.at[k].enabled && AnnouncesAlike(base.peers.at[k].descriptor, d)
  }

  /**
   * The one way a second delivery differs: the first removes the sender, the second takes
   * it in anew, pinned, with all it announces on, because nobody who stays announces any of
   * that and no second gateway results.
   */
  ghost predicate TakenInAgain(base: State, d: Descriptor) {
    && Judge(base, d).Admitted?
    && Revived(base, d)
    && !AnnouncedByStayer(base, d)
    && !(GatewayAnnounced(d, base.system, base.system.gateways) && OtherGateway(base, d))
  }

  lemma NewPinnedTables(next: State, d: Descriptor)
    ensures var p := MakePeer(d, true);
            && On(V4For(true, p.v4, d, next.prefs, next.system)) == (set ip | ip in d.V4s())
            && On(V6For(true, p.v6, d, next.prefs, next.system)) == (set ip | ip in d.V6s())
  {
  }

  /** A new pinned peer has exactly what it announces on. */
  lemma RevivedRecord(next: State, d: Descriptor)
    requires d.vk !in next.peers.at && d.Announced() != {} && next.prefs.pinNewPeers && !d.e
    requires InLocalDomain(d.hostname, next.prefs)
    ensures Arrival(next, d).Some?
    ensures var p := Arrival(next, d).value;
            && p.enabled && p.EnabledNames() == {d.hostname} && p.EnabledAddrs() == d.Announced()
            && (p.gateway <==> GatewayAnnounced(d, next.system, next.system.gateways))
  {
    assert Draft(next, d) == MakePeer(d, true);
    RefreshNone(MakePeer(d, true), d, next);
    NewPinnedTables(next, d);
  }

  lemma RevivedShadows(q: Peer, p: Peer, d: Descriptor)
    requires p.EnabledNames() == {d.hostname} && p.EnabledAddrs() == d.Announced()
    ensures Shadows(q, p, d) <==> AnnouncesAlike(q.descriptor, d)
  {
    assert q.descriptor.Announced() * d.Announced() * d.Announced() == q.descriptor.Announced() * d.Announced();
  }

  lemma StayersStay(base: State, d: Descriptor, next: State, k: Key)
    requires Keyed(base.peers) && next == AdmitNext(base, d) && d.vk !in next.peers.at
    ensures Stays(next.peers, d, k) <==> Stays(base.peers, d, k)
    ensures Stays(next.peers, d, k) ==> next.peers.at[k] == base.peers.at[k]
  {
    AdmitAt(base, d, k);
  }

  lemma StayerAgain(base: State, d: Descriptor, next: State, k: Key)
    requires Keyed(base.peers) && next == AdmitNext(base, d) && d.vk !in next.peers.at
    requires d.Announced() != {} && InLocalDomain(d.hostname, base.prefs) && Revived(base, d)
    ensures Stays(next.peers, d, k) <==> Stays(base.peers, d, k)
    ensures Stays(next.peers, d, k) ==> next.peers.at[k] == base.peers.at[k]
    ensures Stays(next.peers, d, k) ==>
              && Arrival(next, d).Some?
              && (Shadows(next.peers.at[k], Arrival(next, d).value, d)
                  <==> AnnouncesAlike(base.peers.at[k].descriptor, d))
  {
    RevivedRecord(next, d);
    StayersStay(base, d, next, k);
    if Stays(next.peers, d, k) {
      RevivedShadows(next.peers.at[k], Arrival(next, d).value, d);
    }
  }

  /** Whether the second delivery gets through can be read off the state before the first. */
  lemma SecondGetsThrough(base: State, d: Descriptor, next: State)
    requires Keyed(base.peers) && next == AdmitNext(base, d) && d.vk !in next.peers.at
    requires d.Announced() != {} && InLocalDomain(d.hostname, base.prefs) && Revived(base, d)
    ensures GetsThrough(next, d) <==>
            !AnnouncedByStayer(base, d)
            && !(GatewayAnnounced(d, base.system, base.system.gateways) && OtherGateway(base, d))
  {
    RevivedRecord(next, d);
    forall k
      ensures Stays(next.peers, d, k) <==> Stays(base.peers, d, k)
      ensures Stays(next.peers, d, k) ==> next.peers.at[k] == base.peers.at[k]
      ensures Stays(next.peers, d, k) ==>
                (Shadows(next.peers.at[k], Arrival(next, d).value, d)
                 <==> AnnouncesAlike(base.peers.at[k].descriptor, d)) {
      StayerAgain(base, d, next, k);
    }
  }

  lemma SecondArrives(base: State, d: Descriptor, next: State)
    requires Admits(base, d, next) && Arrival(base, d).None?
    ensures TakenInAgain(base, d) <==> Revived(base, d) && GetsThrough(next, d)
  {
    JudgeAdmissible(base, d);
    AdmittedRecord(base, d, next);
    if Revived(base, d) {
      SecondGetsThrough(base, d, next);
    }
  }

  lemma NotRevived(base: State, d: Descriptor)
    requires Judge(base, d).Admitted? && Arrival(base, d).Some?
    ensures !Revived(base, d)
  {
    JudgeAdmissible(base, d);
    RefreshNone(Draft(base, d), d, base);
  }

  lemma SecondStep(base: State, d: Descriptor, next: State)
    requires Admits(base, d, next) && Inv(next)
    ensures Step(next, Incoming(d)).state == next <==> !TakenInAgain(base, d)
  {
    JudgedAgain(base, d, next);
    AdmitStep(next, d);
    if Arrival(base, d).Some? {
      SecondKept(base, d, next);
      NotRevived(base, d);
    } else {
      SecondAfterRemoval(base, d, next);
      SecondArrives(base, d, next);
    }
  }

  lemma RevivedGetsThrough(base: State, d: Descriptor)
    requires Judge(base, d).Admitted? && Revived(base, d)
    ensures GetsThrough(base, d)
  {
    JudgeAdmissible(base, d);
    RefreshNone(Draft(base, d), d, base);
  }

  /** Delivering a descriptor twice is delivering it once, except when the sender is taken in again. */
  lemma SecondDelivery(base: State, d: Descriptor)
    requires Inv(base)
    ensures var once := Step(base, Incoming(d)).state;
            Step(once, Incoming(d)).state == once <==> !TakenInAgain(base, d)
  {
    if Judge(base, d).Admitted? {
      AdmitStep(base, d);
      StepKeepsInv(base, Incoming(d));
      if GetsThrough(base, d) {
        SecondStep(base, d, AdmitNext(base, d));
      } else if Revived(base, d) {
        RevivedGetsThrough(base, d);
      }
    } else {
      StoppedStep(base, d);
    }
  }
}
