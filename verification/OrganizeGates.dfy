/**
 * When the schema refuses what an edit, a verification, a release or a new system
 * state leaves, told from the state before the event.
 */
module OrganizeGates {
  import opened Addresses
  import opened OrderedDict
  import opened Queryable
  import opened Peers
  import opened OrganizeModel
  import opened OrganizeTerms
  import opened OrganizeEffects
  import opened OrganizeInvariant
  import opened OrganizeUniqueness
  import opened OrganizeLookups
  import opened OrganizeAdmission
  import opened OrganizeLocality
  import opened OrganizeGateway

  // ----- what a refresh leaves -----

  /** A record stays if it is pinned or announces an allowed local address. */
  predicate Remains(q: Peer, prefs: Prefs, sys: SystemState) {
    q.pinned || exists ip | ip in q.descriptor.Announced() :: Usable(ip, prefs, sys)
  }

  /** The addresses a refresh leaves on record. */
  function Known(q: Peer): set<IP> {
    q.descriptor.Announced() + (if q.pinned then q.Recorded() else {})
  }

  /** The addresses it leaves on. */
  function AddrsOn(q: Peer, prefs: Prefs, sys: SystemState): set<IP> {
    if q.pinned then Known(q) else set ip | ip in q.descriptor.Announced() && Usable(ip, prefs, sys)
  }

  predicate FlagOn(q: Peer, base: State, sys: SystemState) {
    q.gateway || GatewayAnnounced(q.descriptor, sys, base.system.gateways)
  }

  predicate RefreshedTo(q: Peer, r: Peer, base: State, sys: SystemState) {
    && r == q.(v4 := r.v4, v6 := r.v6, gateway := r.gateway) && r.Recorded() == Known(q)
    && r.EnabledAddrs() == AddrsOn(q, base.prefs, sys) && (r.gateway <==> FlagOn(q, base, sys))
  }

  lemma RefreshRemains(q: Peer, base: State, sys: SystemState)
    requires q.descriptor.Announced() != {}
    ensures Refresh(q, q.descriptor, base, sys).Some? <==> Remains(q, base.prefs, sys)
  {
    var v4 := V4For(q.pinned, q.v4, q.descriptor, base.prefs, sys);
    var v6 := V6For(q.pinned, q.v6, q.descriptor, base.prefs, sys);
    QualifiesAlways(base.prefs, sys);
    if q.pinned {
      var ip :| ip in q.descriptor.Announced();
      assert ip in On(v4) || ip in On(v6);
    } else if ip :| ip in q.descriptor.Announced() && Usable(ip, base.prefs, sys) {
      assert ip in On(v4) || ip in On(v6);
    } else {
      assert On(v4) == {} && On(v6) == {};
    }
  }

  lemma RefreshAddrs(q: Peer, base: State, sys: SystemState)
    ensures var r := Refresh(q, q.descriptor, base, sys);
            r.Some? ==> r.value.EnabledAddrs() == AddrsOn(q, base.prefs, sys)
  {
    QualifiesAlways(base.prefs, sys);
  }

  lemma RefreshRecorded(q: Peer, base: State, sys: SystemState)
    ensures var r := Refresh(q, q.descriptor, base, sys);
            r.Some? ==> r.value.Recorded() == Known(q)
  {
  }

  lemma RefreshRest(q: Peer, base: State, sys: SystemState)
    requires q.descriptor.hostname in q.nicknames
    ensures var r := Refresh(q, q.descriptor, base, sys);
            r.Some? ==> r.value == q.(v4 := r.value.v4, v6 := r.value.v6, gateway := r.value.gateway)
  {
  }

  predicate Refreshable(q: Peer) {
    q.descriptor.Announced() != {} && q.descriptor.hostname in q.nicknames
  }

  lemma RefreshExact(q: Peer, base: State, sys: SystemState)
    requires Refreshable(q)
    ensures var r := Refresh(q, q.descriptor, base, sys);
            && (r.Some? <==> Remains(q, base.prefs, sys))
            && (r.Some? ==> RefreshedTo(q, r.value, base, sys))
  {
    RefreshRemains(q, base, sys);
    RefreshAddrs(q, base, sys);
    RefreshRecorded(q, base, sys);
    RefreshRest(q, base, sys);
    RefreshFlag(q, base, sys);
  }

  // ----- one record changes -----

  /** vk's record became q, everything else is as it was. */
  ghost predicate Becomes(ps: PeerDict, qs: PeerDict, vk: Key, q: Peer) {
    && vk in ps.at && vk in qs.at && qs.at[vk] == q
    && forall k | k != vk :: (k in qs.at <==> k in ps.at) && (k in qs.at ==> qs.at[k] == ps.at[k])
  }

  /** With these addresses and this flag p would hold what the other announces, or the other way round. */
  predicate Collide(p: Peer, addrs: set<IP>, flag: bool, other: Peer) {
    && other.enabled
    && (|| other.descriptor.hostname in p.EnabledNames() || p.descriptor.hostname in other.EnabledNames()
        || other.descriptor.pk == p.descriptor.pk
        || other.descriptor.Announced() * addrs != {} || p.descriptor.Announced() * other.EnabledAddrs() != {}
        || (flag && other.gateway))
  }

  ghost predicate CollidesWithAnother(ps: PeerDict, vk: Key, p: Peer, addrs: set<IP>, flag: bool) {
    exists k | k in ps.at && k != vk :: Collide(p, addrs, flag, ps.at[k])
  }

  lemma CollideIsClash(p: Peer, other: Peer)
    requires p.Id() != other.Id() && other.enabled
    ensures Collide(p, p.EnabledAddrs(), p.gateway, other) <==>
              Clash(p, other.descriptor) || Clash(other, p.descriptor) || (p.gateway && other.gateway)
  {
  }

  lemma BecomesClean(ps: PeerDict, qs: PeerDict, vk: Key, q: Peer)
    requires Keyed(qs) && Becomes(ps, qs, vk, q) && q.enabled
    requires NoClash(qs) && OneGateway(qs)
    ensures !CollidesWithAnother(ps, vk, q, q.EnabledAddrs(), q.gateway)
  {
    forall k | k in ps.at && k != vk ensures !Collide(q, q.EnabledAddrs(), q.gateway, ps.at[k]) {
      if ps.at[k].enabled {
        assert k in qs.at && qs.at[k] == ps.at[k];
        CollideIsClash(q, ps.at[k]);
      }
    }
  }

  lemma CleanPair(ps: PeerDict, qs: PeerDict, vk: Key, q: Peer, k: Key)
    requires Keyed(qs) && Becomes(ps, qs, vk, q) && k in qs.at && k != vk && qs.at[k].enabled
    requires !CollidesWithAnother(ps, vk, q, q.EnabledAddrs(), q.gateway)
    ensures !Clash(q, qs.at[k].descriptor) && !Clash(qs.at[k], q.descriptor) && !(q.gateway && qs.at[k].gateway)
  {
    assert !Collide(q, q.EnabledAddrs(), q.gateway, ps.at[k]);
    CollideIsClash(q, qs.at[k]);
  }

  lemma BecomesNoClash(ps: PeerDict, qs: PeerDict, vk: Key, q: Peer)
    requires Keyed(qs) && Becomes(ps, qs, vk, q) && NoClash(ps)
    requires q.enabled ==> !CollidesWithAnother(ps, vk, q, q.EnabledAddrs(), q.gateway)
    ensures NoClash(qs)
  {
    forall a, b | a in qs.at && b in qs.at && a != b && qs.at[a].enabled && qs.at[b].enabled
      ensures !Clash(qs.at[a], qs.at[b].descriptor) {
      if a == vk {
        CleanPair(ps, qs, vk, q, b);
      } else if b == vk {
        CleanPair(ps, qs, vk, q, a);
      } else {
        assert !Clash(ps.at[a], ps.at[b].descriptor);
      }
    }
  }

  lemma BecomesOneGateway(ps: PeerDict, qs: PeerDict, vk: Key, q: Peer)
    requires Keyed(qs) && Becomes(ps, qs, vk, q) && OneGateway(ps)
    requires q.enabled ==> !CollidesWithAnother(ps, vk, q, q.EnabledAddrs(), q.gateway)
    ensures OneGateway(qs)
  {
    forall a, b | a in qs.at && b in qs.at && qs.at[a].enabled && qs.at[b].enabled
                  && qs.at[a].gateway && qs.at[b].gateway
      ensures a == b {
      if a == vk && b != vk {
        CleanPair(ps, qs, vk, q, b);
      } else if b == vk && a != vk {
        CleanPair(ps, qs, vk, q, a);
      }
    }
  }

  /** If one record changes, the schema accepts exactly if it is disabled or collides with no other. */
  lemma BecomesGate(ps: PeerDict, next: State, vk: Key, q: Peer)
    requires Keyed(next.peers) && Becomes(ps, next.peers, vk, q) && NoClash(ps) && OneGateway(ps)
    ensures SchemaOk(next) <==> !(q.enabled && CollidesWithAnother(ps, vk, q, q.EnabledAddrs(), q.gateway))
  {
    SchemaIsPairwise(next);
    if SchemaOk(next) {
      if q.enabled {
        BecomesClean(ps, next.peers, vk, q);
      }
    } else if !(q.enabled && CollidesWithAnother(ps, vk, q, q.EnabledAddrs(), q.gateway)) {
      BecomesNoClash(ps, next.peers, vk, q);
      BecomesOneGateway(ps, next.peers, vk, q);
    }
  }

  /** If one record goes, the schema accepts. */
  lemma GoneGate(ps: PeerDict, next: State, vk: Key)
    requires Keyed(next.peers) && NoClash(ps) && OneGateway(ps)
    requires forall k | k in next.peers.at :: k in ps.at && next.peers.at[k] == ps.at[k]
    ensures SchemaOk(next)
  {
    SchemaIsPairwise(next);
  }

  lemma CollideAlike(q: Peer, r: Peer, base: State, sys: SystemState, other: Peer)
    requires RefreshedTo(q, r, base, sys)
    ensures Collide(r, r.EnabledAddrs(), r.gateway, other)
       <==> Collide(q, AddrsOn(q, base.prefs, sys), FlagOn(q, base, sys), other)
  {
  }

  lemma RefreshedGate(ps: PeerDict, next: State, vk: Key, q: Peer, r: Peer, base: State, sys: SystemState)
    requires Keyed(next.peers) && Becomes(ps, next.peers, vk, r) && NoClash(ps) && OneGateway(ps)
    requires RefreshedTo(q, r, base, sys)
    ensures SchemaOk(next)
       <==> !(q.enabled && CollidesWithAnother(ps, vk, q, AddrsOn(q, base.prefs, sys), FlagOn(q, base, sys)))
  {
    BecomesGate(ps, next, vk, r);
    forall k | k in ps.at && k != vk
      ensures Collide(r, r.EnabledAddrs(), r.gateway, ps.at[k])
         <==> Collide(q, AddrsOn(q, base.prefs, sys), FlagOn(q, base, sys), ps.at[k]) {
      CollideAlike(q, r, base, sys, ps.at[k]);
    }
  }

  // ----- editing a peer -----

  /** The edited record stays, is enabled, and collides with another. */
  ghost predicate EditCollides(base: State, vk: Key, f: UserField)
    requires vk in base.peers.at
  {
    var q := SetField(base.peers.at[vk], f);
    && Remains(q, base.prefs, base.system) && q.enabled
    && CollidesWithAnother(base.peers, vk, q, AddrsOn(q, base.prefs, base.system), FlagOn(q, base, base.system))
  }

  lemma EditedRefreshable(p: Peer, f: UserField)
    requires PeerOk(p)
    ensures Refreshable(SetField(p, f)) && SetField(p, f).descriptor == p.descriptor
  {
    UserFieldKeepsId(p, f);
    UserFieldKeepsNames(p, f);
  }

  lemma EditBecomes(n: State, base: State, vk: Key, f: UserField, next: State)
    requires EditNext(n, base, vk, f) == Some(next)
    ensures vk in n.peers.at
    ensures var q := SetField(n.peers.at[vk], f);
            var r := Refresh(q, q.descriptor, base, base.system);
            if r.Some? then Becomes(n.peers, next.peers, vk, r.value)
            else forall k | k in next.peers.at :: k in n.peers.at && next.peers.at[k] == n.peers.at[k]
  {
    EditedRecord(n, base, vk, f);
    forall k | k != vk
      ensures (k in next.peers.at <==> k in n.peers.at) && (k in next.peers.at ==> next.peers.at[k] == n.peers.at[k]) {
      EditLeavesOthers(n, base, vk, f, k);
    }
  }

  /** The schema refuses an edit exactly if the edited record collides. */
  lemma EditGateExact(base: State, vk: Key, f: UserField, next: State)
    requires Inv(base) && EditNext(base, base, vk, f) == Some(next)
    ensures vk in base.peers.at && (SchemaOk(next) <==> !EditCollides(base, vk, f))
  {
    EditBecomes(base, base, vk, f, next);
    EditOk(base, base, vk, f);
    var q := SetField(base.peers.at[vk], f);
    EditedRefreshable(base.peers.at[vk], f);
    RefreshExact(q, base, base.system);
    var r := Refresh(q, q.descriptor, base, base.system);
    if r.Some? {
      RefreshedGate(base.peers, next, vk, q, r.value, base, base.system);
    } else {
      GoneGate(base.peers, next, vk);
    }
  }

  // ----- what an edit leaves -----

  /** Whether the peer is pinned once the field is edited. */
  predicate PinnedWith(p: Peer, f: UserField) {
    if f.Pinned? then f.on else p.pinned
  }

  /** The edited field has the value given, up to the refresh; every other field is as before, up to the refresh. */
  predicate EditedTo(p: Peer, f: UserField, q: Peer, base: State) {
    && q.descriptor == p.descriptor
    && q.petname == (if f.Petname? then f.name else p.petname)
    && q.nicknames == (if f.Nickname? then p.nicknames[f.name := f.on] else p.nicknames)
    && q.enabled == (if f.Enabled? then f.on else p.enabled)
    && q.verified == (if f.Verified? then f.on else p.verified)
    && q.pinned == PinnedWith(p, f)
    && q.gateway == (|| (if f.Gateway? then f.on else p.gateway)
                     || GatewayAnnounced(p.descriptor, base.system, base.system.gateways))
    && q.Recorded() == p.descriptor.Announced()
                       + (if q.pinned then p.Recorded() + (if f.Addr? then {f.ip} else {}) else {})
    && q.EnabledAddrs() == (if q.pinned then q.Recorded()
                            else set ip | ip in p.descriptor.Announced() && Usable(ip, base.prefs, base.system))
  }

  lemma FieldLeavesRest(p: Peer, f: UserField)
    ensures !f.Petname? ==> SetField(p, f).petname == p.petname
    ensures !f.Nickname? ==> SetField(p, f).nicknames == p.nicknames
    ensures !f.Verified? ==> SetField(p, f).verified == p.verified
    ensures !f.Gateway? ==> SetField(p, f).gateway == p.gateway
  {
  }

  lemma FieldTakes(p: Peer, f: UserField)
    ensures f.Petname? ==> SetField(p, f).petname == f.name
    ensures f.Nickname? ==> SetField(p, f).nicknames == p.nicknames[f.name := f.on]
    ensures f.Enabled? ==> SetField(p, f).enabled == f.on
    ensures f.Verified? ==> SetField(p, f).verified == f.on
    ensures f.Pinned? ==> SetField(p, f).pinned == f.on
    ensures f.Gateway? ==> SetField(p, f).gateway == f.on
  {
  }

  lemma FieldWritten(p: Peer, f: UserField)
    ensures var q := SetField(p, f);
            && q.descriptor == p.descriptor
            && q.petname == (if f.Petname? then f.name else p.petname)
            && q.nicknames == (if f.Nickname? then p.nicknames[f.name := f.on] else p.nicknames)
            && q.enabled == (if f.Enabled? then f.on else p.enabled)
            && q.verified == (if f.Verified? then f.on else p.verified)
            && q.pinned == PinnedWith(p, f)
            && q.gateway == (if f.Gateway? then f.on else p.gateway)
  {
    UserFieldKeepsId(p, f);
    FieldSwitches(p, f);
    FieldLeavesRest(p, f);
    FieldTakes(p, f);
  }

  lemma RefreshedEdit(p: Peer, f: UserField, r: Peer, base: State)
    requires RefreshedTo(SetField(p, f), r, base, base.system)
    ensures EditedTo(p, f, r, base)
  {
    FieldWritten(p, f);
    FieldRecorded(p, f);
  }

  lemma EditExactly(base: State, vk: Key, f: UserField, next: State)
    requires Inv(base) && EditNext(base, base, vk, f) == Some(next)
    ensures vk in base.peers.at
    ensures var p := base.peers.at[vk];
            && (vk in next.peers.at <==>
                  PinnedWith(p, f) || exists ip | ip in p.descriptor.Announced() :: Usable(ip, base.prefs, base.system))
            && (vk in next.peers.at ==> EditedTo(p, f, next.peers.at[vk], base))
  {
    var p := base.peers.at[vk];
    EditedRecord(base, base, vk, f);
    EditedRefreshable(p, f);
    FieldWritten(p, f);
    RefreshExact(SetField(p, f), base, base.system);
    if vk in next.peers.at {
      RefreshedEdit(p, f, next.peers.at[vk], base);
    }
  }

  // ----- records that change addresses and flag only -----

  /** An enabled peer that announces one of these addresses, or a second gateway. */
  predicate Meets(addrs: set<IP>, flag: bool, other: Peer) {
    other.enabled && (other.descriptor.Announced() * addrs != {} || (flag && other.gateway))
  }

  ghost predicate MeetsAnother(ps: PeerDict, vk: Key, addrs: set<IP>, flag: bool) {
    exists k | k in ps.at && k != vk :: Meets(addrs, flag, ps.at[k])
  }

  lemma CollideIsMeet(p: Peer, q: Peer, addrs: set<IP>, flag: bool, other: Peer)
    requires q.descriptor == p.descriptor && q.EnabledNames() == p.EnabledNames() && p.Id() != other.Id()
    requires other.enabled ==> !Clash(p, other.descriptor) && !Clash(other, p.descriptor)
    ensures Collide(q, addrs, flag, other) <==> Meets(addrs, flag, other)
  {
    if other.enabled {
      NoSharedClaim(p, other.descriptor);
      NoSharedClaim(other, p.descriptor);
      assert p.descriptor.Announced() * other.EnabledAddrs() == {};
    }
  }

  lemma CollidesIsMeets(ps: PeerDict, vk: Key, q: Peer, addrs: set<IP>, flag: bool)
    requires Keyed(ps) && NoClash(ps) && vk in ps.at && ps.at[vk].enabled
    requires q.descriptor == ps.at[vk].descriptor && q.EnabledNames() == ps.at[vk].EnabledNames()
    ensures CollidesWithAnother(ps, vk, q, addrs, flag) <==> MeetsAnother(ps, vk, addrs, flag)
  {
    forall k | k in ps.at && k != vk
      ensures Collide(q, addrs, flag, ps.at[k]) <==> Meets(addrs, flag, ps.at[k]) {
      CollideIsMeet(ps.at[vk], q, addrs, flag, ps.at[k]);
    }
  }

  /** If one record changes its addresses and flag, the schema refuses exactly if it is enabled and meets another. */
  lemma MeetsGate(ps: PeerDict, next: State, vk: Key, q: Peer)
    requires Keyed(ps) && NoClash(ps) && OneGateway(ps)
    requires Keyed(next.peers) && Becomes(ps, next.peers, vk, q)
    requires q.descriptor == ps.at[vk].descriptor && q.EnabledNames() == ps.at[vk].EnabledNames()
    requires q.enabled == ps.at[vk].enabled
    ensures SchemaOk(next) <==> !(q.enabled && MeetsAnother(ps, vk, q.EnabledAddrs(), q.gateway))
  {
    BecomesGate(ps, next, vk, q);
    if q.enabled {
      CollidesIsMeets(ps, vk, q, q.EnabledAddrs(), q.gateway);
    }
  }

  // ----- releasing the gateway -----

  /** The flagged peer stays, is enabled, and the refresh switches on what another enabled peer announces. */
  ghost predicate ReleaseCollides(base: State, k: Key)
    requires k in base.peers.at
  {
    var p := base.peers.at[k];
    && p.enabled && Remains(p, base.prefs, base.system)
    && MeetsAnother(base.peers, k, AddrsOn(p, base.prefs, base.system), false)
  }

  lemma UnflaggedAlike(p: Peer, prefs: Prefs, sys: SystemState)
    ensures var q := SetField(p, Gateway(false));
            && q.descriptor == p.descriptor && q.enabled == p.enabled && q.EnabledNames() == p.EnabledNames()
            && Remains(q, prefs, sys) == Remains(p, prefs, sys) && AddrsOn(q, prefs, sys) == AddrsOn(p, prefs, sys)
  {
  }

  lemma NoSecondFlag(ps: PeerDict, k: Key, addrs: set<IP>, flag: bool)
    requires OneGateway(ps) && k in ps.at && ps.at[k].enabled && ps.at[k].gateway
    ensures MeetsAnother(ps, k, addrs, flag) <==> MeetsAnother(ps, k, addrs, false)
  {
    forall j | j in ps.at && j != k ensures Meets(addrs, flag, ps.at[j]) <==> Meets(addrs, false, ps.at[j]) {
    }
  }

  lemma ReleaseGateExact(base: State, k: Key, next: State)
    requires Inv(base) && k in base.peers.at && base.peers.at[k].gateway
    requires EditNext(base, base, k, Gateway(false)) == Some(next)
    ensures SchemaOk(next) <==> !ReleaseCollides(base, k)
  {
    var p := base.peers.at[k];
    var q := SetField(p, Gateway(false));
    var addrs, flag := AddrsOn(q, base.prefs, base.system), FlagOn(q, base, base.system);
    EditGateExact(base, k, Gateway(false), next);
    UnflaggedAlike(p, base.prefs, base.system);
    if p.enabled {
      CollidesIsMeets(base.peers, k, q, addrs, flag);
      NoSecondFlag(base.peers, k, addrs, flag);
    }
  }

  // ----- verifying and pinning -----

  /**
   * The peer has no allowed local address, or pinning it switches on what another enabled
   * peer announces, or a second gateway.
   */
  ghost predicate VerifyCollides(base: State, p: Peer) {
    || !Remains(p, base.prefs, base.system)
    || MeetsAnother(base.peers, p.Id(), Known(p), FlagOn(p, base, base.system))
  }

  lemma BecomesTwice(ps: PeerDict, ms: PeerDict, qs: PeerDict, vk: Key, m: Peer, q: Peer)
    requires Becomes(ps, ms, vk, m) && Becomes(ms, qs, vk, q)
    ensures Becomes(ps, qs, vk, q)
  {
  }

  lemma VerifiedAlike(p: Peer, base: State)
    ensures var q := SetField(p, Verified(true));
            && q.descriptor == p.descriptor && q.enabled == p.enabled && q.EnabledNames() == p.EnabledNames()
            && Remains(q, base.prefs, base.system) == Remains(p, base.prefs, base.system)
            && Known(q) == Known(p) && FlagOn(q, base, base.system) == FlagOn(p, base, base.system)
  {
  }

  lemma PinnedAlike(m: Peer, base: State)
    ensures var q := SetField(m, Pinned(true));
            && q.descriptor == m.descriptor && q.enabled == m.enabled && q.EnabledNames() == m.EnabledNames()
            && AddrsOn(q, base.prefs, base.system) == m.descriptor.Announced() + m.Recorded()
            && FlagOn(q, base, base.system) == FlagOn(m, base, base.system)
            && Remains(q, base.prefs, base.system)
  {
  }

  /** Verified and pinned, with everything known on; flagged if it was or announces a gateway; otherwise as before. */
  predicate PinnedOver(p: Peer, r: Peer, base: State) {
    && r == p.(verified := true, pinned := true, v4 := r.v4, v6 := r.v6, gateway := r.gateway)
    && r.Recorded() == Known(p) && r.EnabledAddrs() == Known(p) && (r.gateway <==> FlagOn(p, base, base.system))
  }

  lemma VerifiedFirst(p: Peer, m: Peer, base: State)
    requires RefreshedTo(SetField(p, Verified(true)), m, base, base.system)
    ensures m == p.(verified := true, v4 := m.v4, v6 := m.v6, gateway := m.gateway)
    ensures m.Recorded() == Known(p) && (m.gateway <==> FlagOn(p, base, base.system))
  {
    VerifiedAlike(p, base);
  }

  lemma PinnedSecond(m: Peer, r: Peer, base: State)
    requires RefreshedTo(SetField(m, Pinned(true)), r, base, base.system)
    ensures r == m.(pinned := true, v4 := r.v4, v6 := r.v6, gateway := r.gateway)
    ensures r.Recorded() == m.descriptor.Announced() + m.Recorded() && r.EnabledAddrs() == r.Recorded()
    ensures r.gateway <==> FlagOn(m, base, base.system)
  {
    PinnedAlike(m, base);
  }

  lemma KnownTwice(p: Peer, m: Peer)
    requires m.Recorded() == Known(p) && m.descriptor == p.descriptor
    ensures m.descriptor.Announced() + m.Recorded() == Known(p)
  {
  }

  lemma RefreshedTwice(p: Peer, m: Peer, r: Peer, base: State)
    requires RefreshedTo(SetField(p, Verified(true)), m, base, base.system)
    requires RefreshedTo(SetField(m, Pinned(true)), r, base, base.system)
    ensures PinnedOver(p, r, base)
  {
    VerifiedFirst(p, m, base);
    PinnedSecond(m, r, base);
    KnownTwice(p, m);
  }

  lemma FirstHalf(base: State, vk: Key, mid: State)
    requires Inv(base) && EditNext(base, base, vk, Verified(true)) == Some(mid)
    ensures vk in base.peers.at && PeersOk(mid.peers)
    ensures vk in mid.peers.at <==> Remains(base.peers.at[vk], base.prefs, base.system)
    ensures vk in mid.peers.at ==>
              && Becomes(base.peers, mid.peers, vk, mid.peers.at[vk])
              && RefreshedTo(SetField(base.peers.at[vk], Verified(true)), mid.peers.at[vk], base, base.system)
  {
    EditBecomes(base, base, vk, Verified(true), mid);
    EditedRecord(base, base, vk, Verified(true));
    EditOk(base, base, vk, Verified(true));
    EditedRefreshable(base.peers.at[vk], Verified(true));
    RefreshExact(SetField(base.peers.at[vk], Verified(true)), base, base.system);
    VerifiedAlike(base.peers.at[vk], base);
  }

  lemma SecondHalf(base: State, vk: Key, mid: State, next: State)
    requires PeersOk(mid.peers) && EditNext(mid, base, vk, Pinned(true)) == Some(next)
    ensures vk in mid.peers.at && vk in next.peers.at && PeersOk(next.peers)
    ensures Becomes(mid.peers, next.peers, vk, next.peers.at[vk])
    ensures RefreshedTo(SetField(mid.peers.at[vk], Pinned(true)), next.peers.at[vk], base, base.system)
  {
    EditBecomes(mid, base, vk, Pinned(true), next);
    EditedRecord(mid, base, vk, Pinned(true));
    EditOk(mid, base, vk, Pinned(true));
    EditedRefreshable(mid.peers.at[vk], Pinned(true));
    RefreshExact(SetField(mid.peers.at[vk], Pinned(true)), base, base.system);
    PinnedAlike(mid.peers.at[vk], base);
  }

  lemma PinnedOverGate(base: State, next: State, vk: Key, r: Peer)
    requires Inv(base) && Keyed(next.peers) && Becomes(base.peers, next.peers, vk, r)
    requires PinnedOver(base.peers.at[vk], r, base) && r.enabled
    ensures var p := base.peers.at[vk];
            SchemaOk(next) <==> !MeetsAnother(base.peers, vk, Known(p), FlagOn(p, base, base.system))
  {
    MeetsGate(base.peers, next, vk, r);
  }

  lemma BothHalves(base: State, vk: Key, mid: State, next: State)
    requires Inv(base) && EditNext(base, base, vk, Verified(true)) == Some(mid)
    requires EditNext(mid, base, vk, Pinned(true)) == Some(next)
    ensures vk in base.peers.at && vk in next.peers.at && PeersOk(next.peers)
    ensures Remains(base.peers.at[vk], base.prefs, base.system)
    ensures Becomes(base.peers, next.peers, vk, next.peers.at[vk])
    ensures PinnedOver(base.peers.at[vk], next.peers.at[vk], base)
  {
    FirstHalf(base, vk, mid);
    SecondHalf(base, vk, mid, next);
    BecomesTwice(base.peers, mid.peers, next.peers, vk, mid.peers.at[vk], next.peers.at[vk]);
    RefreshedTwice(base.peers.at[vk], mid.peers.at[vk], next.peers.at[vk], base);
  }

  lemma PinGateExact(base: State, vk: Key)
    requires Inv(base) && vk in base.peers.at && base.peers.at[vk].enabled
    ensures var r := PinNext(base, vk);
            r.Some? && SchemaOk(r.value) <==> !VerifyCollides(base, base.peers.at[vk])
  {
    var mid := EditNext(base, base, vk, Verified(true)).value;
    FirstHalf(base, vk, mid);
    var r := PinNext(base, vk);
    if r.Some? {
      BothHalves(base, vk, mid, r.value);
      PinnedOverGate(base, r.value, vk, r.value.peers.at[vk]);
    }
  }

  /** Verifying is refused unless vk alone has the name and is enabled, and it does not collide. */
  ghost predicate VerifyRefused(base: State, vk: Key, hostname: string) {
    !NicknameOf(base.peers, hostname, vk) || VerifyCollides(base, base.peers.at[vk])
  }

  lemma VerifyGateExact(base: State, vk: Key, hostname: string)
    requires Inv(base)
    ensures var r := VerifyNext(base, vk, hostname);
            r.Some? && SchemaOk(r.value) <==> !VerifyRefused(base, vk, hostname)
  {
    HostnameExactly(base.peers, hostname, vk);
    if NicknameOf(base.peers, hostname, vk) {
      PinGateExact(base, vk);
    }
  }

  // ----- a new system state -----

  ghost predicate FlagAfter(base: State, sys: SystemState, k: Key)
    requires k in base.peers.at
  {
    FlagMoved(base, sys, k) || GatewayAnnounced(base.peers.at[k].descriptor, sys, base.system.gateways)
  }

  /** k is enabled and stays under the new system state. */
  ghost predicate StaysOn(base: State, sys: SystemState, k: Key) {
    k in base.peers.at && base.peers.at[k].enabled && Remains(base.peers.at[k], base.prefs, sys)
  }

  /** The new system state switches on for a what b announces, or leaves both flagged. */
  ghost predicate PairCollides(base: State, sys: SystemState, a: Key, b: Key)
    requires a in base.peers.at && b in base.peers.at
  {
    || base.peers.at[b].descriptor.Announced() * AddrsOn(base.peers.at[a], base.prefs, sys) != {}
    || (FlagAfter(base, sys, a) && FlagAfter(base, sys, b))
  }

  /** Two enabled peers that stay collide. */
  ghost predicate SystemRefused(base: State, sys: SystemState) {
    exists a, b | StaysOn(base, sys, a) && StaysOn(base, sys, b) && a != b :: PairCollides(base, sys, a, b)
  }

  /** The record k ends with under the new system state. */
  ghost predicate AdjustedTo(base: State, sys: SystemState, k: Key, r: Peer)
    requires k in base.peers.at
  {
    var p := base.peers.at[k];
    && r == p.(v4 := r.v4, v6 := r.v6, gateway := r.gateway) && r.Recorded() == Known(p)
    && r.EnabledAddrs() == AddrsOn(p, base.prefs, sys) && (r.gateway <==> FlagAfter(base, sys, k))
  }

  lemma ReflaggedAlike(p: Peer, q: Peer, prefs: Prefs, sys: SystemState)
    requires SameButFlag(p, q)
    ensures Remains(q, prefs, sys) == Remains(p, prefs, sys) && AddrsOn(q, prefs, sys) == AddrsOn(p, prefs, sys)
    ensures q.EnabledNames() == p.EnabledNames() && Known(q) == Known(p)
  {
  }

  lemma SweptRecord(base: State, sys: SystemState, flagged: PeerDict, k: Key)
    requires PeersOk(base.peers) && flagged == Reflagged(base, sys) && k in base.peers.at
    ensures k in flagged.at && SameButFlag(base.peers.at[k], flagged.at[k])
    ensures SweptAt(AdjustNext(base, sys).peers, flagged, k, base, sys)
  {
    ReflagFlags(base, sys);
    SweepAt(flagged, base.peers.order, base, sys);
  }

  lemma NobodyNew(base: State, sys: SystemState, k: Key)
    requires PeersOk(base.peers) && k in AdjustNext(base, sys).peers.at
    ensures k in base.peers.at
  {
    ReflagFlags(base, sys);
    SweepAddsNothing(Reflagged(base, sys), base.peers.order, base, sys);
  }

  lemma SweptExact(base: State, sys: SystemState, p: Peer, q: Peer)
    requires PeerOk(p) && SameButFlag(p, q)
    ensures var r := Refresh(q, q.descriptor, base, sys);
            && (r.Some? <==> Remains(p, base.prefs, sys))
            && (r.Some? ==> RefreshedTo(q, r.value, base, sys))
  {
    RefreshExact(q, base, sys);
    ReflaggedAlike(p, q, base.prefs, sys);
  }

  lemma AdjustedRecord(base: State, sys: SystemState, k: Key)
    requires Inv(base)
    ensures var next := AdjustNext(base, sys).peers;
            && (k in next.at <==> k in base.peers.at && Remains(base.peers.at[k], base.prefs, sys))
            && (k in next.at ==> AdjustedTo(base, sys, k, next.at[k]))
  {
    var next := AdjustNext(base, sys).peers;
    var flagged := Reflagged(base, sys);
    if k in next.at {
      NobodyNew(base, sys, k);
      FlagAfterSystemState(base, sys, k);
    }
    if k in base.peers.at {
      SweptRecord(base, sys, flagged, k);
      SweptExact(base, sys, base.peers.at[k], flagged.at[k]);
      ReflaggedAlike(base.peers.at[k], flagged.at[k], base.prefs, sys);
    }
  }

  /** Every record is the adjusted one of a peer that stays, and there are no others. */
  ghost predicate AllAdjusted(base: State, sys: SystemState, next: PeerDict) {
    forall k ::
      && (k in next.at <==> k in base.peers.at && Remains(base.peers.at[k], base.prefs, sys))
      && (k in next.at ==> AdjustedTo(base, sys, k, next.at[k]))
  }

  lemma AdjustedPair(base: State, sys: SystemState, next: PeerDict, a: Key, b: Key)
    requires Inv(base) && AllAdjusted(base, sys, next)
    requires a in next.at && b in next.at && a != b && next.at[a].enabled && next.at[b].enabled
    ensures a in base.peers.at && b in base.peers.at
    ensures PairCollides(base, sys, a, b)
       <==> Clash(next.at[a], next.at[b].descriptor) || (next.at[a].gateway && next.at[b].gateway)
  {
    var p, o := base.peers.at[a], base.peers.at[b];
    assert AdjustedTo(base, sys, a, next.at[a]) && AdjustedTo(base, sys, b, next.at[b]);
    assert p.Id() == a && o.Id() == b && !Clash(p, o.descriptor);
    NoSharedClaim(p, o.descriptor);
  }

  lemma AdjustedClean(base: State, sys: SystemState, next: PeerDict)
    requires Inv(base) && AllAdjusted(base, sys, next)
    requires NoClash(next) && OneGateway(next)
    ensures !SystemRefused(base, sys)
  {
    forall a, b | StaysOn(base, sys, a) && StaysOn(base, sys, b) && a != b ensures !PairCollides(base, sys, a, b) {
      AdjustedPair(base, sys, next, a, b);
    }
  }

  lemma CleanAdjusted(base: State, sys: SystemState, next: PeerDict)
    requires Inv(base) && AllAdjusted(base, sys, next)
    requires !SystemRefused(base, sys)
    ensures NoClash(next) && OneGateway(next)
  {
    forall a, b | a in next.at && b in next.at && a != b && next.at[a].enabled && next.at[b].enabled
      ensures !Clash(next.at[a], next.at[b].descriptor) && !(next.at[a].gateway && next.at[b].gateway) {
      AdjustedPair(base, sys, next, a, b);
      assert StaysOn(base, sys, a) && StaysOn(base, sys, b);
    }
  }

  lemma SystemStateAdjusts(base: State, sys: SystemState)
    requires Inv(base)
    ensures AllAdjusted(base, sys, AdjustNext(base, sys).peers)
  {
    var next := AdjustNext(base, sys).peers;
    forall k
      ensures k in next.at <==> k in base.peers.at && Remains(base.peers.at[k], base.prefs, sys)
      ensures k in next.at ==> AdjustedTo(base, sys, k, next.at[k]) {
      AdjustedRecord(base, sys, k);
    }
  }

  /** The schema refuses a new system state exactly if two enabled peers that stay collide. */
  lemma SystemStateGateExact(base: State, sys: SystemState)
    requires Inv(base)
    ensures SchemaOk(AdjustNext(base, sys)) <==> !SystemRefused(base, sys)
  {
    var next := AdjustNext(base, sys);
    AdjustOk(base, sys);
    SchemaIsPairwise(next);
    SystemStateAdjusts(base, sys);
    if SchemaOk(next) {
      AdjustedClean(base, sys, next.peers);
    } else if !SystemRefused(base, sys) {
      CleanAdjusted(base, sys, next.peers);
    }
  }

  // ----- an incoming descriptor -----

  /** Whether the sender is pinned: as before, or for a new one as the preference says, unless it is ephemeral. */
  predicate PinnedOnArrival(base: State, d: Descriptor) {
    if d.vk in base.peers.at then base.peers.at[d.vk].pinned else !d.e && base.prefs.pinNewPeers
  }

  predicate RemainsOnArrival(base: State, d: Descriptor) {
    PinnedOnArrival(base, d) || exists ip | ip in d.Announced() :: Usable(ip, base.prefs, base.system)
  }

  /** What the user set of a known sender is kept, its old names too; a new one starts enabled and unverified. */
  predicate ArrivedBy(base: State, d: Descriptor, q: Peer) {
    && q.descriptor == d && q.pinned == PinnedOnArrival(base, d)
    && if d.vk in base.peers.at then
         var p := base.peers.at[d.vk];
         && q.petname == p.petname && q.enabled == p.enabled && q.verified == p.verified
         && q.nicknames == (if d.hostname in p.nicknames then p.nicknames else p.nicknames[d.hostname := true])
         && q.Recorded() == d.Announced() + (if p.pinned then p.Recorded() else {})
         && (q.gateway <==> p.gateway || GatewayAnnounced(d, base.system, base.system.gateways))
       else
         && q.petname == "" && q.enabled && !q.verified && q.nicknames == map[d.hostname := true]
         && q.Recorded() == d.Announced()
         && (q.gateway <==> GatewayAnnounced(d, base.system, base.system.gateways))
  }

  /** Everything on record is on for a pinned sender, what is announced and usable for another. */
  predicate ArrivedAs(base: State, d: Descriptor, q: Peer) {
    && ArrivedBy(base, d, q)
    && q.EnabledAddrs() == (if q.pinned then q.Recorded()
                            else set ip | ip in d.Announced() && Usable(ip, base.prefs, base.system))
  }

  lemma ArrivalNames(q: Peer, d: Descriptor, base: State)
    requires q.descriptor == d && InLocalDomain(d.hostname, base.prefs)
    ensures var r := Refresh(q, d, base, base.system);
            r.Some? ==>
              && r.value.nicknames
              == (if d.hostname in q.nicknames then q.nicknames else q.nicknames[d.hostname := true])
              && r.value
              == q.(v4 := r.value.v4, v6 := r.value.v6, gateway := r.value.gateway, nicknames := r.value.nicknames)
  {
  }

  lemma DraftIs(base: State, d: Descriptor)
    ensures var q := Draft(base, d);
            && q.descriptor == d && q.pinned == PinnedOnArrival(base, d)
            && if d.vk in base.peers.at then q == base.peers.at[d.vk].(descriptor := d)
               else
                 && q.petname == "" && q.enabled && !q.verified && !q.gateway && q.nicknames == map[d.hostname := true]
                 && q.Recorded() == d.Announced() && q.EnabledAddrs() == d.Announced()
  {
  }

  lemma ArrivalExactly(base: State, d: Descriptor)
    requires d.Announced() != {} && InLocalDomain(d.hostname, base.prefs)
    ensures Arrival(base, d).Some? <==> RemainsOnArrival(base, d)
    ensures Arrival(base, d).Some? ==> ArrivedAs(base, d, Arrival(base, d).value)
  {
    var q := Draft(base, d);
    DraftIs(base, d);
    RefreshRemains(q, base, base.system);
    RefreshAddrs(q, base, base.system);
    RefreshRecorded(q, base, base.system);
    RefreshFlag(q, base, base.system);
    ArrivalNames(q, d, base);
  }
}
