/** Which peers carry the gateway flag after a new system state and after a release. */
module OrganizeGateway {
  import opened Addresses
  import opened OrderedDict
  import opened Queryable
  import opened Peers
  import opened OrganizeModel
  import opened OrganizeTerms
  import opened OrganizeEffects
  import opened OrganizeInvariant
  import opened OrganizeUniqueness
  import opened OrganizeLookups
  import opened OrganizeAdmission
  import opened OrganizeHistory
  import opened OrganizeLocality

  ghost predicate OneFlagged(ps: PeerDict) {
    forall a, b | a in ps.at && b in ps.at && ps.at[a].gateway && ps.at[b].gateway :: a == b
  }

  ghost predicate FlaggedEnabled(ps: PeerDict) {
    forall k | k in ps.at && ps.at[k].gateway :: ps.at[k].enabled
  }

  /** Behind the schema, flags on enabled peers only means one flag at most. */
  lemma EnabledFlagsAreOne(st: State)
    requires Inv(st) && FlaggedEnabled(st.peers)
    ensures OneFlagged(st.peers)
  {
  }

  lemma RefreshFlag(q: Peer, base: State, sys: SystemState)
    ensures var r := Refresh(q, q.descriptor, base, sys);
            r.Some? ==> (r.value.gateway <==> q.gateway || GatewayAnnounced(q.descriptor, sys, base.system.gateways))
  {
  }

  lemma HoldsCount(p: Peer, ip: IP)
    ensures Count(IpAttr(p), ip) > 0 <==> ip in p.EnabledIps()
  {
  }

  /** The first peer that holds the first gateway address anybody holds. */
  function Claimant(all: seq<Peer>, gateways: seq<IP>): Option<Key> {
    if gateways == [] then None
    else
      var hits := Scan(all, IpAttr, gateways[0]);
      if hits != [] then Some(hits[0].Id()) else Claimant(all, gateways[1..])
  }

  lemma {:induction false} ClaimantHolds(ps: PeerDict, gateways: seq<IP>)
    requires Keyed(ps)
    ensures var c := Claimant(Values(ps), gateways);
            c.Some? ==> c.value in ps.at && HoldsAny(ps.at[c.value], gateways)
  {
    if gateways != [] {
      var hits := Scan(Values(ps), IpAttr, gateways[0]);
      if hits != [] {
        ScanMembers(Values(ps), IpAttr, gateways[0], hits[0]);
        ValuesMembers(ps, hits[0]);
        HoldsCount(hits[0], gateways[0]);
      } else {
        ClaimantHolds(ps, gateways[1..]);
      }
    }
  }

  lemma {:induction false} ClaimantNone(ps: PeerDict, gateways: seq<IP>)
    requires Keyed(ps) && Claimant(Values(ps), gateways).None?
    ensures forall k | k in ps.at :: !HoldsAny(ps.at[k], gateways)
  {
    if gateways != [] {
      ClaimantNone(ps, gateways[1..]);
      forall k | k in ps.at ensures !HoldsAny(ps.at[k], gateways) {
        ScanMembers(Values(ps), IpAttr, gateways[0], ps.at[k]);
        ValuesMembers(ps, ps.at[k]);
        HoldsCount(ps.at[k], gateways[0]);
        assert !HoldsAny(ps.at[k], gateways[1..]);
      }
    }
  }

  lemma {:induction false} ClaimedFlag(ps: PeerDict, all: seq<Peer>, gateways: seq<IP>, k: Key)
    requires k in ps.at
    ensures k in ClaimNext(ps, all, gateways).at
    ensures ClaimNext(ps, all, gateways).at[k].gateway <==> ps.at[k].gateway || Claimant(all, gateways) == Some(k)
  {
    if gateways != [] {
      var hits := Scan(all, IpAttr, gateways[0]);
      if hits == [] {
        ClaimedFlag(ps, all, gateways[1..], k);
      }
    }
  }

  /** The peer that is the current gateway when the system state changes: the first flagged one. */
  function Current(ps: PeerDict): Option<Key> {
    match FirstGateway(Values(ps))
    case None => None
    case Some(p) => Some(p.Id())
  }

  lemma CurrentIs(ps: PeerDict)
    requires Keyed(ps)
    ensures Current(ps).Some? ==>
              Current(ps).value in ps.at && FirstGateway(Values(ps)) == Some(ps.at[Current(ps).value])
    ensures Current(ps).Some? ==> ps.at[Current(ps).value].gateway
    ensures Current(ps).None? ==> forall k | k in ps.at :: !ps.at[k].gateway
  {
    FirstGatewayMember(Values(ps));
    if Current(ps).Some? {
      ValuesMembers(ps, FirstGateway(Values(ps)).value);
    } else {
      forall k | k in ps.at ensures !ps.at[k].gateway {
        ValuesMembers(ps, ps.at[k]);
      }
    }
  }

  lemma {:induction false} FirstFlagged(ps: seq<Peer>) returns (i: nat)
    requires FirstGateway(ps).Some?
    ensures i < |ps| && ps[i] == FirstGateway(ps).value && ps[i].gateway
    ensures forall j | 0 <= j < i :: !ps[j].gateway
  {
    if ps[0].gateway {
      i := 0;
    } else {
      i := FirstFlagged(ps[1..]);
      i := i + 1;
    }
  }

  /** The current gateway is the flagged peer that was put on record first. */
  lemma CurrentIsFirst(ps: PeerDict) returns (i: nat)
    requires Keyed(ps) && Current(ps).Some?
    ensures i < |ps.order| && ps.order[i] == Current(ps).value
    ensures forall j | 0 <= j < i :: ps.order[j] in ps.at && !ps.at[ps.order[j]].gateway
  {
    i := FirstFlagged(Values(ps));
    forall j | 0 <= j <= i ensures ps.order[j] in ps.at && Values(ps)[j] == ps.at[ps.order[j]] {
      assert ps.order[j] in ps.order;
    }
  }

  lemma {:induction false} GrownKeepsFirst(xs: seq<Peer>, x: Peer, n: nat)
    requires xs != []
    ensures Grown(xs, x, n) != [] && Grown(xs, x, n)[0] == xs[0]
  {
    if n > 0 {
      GrownKeepsFirst(xs, x, n - 1);
    }
  }

  lemma {:induction false} GrownFirst(x: Peer, n: nat)
    requires n > 0
    ensures Grown([], x, n) != [] && Grown([], x, n)[0] == x
  {
    if n > 1 {
      GrownFirst(x, n - 1);
    }
  }

  lemma NoneScanned(all: seq<Peer>, ip: IP)
    requires Scan(all, IpAttr, ip) == []
    ensures forall j | 0 <= j < |all| :: ip !in all[j].EnabledIps()
  {
    forall j | 0 <= j < |all| ensures ip !in all[j].EnabledIps() {
      ScanMembers(all, IpAttr, ip, all[j]);
      HoldsCount(all[j], ip);
    }
  }

  lemma ScannedBefore(all: seq<Peer>, ip: IP)
    requires all != [] && Scan(all[..|all| - 1], IpAttr, ip) != []
    ensures Scan(all, IpAttr, ip) != [] && Scan(all, IpAttr, ip)[0] == Scan(all[..|all| - 1], IpAttr, ip)[0]
  {
    GrownKeepsFirst(Scan(all[..|all| - 1], IpAttr, ip), all[|all| - 1], Count(IpAttr(all[|all| - 1]), ip));
  }

  lemma ScannedLast(all: seq<Peer>, ip: IP)
    requires all != [] && Scan(all[..|all| - 1], IpAttr, ip) == [] && Scan(all, IpAttr, ip) != []
    ensures Scan(all, IpAttr, ip)[0] == all[|all| - 1] && ip in all[|all| - 1].EnabledIps()
  {
    HoldsCount(all[|all| - 1], ip);
    GrownFirst(all[|all| - 1], Count(IpAttr(all[|all| - 1]), ip));
  }

  lemma {:induction false} FirstScanned(all: seq<Peer>, ip: IP) returns (i: nat)
    requires Scan(all, IpAttr, ip) != []
    ensures i < |all| && all[i] == Scan(all, IpAttr, ip)[0] && ip in all[i].EnabledIps()
    ensures forall j | 0 <= j < i :: ip !in all[j].EnabledIps()
  {
    var init := all[..|all| - 1];
    assert forall j | 0 <= j < |init| :: init[j] == all[j];
    if Scan(init, IpAttr, ip) != [] {
      i := FirstScanned(init, ip);
      ScannedBefore(all, ip);
    } else {
      i := |init|;
      ScannedLast(all, ip);
      NoneScanned(init, ip);
    }
  }

  /** Nobody at all holds the address. */
  ghost predicate Unheld(ps: PeerDict, ip: IP) {
    forall k | k in ps.at :: ip !in ps.at[k].EnabledIps()
  }

  lemma NobodyScanned(ps: PeerDict, ip: IP)
    requires Keyed(ps) && Scan(Values(ps), IpAttr, ip) == []
    ensures Unheld(ps, ip)
  {
    forall k | k in ps.at ensures ip !in ps.at[k].EnabledIps() {
      ScanMembers(Values(ps), IpAttr, ip, ps.at[k]);
      ValuesMembers(ps, ps.at[k]);
      HoldsCount(ps.at[k], ip);
    }
  }

  /** The i-th peer on record holds the address, none before it does. */
  ghost predicate FirstHolder(ps: PeerDict, ip: IP, i: nat) {
    && i < |ps.order| && ps.order[i] in ps.at && ip in ps.at[ps.order[i]].EnabledIps()
    && forall j | 0 <= j < i :: ps.order[j] in ps.at && ip !in ps.at[ps.order[j]].EnabledIps()
  }

  lemma FirstOnRecord(ps: PeerDict, ip: IP) returns (i: nat)
    requires Keyed(ps) && Scan(Values(ps), IpAttr, ip) != []
    ensures FirstHolder(ps, ip, i) && ps.order[i] == Scan(Values(ps), IpAttr, ip)[0].Id()
  {
    var all := Values(ps);
    forall j | 0 <= j < |all| ensures ps.order[j] in ps.at && all[j] == ps.at[ps.order[j]] {
      assert ps.order[j] in ps.order;
    }
    i := FirstScanned(all, ip);
  }

  /** Nobody holds any of the first g gateways. */
  ghost predicate NobodyHas(ps: PeerDict, gateways: seq<IP>, g: nat)
    requires g <= |gateways|
  {
    forall h | 0 <= h < g :: Unheld(ps, gateways[h])
  }

  lemma NobodyHasOneMore(ps: PeerDict, gateways: seq<IP>, g: nat)
    requires g < |gateways| && Unheld(ps, gateways[0]) && NobodyHas(ps, gateways[1..], g)
    ensures NobodyHas(ps, gateways, g + 1)
  {
    forall h | 0 < h < g + 1 ensures Unheld(ps, gateways[h]) {
      assert gateways[1..][h - 1] == gateways[h];
    }
  }

  lemma NobodyBeforeFirst(ps: PeerDict, gateways: seq<IP>)
    ensures NobodyHas(ps, gateways, 0)
  {
  }

  /**
   * The claimant is the first peer on record that holds the first gateway address anybody
   * holds, switched on or as its primary address, enabled or not.
   */
  ghost predicate ClaimsAt(ps: PeerDict, gateways: seq<IP>, g: nat, i: nat) {
    && g < |gateways| && FirstHolder(ps, gateways[g], i) && NobodyHas(ps, gateways, g)
    && Claimant(Values(ps), gateways) == Some(ps.order[i])
  }

  lemma ClaimedNow(ps: PeerDict, gateways: seq<IP>) returns (i: nat)
    requires Keyed(ps) && gateways != [] && Scan(Values(ps), IpAttr, gateways[0]) != []
    ensures ClaimsAt(ps, gateways, 0, i)
  {
    i := FirstOnRecord(ps, gateways[0]);
    NobodyBeforeFirst(ps, gateways);
  }

  lemma ClaimedLater(ps: PeerDict, gateways: seq<IP>, g: nat, i: nat)
    requires Keyed(ps) && gateways != [] && Scan(Values(ps), IpAttr, gateways[0]) == []
    requires ClaimsAt(ps, gateways[1..], g, i)
    ensures ClaimsAt(ps, gateways, g + 1, i)
  {
    assert gateways[1..][g] == gateways[g + 1];
    NobodyScanned(ps, gateways[0]);
    NobodyHasOneMore(ps, gateways, g);
  }

  lemma {:induction false} ClaimantIsFirst(ps: PeerDict, gateways: seq<IP>) returns (g: nat, i: nat)
    requires Keyed(ps) && Claimant(Values(ps), gateways).Some?
    ensures ClaimsAt(ps, gateways, g, i)
  {
    if Scan(Values(ps), IpAttr, gateways[0]) != [] {
      g := 0;
      i := ClaimedNow(ps, gateways);
    } else {
      g, i := ClaimantIsFirst(ps, gateways[1..]);
      ClaimedLater(ps, gateways, g, i);
      g := g + 1;
    }
  }

  /** The flag k has before the records are refreshed. */
  ghost predicate FlagMoved(base: State, sys: SystemState, k: Key)
    requires k in base.peers.at
  {
    var cur := Current(base.peers);
    var p := base.peers.at[k];
    || (p.gateway && (cur != Some(k) || p.pinned || HoldsAny(p, sys.gateways)))
    || (Claimant(Values(base.peers), sys.gateways) == Some(k)
        && (cur.Some? && cur.value in base.peers.at ==> !base.peers.at[cur.value].pinned))
  }

  lemma ClearedFlag(base: State, sys: SystemState, k: Key)
    requires Keyed(base.peers) && k in base.peers.at
    ensures k in Cleared(base, sys).at
    ensures var p := base.peers.at[k];
            Cleared(base, sys).at[k].gateway <==>
              p.gateway && (Current(base.peers) != Some(k) || p.pinned || HoldsAny(p, sys.gateways))
  {
    CurrentIs(base.peers);
  }

  lemma ReflaggedFlag(base: State, sys: SystemState, k: Key)
    requires Keyed(base.peers) && k in base.peers.at
    ensures k in Reflagged(base, sys).at
    ensures Reflagged(base, sys).at[k].gateway <==> FlagMoved(base, sys, k)
  {
    ClearedFlag(base, sys, k);
    CurrentIs(base.peers);
    ClaimedFlag(Cleared(base, sys), Values(base.peers), sys.gateways, k);
  }

  /**
   * After a new system state, exactly these peers carry the flag: those that had it
   * and did not lose it, the one that claimed it, and those that announce a local
   * address among the gateways that were committed before the event.
   */
  lemma FlagAfterSystemState(base: State, sys: SystemState, k: Key)
    requires Inv(base) && k in AdjustNext(base, sys).peers.at
    ensures k in base.peers.at
    ensures AdjustNext(base, sys).peers.at[k].gateway <==>
            FlagMoved(base, sys, k) || GatewayAnnounced(base.peers.at[k].descriptor, sys, base.system.gateways)
  {
    var flagged := Reflagged(base, sys);
    ReflagFlags(base, sys);
    SweepAt(flagged, base.peers.order, base, sys);
    assert SweptAt(AdjustNext(base, sys).peers, flagged, k, base, sys);
    ReflaggedFlag(base, sys, k);
    RefreshFlag(flagged.at[k], base, sys);
    assert SameButFlag(base.peers.at[k], flagged.at[k]);
  }

  lemma SweptKeepsPin(base: State, sys: SystemState, k: Key)
    requires PeersOk(base.peers) && k in AdjustNext(base, sys).peers.at
    ensures k in base.peers.at && AdjustNext(base, sys).peers.at[k].pinned == base.peers.at[k].pinned
  {
    var flagged := Reflagged(base, sys);
    ReflagFlags(base, sys);
    SweepAt(flagged, base.peers.order, base, sys);
    assert SweptAt(AdjustNext(base, sys).peers, flagged, k, base, sys);
    assert SameButFlag(base.peers.at[k], flagged.at[k]);
    RefreshKeepsPin(flagged.at[k], base, sys);
  }

  /** Where at most one peer was flagged, whoever is flagged and not pinned holds a gateway, new or old. */
  lemma FlaggedHoldsGateway(base: State, sys: SystemState, k: Key)
    requires Inv(base) && FlaggedEnabled(base.peers)
    requires var next := AdjustNext(base, sys).peers; k in next.at && next.at[k].gateway && !next.at[k].pinned
    ensures k in base.peers.at
    ensures HoldsAny(base.peers.at[k], sys.gateways)
            || GatewayAnnounced(base.peers.at[k].descriptor, sys, base.system.gateways)
  {
    FlagAfterSystemState(base, sys, k);
    EnabledFlagsAreOne(base);
    CurrentIs(base.peers);
    ClaimantHolds(base.peers, sys.gateways);
    SweptKeepsPin(base, sys, k);
  }

  /** A gateway address that somebody holds finds a gateway, unless a pinned peer already is one. */
  lemma HeldGatewayIsClaimed(base: State, sys: SystemState)
    requires Keyed(base.peers)
    requires exists k | k in base.peers.at :: HoldsAny(base.peers.at[k], sys.gateways)
    ensures var cur := Current(base.peers);
            || (cur.Some? && cur.value in base.peers.at && base.peers.at[cur.value].pinned)
            || exists k | k in base.peers.at :: FlagMoved(base, sys, k) && HoldsAny(base.peers.at[k], sys.gateways)
  {
    var c := Claimant(Values(base.peers), sys.gateways);
    if c.None? {
      ClaimantNone(base.peers, sys.gateways);
    } else {
      ClaimantHolds(base.peers, sys.gateways);
      CurrentIs(base.peers);
      assert FlagMoved(base, sys, c.value) || base.peers.at[Current(base.peers).value].pinned;
    }
  }

  /** What a committed system-state event leaves. */
  lemma SystemStateFlags(base: State, sys: SystemState, k: Key)
    requires Inv(base) && FlaggedEnabled(base.peers)
    requires Step(base, NewSystemState(sys)).result.error.None?
    ensures var next := Step(base, NewSystemState(sys)).state.peers;
            k in next.at && next.at[k].gateway && !next.at[k].pinned ==>
              && k in base.peers.at
              && (|| HoldsAny(base.peers.at[k], sys.gateways)
                  || GatewayAnnounced(base.peers.at[k].descriptor, sys, base.system.gateways))
  {
    StepKeepsInv(base, NewSystemState(sys));
    AdjustDispatch(base, sys);
    var next := AdjustNext(base, sys).peers;
    if k in next.at && next.at[k].gateway && !next.at[k].pinned {
      FlaggedHoldsGateway(base, sys, k);
    }
  }

  // ----- releasing the gateway -----

  lemma ReleaseDispatch(base: State)
    ensures Next(base, ReleaseGateway) == ReleaseNext(base)
  {
  }

  lemma ReleaseIsEdit(base: State, k: Key)
    requires Keyed(base.peers) && Current(base.peers) == Some(k)
    ensures ReleaseNext(base) == EditNext(base, base, k, Gateway(false))
  {
  }

  lemma UnflaggedHas(p: Peer)
    ensures SetField(p, Gateway(false)).descriptor == p.descriptor && !SetField(p, Gateway(false)).gateway
  {
  }

  lemma UnflaggedRefresh(p: Peer, base: State)
    ensures var q := SetField(p, Gateway(false));
            var r := Refresh(q, q.descriptor, base, base.system);
            r.Some? ==> (r.value.gateway <==> GatewayAnnounced(p.descriptor, base.system, base.system.gateways))
  {
    UnflaggedHas(p);
    RefreshFlag(SetField(p, Gateway(false)), base, base.system);
  }

  lemma EditedFlag(base: State, k: Key)
    requires EditNext(base, base, k, Gateway(false)).Some?
    ensures var next := EditNext(base, base, k, Gateway(false)).value.peers;
            k in next.at ==>
              (next.at[k].gateway <==> GatewayAnnounced(base.peers.at[k].descriptor, base.system, base.system.gateways))
  {
    UnflaggedRefresh(base.peers.at[k], base);
    EditedRecord(base, base, k, Gateway(false));
  }

  lemma ReleasedState(base: State, k: Key)
    requires Inv(base) && Current(base.peers) == Some(k)
    requires Step(base, ReleaseGateway).result.error.None?
    ensures EditNext(base, base, k, Gateway(false)) == Some(Step(base, ReleaseGateway).state)
  {
    StepKeepsInv(base, ReleaseGateway);
    ReleaseDispatch(base);
    ReleaseIsEdit(base, k);
  }

  /**
   * After a committed release the released peer is gone, or it is flagged exactly if
   * it announces a local address among the committed gateways.
   */
  lemma ReleasedFlag(base: State, k: Key)
    requires Inv(base) && Current(base.peers) == Some(k)
    requires Step(base, ReleaseGateway).result.error.None?
    ensures var next := Step(base, ReleaseGateway).state.peers;
            && k in base.peers.at
            && (k in next.at ==>
                (next.at[k].gateway
                 <==> GatewayAnnounced(base.peers.at[k].descriptor, base.system, base.system.gateways)))
  {
    CurrentIs(base.peers);
    ReleasedState(base, k);
    EditedFlag(base, k);
  }

  lemma ReleasedLeavesOthers(base: State, k: Key, j: Key, after: State)
    requires EditNext(base, base, k, Gateway(false)) == Some(after) && j != k
    ensures j in after.peers.at <==> j in base.peers.at
    ensures j in after.peers.at ==> after.peers.at[j] == base.peers.at[j]
  {
    EditLeavesOthers(base, base, k, Gateway(false), j);
  }

  /** Everybody else is as before. */
  lemma ReleaseLeavesOthers(base: State, k: Key, j: Key)
    requires Inv(base) && Current(base.peers) == Some(k) && j != k
    requires Step(base, ReleaseGateway).result.error.None?
    ensures var next := Step(base, ReleaseGateway).state.peers;
            && (j in next.at <==> j in base.peers.at)
            && (j in next.at ==> next.at[j] == base.peers.at[j])
  {
    ReleasedState(base, k);
    ReleasedLeavesOthers(base, k, j, Step(base, ReleaseGateway).state);
  }
}
