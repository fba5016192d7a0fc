/**
 * What each event does to the peers, without the transaction: a reference that
 * says in one go which record every peer ends with. The transactional rules
 * compute exactly this, and their write log replays to it.
 */
module OrganizeEffects {
  import opened Addresses
  import opened OrderedDict
  import opened Queryable
  import opened Peers
  import opened OrganizeModel

  type PeerDict = Dict<Key, Peer>

  // ----- one peer -----

  /** The record `_update_peer` leaves, or None when it removes the peer. */
  function Refresh(q: Peer, d: Descriptor, base: State, sys: SystemState): Option<Peer> {
    var v4 := V4For(q.pinned, q.v4, d, base.prefs, sys);
    var v6 := V6For(q.pinned, q.v6, d, base.prefs, sys);
    if On(v4) == {} && On(v6) == {} then None
    else Some(q.(
      v4 := v4,
      v6 := v6,
      nicknames := if NameIsNew(q, d, base.prefs) then q.nicknames[d.hostname := true] else q.nicknames,
      gateway := q.gateway || AnnouncesGateway(d, sys, base.system.gateways)))
  }

  function Settle(ps: PeerDict, vk: Key, r: Option<Peer>): PeerDict {
    match r
    case None => Drop(ps, vk)
    case Some(p) => Put(ps, vk, p)
  }

  lemma PutPut(d: PeerDict, k: Key, v: Peer, w: Peer)
    ensures Put(Put(d, k, v), k, w) == Put(d, k, w)
  {
    assert d.at[k := v][k := w] == d.at[k := w];
  }

  lemma PutSame(d: PeerDict, k: Key)
    requires k in d.at
    ensures Put(d, k, d.at[k]) == d
  {
    assert d.at[k := d.at[k]] == d.at;
  }

  lemma DropPut(d: PeerDict, k: Key, v: Peer)
    requires k in d.at
    ensures Drop(Put(d, k, v), k) == Drop(d, k)
  {
    assert d.at[k := v] - {k} == d.at - {k};
  }

  /** The object handed to `_update_peer` agrees with the record it is about to write to. */
  predicate Agrees(peer: Peer, q: Peer) {
    peer.Id() == q.Id() && peer.v4 == q.v4 && peer.v6 == q.v6 && peer.nicknames == q.nicknames
    && peer.pinned == q.pinned
  }

  /** A transaction that is still alive and whose copy holds exactly these peers. */
  predicate Holds(t: Txn, n: State, ps: PeerDict) {
    !t.Failed() && t.next == n.(peers := ps)
  }

  /** Alive, with the peers of `ps` except that vk's record is q. */
  predicate HoldsAt(t: Txn, n: State, ps: PeerDict, vk: Key, q: Peer) {
    !t.Failed() && t.next == n.(peers := Put(ps, vk, q))
  }

  lemma StageEffect(t: Txn, n: State, ps: PeerDict, vk: Key, q: Peer, needed: bool, f: Field)
    requires HoldsAt(t, n, ps, vk, q)
    requires !needed ==> SetField(q, f) == q
    ensures HoldsAt(DoIf(t, needed, Set(vk, f)), n, ps, vk, SetField(q, f))
  {
    PutPut(ps, vk, q, SetField(q, f));
  }

  lemma RemoveEffect(t: Txn, n: State, ps: PeerDict, peer: Peer, q: Peer)
    requires HoldsAt(t, n, ps, peer.Id(), q) && peer.Id() in ps.at
    ensures Holds(RemovePeerAction(t, peer), n, Drop(ps, peer.Id()))
  {
    DropPut(ps, peer.Id(), q);
  }

  lemma TablesEffect(t: Txn, n: State, ps: PeerDict, peer: Peer, v4: map<IPv4, bool>, v6: map<IPv6, bool>)
    requires Holds(t, n, ps)
    requires peer.Id() in ps.at && Agrees(peer, ps.at[peer.Id()])
    ensures HoldsAt(WriteTables(t, peer, v4, v6), n, ps, peer.Id(), ps.at[peer.Id()].(v4 := v4, v6 := v6))
  {
    var vk := peer.Id();
    var q := ps.at[vk];
    PutSame(ps, vk);
    StageEffect(t, n, ps, vk, q, v4 != peer.v4, V4Table(v4));
    var t1 := DoIf(t, v4 != peer.v4, Set(vk, V4Table(v4)));
    assert HoldsAt(t1, n, ps, vk, q.(v4 := v4));
    StageEffect(t1, n, ps, vk, q.(v4 := v4), v6 != peer.v6, V6Table(v6));
  }

  lemma NameAndFlagEffect(t: Txn, n: State, ps: PeerDict, vk: Key, q: Peer, name: string, isNew: bool, flag: bool)
    requires HoldsAt(t, n, ps, vk, q)
    ensures HoldsAt(WriteNameAndFlag(t, vk, name, isNew, flag), n, ps, vk,
              q.(nicknames := if isNew then q.nicknames[name := true] else q.nicknames, gateway := q.gateway || flag))
  {
    var t1 := DoIf(t, isNew, Set(vk, Nickname(name, true)));
    if isNew {
      StageEffect(t, n, ps, vk, q, true, Nickname(name, true));
    }
    if flag {
      StageEffect(t1, n, ps, vk, if isNew then SetField(q, Nickname(name, true)) else q, true, Gateway(true));
    }
  }

  lemma KeptEffect(t: Txn, n: State, ps: PeerDict, base: State, peer: Peer, d: Descriptor, sys: SystemState)
    requires Holds(t, n, ps)
    requires peer.Id() in ps.at && Agrees(peer, ps.at[peer.Id()])
    requires Refresh(ps.at[peer.Id()], d, base, sys).Some?
    ensures Holds(UpdatePeer(t, base, peer, d, sys), n,
                  Put(ps, peer.Id(), Refresh(ps.at[peer.Id()], d, base, sys).value))
  {
    var v4 := V4For(peer.pinned, peer.v4, d, base.prefs, sys);
    var v6 := V6For(peer.pinned, peer.v6, d, base.prefs, sys);
    TablesEffect(t, n, ps, peer, v4, v6);
    NameAndFlagEffect(WriteTables(t, peer, v4, v6), n, ps, peer.Id(), ps.at[peer.Id()].(v4 := v4, v6 := v6), d.hostname,
                      NameIsNew(peer, d, base.prefs), AnnouncesGateway(d, sys, base.system.gateways));
  }

  lemma GoneEffect(t: Txn, n: State, ps: PeerDict, base: State, peer: Peer, d: Descriptor, sys: SystemState)
    requires Holds(t, n, ps)
    requires peer.Id() in ps.at && Agrees(peer, ps.at[peer.Id()])
    requires Refresh(ps.at[peer.Id()], d, base, sys).None?
    ensures Holds(UpdatePeer(t, base, peer, d, sys), n, Drop(ps, peer.Id()))
  {
    var v4 := V4For(peer.pinned, peer.v4, d, base.prefs, sys);
    var v6 := V6For(peer.pinned, peer.v6, d, base.prefs, sys);
    TablesEffect(t, n, ps, peer, v4, v6);
    RemoveEffect(WriteTables(t, peer, v4, v6), n, ps, peer, ps.at[peer.Id()].(v4 := v4, v6 := v6));
  }

  lemma UpdatePeerEffect(t: Txn, n: State, ps: PeerDict, base: State, peer: Peer, d: Descriptor, sys: SystemState)
    requires Holds(t, n, ps)
    requires peer.Id() in ps.at && Agrees(peer, ps.at[peer.Id()])
    ensures Holds(UpdatePeer(t, base, peer, d, sys), n,
                  Settle(ps, peer.Id(), Refresh(ps.at[peer.Id()], d, base, sys)))
  {
    if Refresh(ps.at[peer.Id()], d, base, sys).Some? {
      KeptEffect(t, n, ps, base, peer, d, sys);
    } else {
      GoneEffect(t, n, ps, base, peer, d, sys);
    }
  }

  // ----- edits -----

  function EditNext(n: State, base: State, vk: Key, f: Field): Option<State> {
    if vk !in n.peers.at then None
    else
      var q := SetField(n.peers.at[vk], f);
      Some(n.(peers := Settle(Put(n.peers, vk, q), vk, Refresh(q, q.descriptor, base, base.system))))
  }

  ghost predicate Keyed(ps: PeerDict) {
    forall k | k in ps.at :: ps.at[k].Id() == k
  }

  /** The transaction ends like the reference: same copy, or failed where the reference is undefined. */
  predicate Matches(t: Txn, r: Option<State>) {
    match r
    case None => t.Failed()
    case Some(n) => !t.Failed() && t.next == n
  }

  lemma UserFieldKeepsId(p: Peer, f: UserField)
    ensures SetField(p, f).descriptor == p.descriptor
  {
  }

  lemma EditWriteEffect(t: Txn, vk: Key, f: UserField)
    requires !t.Failed() && vk in t.next.peers.at
    ensures Holds(t.Act(ActEdit(Set(vk, f))).Do(Set(vk, f)), t.next,
                  Put(t.next.peers, vk, SetField(t.next.peers.at[vk], f)))
  {
  }

  lemma EditedEffect(t: Txn, n: State, ps: PeerDict, base: State, vk: Key, q: Peer)
    requires Holds(t, n, Put(ps, vk, q)) && q.Id() == vk
    ensures Holds(UpdatePeer(t, base, q, q.descriptor, base.system).Trigger(RemoveUnknown), n,
                  Settle(Put(ps, vk, q), vk, Refresh(q, q.descriptor, base, base.system)))
  {
    UpdatePeerEffect(t, n, Put(ps, vk, q), base, q, q.descriptor, base.system);
  }

  lemma EditEffect(t: Txn, base: State, vk: Key, f: UserField)
    requires !t.Failed() && Keyed(t.next.peers)
    ensures Matches(EditPeerAction(t, base, vk, f), EditNext(t.next, base, vk, f))
  {
    if vk in t.next.peers.at {
      var q := SetField(t.next.peers.at[vk], f);
      UserFieldKeepsId(t.next.peers.at[vk], f);
      EditWriteEffect(t, vk, f);
      EditedEffect(t.Act(ActEdit(Set(vk, f))).Do(Set(vk, f)), t.next, t.next.peers, base, vk, q);
    }
  }

  // ----- removals -----

  function DropAll(ps: PeerDict, gone: seq<Peer>): PeerDict {
    if gone == [] then ps else Drop(DropAll(ps, gone[..|gone| - 1]), gone[|gone| - 1].Id())
  }

  lemma {:induction false} DropAllAt(ps: PeerDict, gone: seq<Peer>)
    ensures forall k :: k in DropAll(ps, gone).at <==> k in ps.at && !exists g | g in gone :: g.Id() == k
    ensures forall k | k in DropAll(ps, gone).at :: DropAll(ps, gone).at[k] == ps.at[k]
  {
    if gone != [] {
      var last := |gone| - 1;
      assert gone == gone[..last] + [gone[last]];
      DropAllAt(ps, gone[..last]);
    }
  }

  ghost predicate Removable(ps: PeerDict, gone: seq<Peer>) {
    && (forall g | g in gone :: g.Id() in ps.at)
    && (forall i, j | 0 <= i < j < |gone| :: gone[i].Id() != gone[j].Id())
  }

  lemma RemovableInit(ps: PeerDict, gone: seq<Peer>)
    requires gone != [] && Removable(ps, gone)
    ensures Removable(ps, gone[..|gone| - 1])
    ensures gone[|gone| - 1].Id() in DropAll(ps, gone[..|gone| - 1]).at
  {
    var last := |gone| - 1;
    DropAllAt(ps, gone[..last]);
    assert gone[last] in gone;
    forall g | g in gone[..last] ensures g.Id() in ps.at && g.Id() != gone[last].Id() {
      var i :| 0 <= i < last && gone[i] == g;
    }
  }

  lemma RemoveOneEffect(t: Txn, n: State, ps: PeerDict, peer: Peer)
    requires Holds(t, n, ps) && peer.Id() in ps.at
    ensures Holds(RemovePeerAction(t, peer), n, Drop(ps, peer.Id()))
  {
  }

  lemma {:induction false} RemoveAllEffect(t: Txn, gone: seq<Peer>)
    requires !t.Failed() && Removable(t.next.peers, gone)
    ensures Holds(RemoveAllOf(t, gone), t.next, DropAll(t.next.peers, gone))
  {
    if gone != [] {
      var last := |gone| - 1;
      RemovableInit(t.next.peers, gone);
      RemoveAllEffect(t, gone[..last]);
      RemoveOneEffect(RemoveAllOf(t, gone[..last]), t.next, DropAll(t.next.peers, gone[..last]), gone[last]);
    }
  }

  // ----- a sweep over all peers -----

  function Sweep(ps: PeerDict, ks: seq<Key>, base: State, sys: SystemState): PeerDict {
    if ks == [] then ps
    else
      var k := ks[|ks| - 1];
      var sofar := Sweep(ps, ks[..|ks| - 1], base, sys);
      if k in sofar.at then Settle(sofar, k, Refresh(sofar.at[k], sofar.at[k].descriptor, base, sys)) else sofar
  }

  /** What a sweep leaves under k. */
  ghost predicate SweptAt(r: PeerDict, ps: PeerDict, k: Key, base: State, sys: SystemState)
    requires k in ps.at
  {
    var left := Refresh(ps.at[k], ps.at[k].descriptor, base, sys);
    (k in r.at <==> left.Some?) && (k in r.at ==> r.at[k] == left.value)
  }

  lemma {:induction false} SweepAtKey(ps: PeerDict, ks: seq<Key>, base: State, sys: SystemState, k: Key)
    requires NoRepeats(ks) && k in ps.at
    ensures if k in ks then SweptAt(Sweep(ps, ks, base, sys), ps, k, base, sys)
            else k in Sweep(ps, ks, base, sys).at && Sweep(ps, ks, base, sys).at[k] == ps.at[k]
  {
    if ks != [] {
      var last := |ks| - 1;
      assert ks == ks[..last] + [ks[last]];
      NoRepeatsSnoc(ks[..last], ks[last]);
      SweepAtKey(ps, ks[..last], base, sys, k);
    }
  }

  lemma {:induction false} SweepAddsNothing(ps: PeerDict, ks: seq<Key>, base: State, sys: SystemState)
    ensures Sweep(ps, ks, base, sys).at.Keys <= ps.at.Keys
  {
    if ks != [] {
      SweepAddsNothing(ps, ks[..|ks| - 1], base, sys);
    }
  }

  lemma SweepAt(ps: PeerDict, ks: seq<Key>, base: State, sys: SystemState)
    requires NoRepeats(ks) && forall k | k in ks :: k in ps.at
    ensures forall k | k in ks :: SweptAt(Sweep(ps, ks, base, sys), ps, k, base, sys)
    ensures forall k | k !in ks :: k in Sweep(ps, ks, base, sys).at <==> k in ps.at
    ensures forall k | k !in ks && k in ps.at :: Sweep(ps, ks, base, sys).at[k] == ps.at[k]
  {
    SweepAddsNothing(ps, ks, base, sys);
    forall k | k in ps.at
      ensures if k in ks then SweptAt(Sweep(ps, ks, base, sys), ps, k, base, sys)
              else k in Sweep(ps, ks, base, sys).at && Sweep(ps, ks, base, sys).at[k] == ps.at[k] {
      SweepAtKey(ps, ks, base, sys, k);
    }
  }

  /** The flagged records are the base's but for their flags. */
  ghost predicate FlaggedFrom(base: PeerDict, flagged: PeerDict) {
    && Keyed(base) && flagged.at.Keys == base.at.Keys
    && forall k | k in base.at :: Agrees(base.at[k], flagged.at[k]) && flagged.at[k].descriptor == base.at[k].descriptor
  }

  lemma NotSweptYet(base: State, sys: SystemState, flagged: PeerDict, i: nat)
    requires FlaggedFrom(base.peers, flagged) && i < |base.peers.order|
    ensures var k := base.peers.order[i];
            k in base.peers.at && k in Sweep(flagged, base.peers.order[..i], base, sys).at
            && Sweep(flagged, base.peers.order[..i], base, sys).at[k] == flagged.at[k]
  {
    var order := base.peers.order;
    assert order[i] in order && order[i] !in order[..i];
    SweepAt(flagged, order[..i], base, sys);
  }

  lemma UpdateOneMore(t: Txn, base: State, sys: SystemState, flagged: PeerDict, sofar: PeerDict, k: Key)
    requires FlaggedFrom(base.peers, flagged) && k in base.peers.at
    requires Holds(t, base, sofar) && k in sofar.at && sofar.at[k] == flagged.at[k]
    ensures Holds(UpdatePeer(t, base, base.peers.at[k], base.peers.at[k].descriptor, sys), base,
                  Settle(sofar, k, Refresh(sofar.at[k], sofar.at[k].descriptor, base, sys)))
  {
    UpdatePeerEffect(t, base, sofar, base, base.peers.at[k], base.peers.at[k].descriptor, sys);
  }

  lemma SweepSnoc(ps: PeerDict, ks: seq<Key>, k: Key, base: State, sys: SystemState)
    requires k in Sweep(ps, ks, base, sys).at
    ensures var sofar := Sweep(ps, ks, base, sys);
            Sweep(ps, ks + [k], base, sys) == Settle(sofar, k, Refresh(sofar.at[k], sofar.at[k].descriptor, base, sys))
  {
    assert (ks + [k])[..|ks|] == ks;
  }

  lemma UpdateAllSnoc(t: Txn, base: State, ps: seq<Peer>, p: Peer, sys: SystemState)
    ensures UpdateAll(t, base, ps + [p], sys) == UpdatePeer(UpdateAll(t, base, ps, sys), base, p, p.descriptor, sys)
  {
    assert (ps + [p])[..|ps|] == ps;
  }

  lemma ValuesUpTo(ps: PeerDict, i: nat)
    requires 0 < i <= |ps.order|
    ensures ps.order[i - 1] in ps.at
    ensures Values(ps)[..i] == Values(ps)[..i - 1] + [ps.at[ps.order[i - 1]]]
    ensures ps.order[..i] == ps.order[..i - 1] + [ps.order[i - 1]]
  {
    assert ps.order[i - 1] in ps.order;
  }

  lemma {:induction false} UpdateAllEffect(t: Txn, base: State, sys: SystemState, flagged: PeerDict, i: nat)
    requires Holds(t, base, flagged) && FlaggedFrom(base.peers, flagged)
    requires i <= |base.peers.order|
    ensures Holds(UpdateAll(t, base, Values(base.peers)[..i], sys), base,
                  Sweep(flagged, base.peers.order[..i], base, sys))
  {
    if i > 0 {
      UpdateAllEffect(t, base, sys, flagged, i - 1);
      NotSweptYet(base, sys, flagged, i - 1);
      var k := base.peers.order[i - 1];
      var before, keys := Values(base.peers)[..i - 1], base.peers.order[..i - 1];
      UpdateOneMore(UpdateAll(t, base, before, sys), base, sys, flagged, Sweep(flagged, keys, base, sys), k);
      ValuesUpTo(base.peers, i);
      UpdateAllSnoc(t, base, before, base.peers.at[k], sys);
      SweepSnoc(flagged, keys, k, base, sys);
    }
  }

  // ----- gateway flags -----

  function Flag(ps: PeerDict, vk: Key, on: bool): PeerDict {
    if vk in ps.at then Put(ps, vk, SetField(ps.at[vk], Gateway(on))) else ps
  }

  function ClaimNext(ps: PeerDict, all: seq<Peer>, gateways: seq<IP>): PeerDict {
    if gateways == [] then ps
    else
      var hits := Scan(all, IpAttr, gateways[0]);
      if hits != [] then Flag(ps, hits[0].Id(), true) else ClaimNext(ps, all, gateways[1..])
  }

  function Cleared(base: State, sys: SystemState): PeerDict {
    var cur := FirstGateway(Values(base.peers));
    if LosesGateway(cur, sys) then Flag(base.peers, cur.value.Id(), false) else base.peers
  }

  /** The peers after the gateway flag was moved, before they are refreshed. */
  function Reflagged(base: State, sys: SystemState): PeerDict {
    var all := Values(base.peers);
    if PinnedGateway(FirstGateway(all)) then Cleared(base, sys) else ClaimNext(Cleared(base, sys), all, sys.gateways)
  }

  predicate SameButFlag(p: Peer, q: Peer) {
    q == p.(gateway := q.gateway)
  }

  /** Same keys; the records differ at most in the gateway flag. */
  ghost predicate OnlyFlagsDiffer(ps: PeerDict, qs: PeerDict) {
    && qs.at.Keys == ps.at.Keys
    && forall k | k in ps.at :: SameButFlag(ps.at[k], qs.at[k])
  }

  lemma ValuesMembers(ps: PeerDict, p: Peer)
    requires Keyed(ps)
    ensures p in Values(ps) <==> p.Id() in ps.at && ps.at[p.Id()] == p
  {
    if p in Values(ps) {
      var i :| 0 <= i < |ps.order| && Values(ps)[i] == p;
      assert ps.order[i] in ps.order;
    }
    if p.Id() in ps.at && ps.at[p.Id()] == p {
      var i :| 0 <= i < |ps.order| && ps.order[i] == p.Id();
      assert Values(ps)[i] == p;
    }
  }

  lemma {:induction false} FirstGatewayMember(ps: seq<Peer>)
    ensures FirstGateway(ps).Some? ==> FirstGateway(ps).value in ps && FirstGateway(ps).value.gateway
    ensures FirstGateway(ps).None? ==> forall p | p in ps :: !p.gateway
  {
    if ps != [] {
      FirstGatewayMember(ps[1..]);
    }
  }

  lemma FlagEffect(t: Txn, n: State, ps: PeerDict, vk: Key, on: bool)
    requires Holds(t, n, ps) && vk in ps.at
    ensures Holds(t.Do(Set(vk, Gateway(on))), n, Flag(ps, vk, on))
  {
  }

  lemma FlagFlags(ps: PeerDict, vk: Key, on: bool)
    ensures OnlyFlagsDiffer(ps, Flag(ps, vk, on))
  {
  }

  lemma FlagsTransitive(ps: PeerDict, qs: PeerDict, rs: PeerDict)
    requires OnlyFlagsDiffer(ps, qs) && OnlyFlagsDiffer(qs, rs)
    ensures OnlyFlagsDiffer(ps, rs)
  {
    forall k | k in ps.at ensures SameButFlag(ps.at[k], rs.at[k]) {
      assert SameButFlag(ps.at[k], qs.at[k]) && SameButFlag(qs.at[k], rs.at[k]);
    }
  }

  lemma {:induction false} ClaimFlags(ps: PeerDict, all: seq<Peer>, gateways: seq<IP>)
    ensures OnlyFlagsDiffer(ps, ClaimNext(ps, all, gateways))
  {
    if gateways != [] {
      var hits := Scan(all, IpAttr, gateways[0]);
      if hits != [] {
        FlagFlags(ps, hits[0].Id(), true);
      } else {
        ClaimFlags(ps, all, gateways[1..]);
      }
    }
  }

  lemma ReflagFlags(base: State, sys: SystemState)
    ensures OnlyFlagsDiffer(base.peers, Cleared(base, sys))
    ensures OnlyFlagsDiffer(base.peers, Reflagged(base, sys))
  {
    var all := Values(base.peers);
    var cur := FirstGateway(all);
    if LosesGateway(cur, sys) {
      FlagFlags(base.peers, cur.value.Id(), false);
    }
    ClaimFlags(Cleared(base, sys), all, sys.gateways);
    FlagsTransitive(base.peers, Cleared(base, sys), ClaimNext(Cleared(base, sys), all, sys.gateways));
  }

  lemma FirstHitKnown(base: State, gateway: IP)
    requires Keyed(base.peers) && Scan(Values(base.peers), IpAttr, gateway) != []
    ensures Scan(Values(base.peers), IpAttr, gateway)[0].Id() in base.peers.at
  {
    var hits := Scan(Values(base.peers), IpAttr, gateway);
    ScanMembers(Values(base.peers), IpAttr, gateway, hits[0]);
    ValuesMembers(base.peers, hits[0]);
  }

  lemma {:induction false} ClaimEffect(t: Txn, n: State, ps: PeerDict, base: State, gateways: seq<IP>)
    requires Holds(t, n, ps) && Keyed(base.peers) && ps.at.Keys == base.peers.at.Keys
    ensures Holds(ClaimGateway(t, Values(base.peers), gateways), n, ClaimNext(ps, Values(base.peers), gateways))
  {
    if gateways != [] {
      var hits := Scan(Values(base.peers), IpAttr, gateways[0]);
      if hits != [] {
        FirstHitKnown(base, gateways[0]);
        FlagEffect(t, n, ps, hits[0].Id(), true);
      } else {
        ClaimEffect(t, n, ps, base, gateways[1..]);
      }
    }
  }

  lemma ReleaseLostEffect(t: Txn, base: State, sys: SystemState)
    requires Holds(t, base, base.peers) && Keyed(base.peers)
    ensures Holds(ReleaseLost(t, FirstGateway(Values(base.peers)), sys), base, Cleared(base, sys))
  {
    var cur := FirstGateway(Values(base.peers));
    FirstGatewayMember(Values(base.peers));
    if LosesGateway(cur, sys) {
      ValuesMembers(base.peers, cur.value);
      FlagEffect(t, base, base.peers, cur.value.Id(), false);
    }
  }

  lemma MoveGatewayEffect(t: Txn, base: State, sys: SystemState)
    requires Holds(t, base, base.peers) && Keyed(base.peers)
    ensures Holds(MoveGateway(t, Values(base.peers), sys), base, Reflagged(base, sys))
  {
    var cur := FirstGateway(Values(base.peers));
    ReleaseLostEffect(t, base, sys);
    if !PinnedGateway(cur) {
      ReflagFlags(base, sys);
      ClaimEffect(ReleaseLost(t, cur, sys), base, Cleared(base, sys), base, sys.gateways);
    }
  }

  function AdjustNext(base: State, sys: SystemState): State {
    base.(peers := Sweep(Reflagged(base, sys), base.peers.order, base, sys), system := sys)
  }

  lemma FullSweepEffect(t: Txn, base: State, sys: SystemState, flagged: PeerDict)
    requires Holds(t, base, flagged)
    requires Keyed(base.peers) && OnlyFlagsDiffer(base.peers, flagged)
    ensures Holds(UpdateAll(t, base, Values(base.peers), sys), base, Sweep(flagged, base.peers.order, base, sys))
  {
    UpdateAllEffect(t, base, sys, flagged, |base.peers.order|);
    assert Values(base.peers)[..|base.peers.order|] == Values(base.peers);
    assert base.peers.order[..|base.peers.order|] == base.peers.order;
  }

  lemma SystemEffect(t: Txn, n: State, ps: PeerDict, sys: SystemState)
    requires Holds(t, n, ps)
    ensures Matches(t.Do(SetSystem(sys)), Some(n.(peers := ps, system := sys)))
  {
  }

  lemma AdjustEffect(t: Txn, base: State, sys: SystemState)
    requires Holds(t, base, base.peers) && Keyed(base.peers)
    ensures Matches(Adjust(t, base, sys), Some(AdjustNext(base, sys)))
  {
    var t0 := t.Act(ActAdjust(sys));
    var t1 := MoveGateway(t0, Values(base.peers), sys);
    MoveGatewayEffect(t0, base, sys);
    ReflagFlags(base, sys);
    FullSweepEffect(t1, base, sys, Reflagged(base, sys));
    SystemEffect(UpdateAll(t1, base, Values(base.peers), sys), base,
                 Sweep(Reflagged(base, sys), base.peers.order, base, sys), sys);
  }

  // ----- incoming descriptors -----

  /** The record an admitted descriptor starts from. */
  function Draft(base: State, d: Descriptor): Peer {
    if d.vk in base.peers.at then base.peers.at[d.vk].(descriptor := d)
    else MakePeer(d, !d.e && base.prefs.pinNewPeers)
  }

  function Survivors(base: State, d: Descriptor): PeerDict {
    DropAll(base.peers, ConflictsForDescriptor(Values(base.peers), d))
  }

  function AdmitNext(base: State, d: Descriptor): State {
    var draft := Draft(base, d);
    base.(peers := Settle(Put(Survivors(base, d), d.vk, draft), d.vk, Refresh(draft, d, base, base.system)))
  }

  function IncomingNext(base: State, d: Descriptor): Option<State> {
    match Judge(base, d)
    case Broken => None
    case Ignored(_) => Some(base)
    case Rejected(_) => Some(base)
    case Admitted => Some(AdmitNext(base, d))
  }

  lemma ValuesDistinct(ps: PeerDict)
    requires Keyed(ps)
    ensures DistinctIds(Values(ps))
  {
    forall p, q | p in Values(ps) && q in Values(ps) && p.Id() == q.Id() ensures p == q {
      ValuesMembers(ps, p);
      ValuesMembers(ps, q);
    }
  }

  /** The conflicting peers are on record, each once, and none is the sender. */
  lemma ConflictsRemovable(base: State, d: Descriptor)
    requires Keyed(base.peers)
    ensures Removable(base.peers, ConflictsForDescriptor(Values(base.peers), d))
    ensures forall q | q in ConflictsForDescriptor(Values(base.peers), d) :: q.Id() != d.vk
  {
    ValuesDistinct(base.peers);
    ConflictsExact(Values(base.peers), d);
    forall q | q in ConflictsForDescriptor(Values(base.peers), d) ensures q.Id() in base.peers.at && q.Id() != d.vk {
      ValuesMembers(base.peers, q);
    }
  }

  lemma DescriptorEffect(t: Txn, n: State, ps: PeerDict, base: State, d: Descriptor)
    requires Holds(t, n, ps) && Keyed(base.peers)
    requires d.vk in base.peers.at && d.vk in ps.at && ps.at[d.vk] == base.peers.at[d.vk]
    ensures var draft := Draft(base, d);
            Holds(UpdateDescriptor(t, base, base.peers.at[d.vk], d), n,
                  Settle(Put(ps, d.vk, draft), d.vk, Refresh(draft, d, base, base.system)))
  {
    var peer := base.peers.at[d.vk];
    var t1 := t.Act(ActUpdateDescriptor(d.vk, d)).Do(Set(d.vk, Desc(d)));
    var draft := Draft(base, d);
    assert Holds(t1, n, Put(ps, d.vk, draft));
    UpdatePeerEffect(t1, n, Put(ps, d.vk, draft), base, peer, d, base.system);
  }

  lemma AcceptEffect(t: Txn, n: State, ps: PeerDict, base: State, d: Descriptor)
    requires Holds(t, n, ps) && d.vk !in base.peers.at
    ensures var draft := Draft(base, d);
            Holds(AcceptNewPeer(t, base, d), n,
                  Settle(Put(ps, d.vk, draft), d.vk, Refresh(draft, d, base, base.system)))
  {
    var draft := Draft(base, d);
    var t1 := t.Act(ActAcceptNewPeer(d)).Do(PutPeer(d.vk, draft));
    assert Holds(t1, n, Put(ps, d.vk, draft));
    UpdatePeerEffect(t1, n, Put(ps, d.vk, draft), base, draft, d, base.system);
  }

  lemma AdmitEffect(t: Txn, base: State, d: Descriptor)
    requires Holds(t, base, base.peers) && Keyed(base.peers)
    ensures Matches(Admit(t, base, d), Some(AdmitNext(base, d)))
  {
    var gone := ConflictsForDescriptor(Values(base.peers), d);
    ConflictsRemovable(base, d);
    RemoveAllEffect(t, gone);
    DropAllAt(base.peers, gone);
    if d.vk in base.peers.at {
      DescriptorEffect(RemoveAllOf(t, gone), base, Survivors(base, d), base, d);
    } else {
      AcceptEffect(RemoveAllOf(t, gone), base, Survivors(base, d), base, d);
    }
  }

  lemma ProcessIsAdmit(t: Txn, base: State, d: Descriptor, v: Verdict)
    requires v == Judge(base, d) && v.Admitted?
    ensures ProcessDescriptor(t, base, d) == Admit(t, base, d)
  {
  }

  lemma AdmittedNext(base: State, d: Descriptor, v: Verdict)
    requires v == Judge(base, d) && v.Admitted?
    ensures IncomingNext(base, d) == Some(AdmitNext(base, d))
  {
  }

  lemma StoppedEffect(t: Txn, base: State, d: Descriptor, v: Verdict)
    requires Holds(t, base, base.peers) && v == Judge(base, d) && !v.Admitted?
    ensures Matches(ProcessDescriptor(t, base, d), IncomingNext(base, d))
  {
  }

  lemma JudgedEffect(t: Txn, base: State, d: Descriptor, v: Verdict)
    requires Holds(t, base, base.peers) && Keyed(base.peers) && v == Judge(base, d)
    ensures Matches(ProcessDescriptor(t, base, d), IncomingNext(base, d))
  {
    if v.Admitted? {
      ProcessIsAdmit(t, base, d, v);
      AdmittedNext(base, d, v);
      AdmitEffect(t, base, d);
    } else {
      StoppedEffect(t, base, d, v);
    }
  }

  lemma IncomingEffect(t: Txn, base: State, d: Descriptor)
    requires Holds(t, base, base.peers) && Keyed(base.peers)
    ensures Matches(ProcessDescriptor(t, base, d), IncomingNext(base, d))
  {
    JudgedEffect(t, base, d, Judge(base, d));
  }

  // ----- all events -----

  /** Verifying, and then pinning what that left. */
  function PinNext(base: State, vk: Key): Option<State> {
    match EditNext(base, base, vk, Verified(true))
    case None => None
    case Some(n) => EditNext(n, base, vk, Pinned(true))
  }

  function VerifyNext(base: State, vk: Key, hostname: string): Option<State> {
    var found := WithHostname(Values(base.peers), hostname);
    if !found.Found? || found.peer.Id() != vk then None else PinNext(base, vk)
  }

  function RemoveNext(base: State, q: Query): Option<State> {
    match LookUp(Values(base.peers), q)
    case Ambiguous => None
    case Missing => Some(base)
    case Found(peer) => Some(base.(peers := Drop(base.peers, peer.Id())))
  }

  function AddrAddNext(base: State, vk: Key, ip: Option<IP>): Option<State> {
    if vk !in base.peers.at then Some(base)
    else if ip.None? then None
    else Some(base.(peers := Put(base.peers, vk, SetField(base.peers.at[vk], Addr(ip.value, true)))))
  }

  function AddrDelNext(base: State, vk: Key, ip: Option<IP>): Option<State> {
    if vk !in base.peers.at then Some(base)
    else if ip.None? || !HasAddr(base.peers.at[vk], ip.value) then None
    else Some(base.(peers := Put(base.peers, vk, WithoutAddr(base.peers.at[vk], ip.value))))
  }

  function PrefNext(base: State, op: Operation, pref: Pref, value: Input): Option<State> {
    match EditedPrefs(base.prefs, op, pref, value)
    case None => None
    case Some(prefs) => Some(base.(prefs := prefs))
  }

  function ReleaseNext(base: State): Option<State> {
    match FirstGateway(Values(base.peers))
    case None => Some(base)
    case Some(peer) => EditNext(base, base, peer.Id(), Gateway(false))
  }

  /** The copy a user's event leaves. */
  function UserNext(base: State, ev: Event): Option<State> {
    match ev
    case VerifyAndPin(vk, hostname) => VerifyNext(base, vk, hostname)
    case UserRemovePeer(q) => RemoveNext(base, q)
    case AddrAdd(vk, ip) => AddrAddNext(base, vk, ip)
    case AddrDel(vk, ip) => AddrDelNext(base, vk, ip)
    case EditPeer(vk, f) => EditNext(base, base, vk, f)
    case EditPref(op, pref, value) => PrefNext(base, op, pref, value)
    case ReleaseGateway => ReleaseNext(base)
    case _ => None
  }

  /** The copy an event leaves, before the gate; None when the event raises. */
  function Next(base: State, ev: Event): Option<State> {
    match ev
    case NewSystemState(sys) => Some(AdjustNext(base, sys))
    case Incoming(d) => IncomingNext(base, d)
    case _ => UserNext(base, ev)
  }

  lemma {:induction false} ScanSubset<K>(ps: seq<Peer>, attr: Peer -> Attr<K>, k: K)
    requires Scan(ps, attr, k) != []
    ensures Scan(ps, attr, k)[0] in ps
  {
    ScanMembers(ps, attr, k, Scan(ps, attr, k)[0]);
  }

  lemma LookUpMember(ps: seq<Peer>, q: Query)
    requires LookUp(ps, q).Found?
    ensures LookUp(ps, q).peer in ps
  {
    if q.asKey.Some? && Scan(ps, IdAttr, q.asKey.value) != [] {
      ScanSubset(ps, IdAttr, q.asKey.value);
    } else if Scan(EnabledOnly(ps), NameAttr, q.text) != [] {
      ScanSubset(EnabledOnly(ps), NameAttr, q.text);
    } else {
      ScanSubset(EnabledOnly(ps), IpAttr, q.asIp.value);
    }
  }

  lemma EditKeyed(n: State, base: State, vk: Key, f: UserField)
    requires Keyed(n.peers) && EditNext(n, base, vk, f).Some?
    ensures Keyed(EditNext(n, base, vk, f).value.peers)
  {
    UserFieldKeepsId(n.peers.at[vk], f);
  }

  lemma FailedEdit(t: Txn, base: State, vk: Key, f: UserField)
    requires t.Failed()
    ensures EditPeerAction(t, base, vk, f).Failed()
  {
  }

  lemma PinEffect(t: Txn, base: State, vk: Key, mid: Option<State>)
    requires Matches(t, mid) && (mid.Some? ==> Keyed(mid.value.peers))
    ensures Matches(EditPeerAction(t, base, vk, Pinned(true)),
                    match mid { case None => None case Some(n) => EditNext(n, base, vk, Pinned(true)) })
  {
    if mid.Some? {
      EditEffect(t, base, vk, Pinned(true));
    } else {
      FailedEdit(t, base, vk, Pinned(true));
    }
  }

  lemma BothEffect(t: Txn, base: State, vk: Key)
    requires Holds(t, base, base.peers) && Keyed(base.peers)
    ensures Matches(EditPeerAction(EditPeerAction(t, base, vk, Verified(true)), base, vk, Pinned(true)),
                    PinNext(base, vk))
  {
    var mid := EditNext(base, base, vk, Verified(true));
    EditEffect(t, base, vk, Verified(true));
    if mid.Some? {
      EditKeyed(base, base, vk, Verified(true));
    }
    PinEffect(EditPeerAction(t, base, vk, Verified(true)), base, vk, mid);
  }

  lemma FoundEffect(t: Txn, base: State, vk: Key, found: Lookup)
    requires Holds(t, base, base.peers) && Keyed(base.peers)
    ensures Matches(VerifyFound(t, base, vk, found),
                    if found.Found? && found.peer.Id() == vk then PinNext(base, vk) else None)
  {
    BothEffect(t, base, vk);
  }

  lemma VerifyEffect(t: Txn, base: State, vk: Key, hostname: string)
    requires Holds(t, base, base.peers) && Keyed(base.peers)
    ensures Matches(RunVerify(t, base, vk, hostname), VerifyNext(base, vk, hostname))
  {
    FoundEffect(t, base, vk, WithHostname(Values(base.peers), hostname));
  }

  lemma RemoveQueryEffect(t: Txn, base: State, q: Query)
    requires Holds(t, base, base.peers) && Keyed(base.peers)
    ensures Matches(RunRemove(t, base, q), RemoveNext(base, q))
  {
    var found := LookUp(Values(base.peers), q);
    if found.Found? {
      LookUpMember(Values(base.peers), q);
      ValuesMembers(base.peers, found.peer);
      RemoveOneEffect(t, base, base.peers, found.peer);
    }
  }

  lemma ReleaseEffect(t: Txn, base: State)
    requires Holds(t, base, base.peers) && Keyed(base.peers)
    ensures Matches(RunRelease(t, base), ReleaseNext(base))
  {
    var cur := FirstGateway(Values(base.peers));
    if cur.Some? {
      EditEffect(t, base, cur.value.Id(), Gateway(false));
    }
  }

  lemma AddrEffect(t: Txn, base: State, vk: Key, ip: Option<IP>)
    requires Holds(t, base, base.peers)
    ensures Matches(RunAddrAdd(t, base, vk, ip), AddrAddNext(base, vk, ip))
    ensures Matches(RunAddrDel(t, base, vk, ip), AddrDelNext(base, vk, ip))
  {
  }

  lemma UserMatchesNext(t: Txn, base: State, ev: Event)
    requires Holds(t, base, base.peers) && Keyed(base.peers)
    requires !ev.NewSystemState? && !ev.Incoming?
    ensures Matches(RunUser(t, base, ev), UserNext(base, ev))
  {
    match ev
    case VerifyAndPin(vk, hostname) => VerifyEffect(t, base, vk, hostname);
    case UserRemovePeer(q) => RemoveQueryEffect(t, base, q);
    case AddrAdd(vk, ip) => AddrEffect(t, base, vk, ip);
    case AddrDel(vk, ip) => AddrEffect(t, base, vk, ip);
    case EditPeer(vk, f) => EditEffect(t, base, vk, f);
    case EditPref(_, _, _) =>
    case ReleaseGateway => ReleaseEffect(t, base);
    case _ =>
  }

  /** The transactional rules compute the reference. */
  lemma RunMatchesNext(base: State, ev: Event)
    requires Keyed(base.peers)
    ensures Matches(Run(Begin(base, ev), base, ev), Next(base, ev))
  {
    var t := Begin(base, ev);
    match ev
    case NewSystemState(sys) => AdjustEffect(t, base, sys);
    case Incoming(d) => IncomingEffect(t, base, d);
    case _ => UserMatchesNext(t, base, ev);
  }

  /** An event commits the reference's state exactly when there is one and it passes the schema. */
  lemma StepIsNextBehindGate(base: State, ev: Event)
    requires Keyed(base.peers)
    ensures var n := Next(base, ev);
            && Step(base, ev).state == (if n.Some? && SchemaOk(n.value) then n.value else base)
            && (Step(base, ev).result.error.None? <==> n.Some? && SchemaOk(n.value))
  {
    RunMatchesNext(base, ev);
  }
}
