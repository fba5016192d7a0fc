/** Which triggers an event leaves, in order. */
module OrganizeNotices {
  import opened Addresses
  import opened OrderedDict
  import opened Queryable
  import opened Peers
  import opened OrganizeModel
  import opened OrganizeEffects
  import opened OrganizeInvariant
  import opened OrganizeAdmission
  import opened OrganizeGateway
  import opened OrganizeGates

  /** The key and the routes of a peer that goes, and the gateway's routes if it was one. */
  function Farewell(p: Peer): seq<Trigger> {
    [RemoveWgPeer(p.descriptor.pk), RemoveRoutesOf(p)] + (if p.gateway then [RemoveGatewayRoutes] else [])
  }

  /** t2 has these triggers more, or has failed. */
  predicate Notes(t1: Txn, t2: Txn, more: seq<Trigger>) {
    t2.Failed() || (!t1.Failed() && t2.result.triggers == t1.result.triggers + more)
  }

  lemma NotesTwice(t1: Txn, t2: Txn, t3: Txn, xs: seq<Trigger>, ys: seq<Trigger>)
    requires Notes(t1, t2, xs) && Notes(t2, t3, ys)
    ensures Notes(t1, t3, xs + ys)
  {
    assert t1.result.triggers + xs + ys == t1.result.triggers + (xs + ys);
  }

  lemma WriteNotes(t: Txn, needed: bool, w: Write)
    ensures Notes(t, DoIf(t, needed, w), []) && Notes(t, t.Do(w), [])
  {
  }

  lemma TriggerNotes(t: Txn, g: Trigger)
    ensures Notes(t, t.Trigger(g), [g])
  {
  }

  lemma RemovalNotes(t: Txn, peer: Peer)
    ensures Notes(t, RemovePeerAction(t, peer), Farewell(peer))
  {
    var t1 := t.Act(ActRemovePeer(peer.Id()));
    var t2 := t1.Do(RemovePeer(peer.Id()));
    WriteNotes(t1, true, RemovePeer(peer.Id()));
    assert Notes(t, t2, []);
  }

  lemma TablesNotes(t: Txn, peer: Peer, v4: map<IPv4, bool>, v6: map<IPv6, bool>)
    ensures Notes(t, WriteTables(t, peer, v4, v6), [])
  {
    var w4, w6 := Set(peer.Id(), V4Table(v4)), Set(peer.Id(), V6Table(v6));
    var t1 := DoIf(t, v4 != peer.v4, w4);
    WriteNotes(t, v4 != peer.v4, w4);
    WriteNotes(t1, v6 != peer.v6, w6);
    NotesTwice(t, t1, WriteTables(t, peer, v4, v6), [], []);
  }

  lemma NameAndFlagNotes(t: Txn, vk: Key, name: string, isNew: bool, flag: bool)
    ensures Notes(t, WriteNameAndFlag(t, vk, name, isNew, flag), [])
  {
    var w := Set(vk, Nickname(name, true));
    var t1 := DoIf(t, isNew, w);
    WriteNotes(t, isNew, w);
    WriteNotes(t1, flag, Set(vk, Gateway(true)));
    NotesTwice(t, t1, WriteNameAndFlag(t, vk, name, isNew, flag), [], []);
  }

  /** A refreshed peer is synced, one that goes is dismissed. */
  function RefreshNotices(peer: Peer, d: Descriptor, base: State, sys: SystemState): seq<Trigger> {
    if Refresh(peer, d, base, sys).Some? then [SyncPeer(peer.Id())] else Farewell(peer)
  }

  lemma KeptNotes(t: Txn, base: State, peer: Peer, d: Descriptor, sys: SystemState)
    requires Refresh(peer, d, base, sys).Some?
    ensures Notes(t, UpdatePeer(t, base, peer, d, sys), [SyncPeer(peer.Id())])
  {
    var v4 := V4For(peer.pinned, peer.v4, d, base.prefs, sys);
    var v6 := V6For(peer.pinned, peer.v6, d, base.prefs, sys);
    var isNew, flag := NameIsNew(peer, d, base.prefs), AnnouncesGateway(d, sys, base.system.gateways);
    var t1 := WriteTables(t, peer, v4, v6);
    var t2 := WriteNameAndFlag(t1, peer.Id(), d.hostname, isNew, flag);
    TablesNotes(t, peer, v4, v6);
    NameAndFlagNotes(t1, peer.Id(), d.hostname, isNew, flag);
    NotesTwice(t, t1, t2, [], []);
    TriggerNotes(t2, SyncPeer(peer.Id()));
    NotesTwice(t, t2, t2.Trigger(SyncPeer(peer.Id())), [], [SyncPeer(peer.Id())]);
    assert [] + [SyncPeer(peer.Id())] == [SyncPeer(peer.Id())];
  }

  lemma GoneNotes(t: Txn, base: State, peer: Peer, d: Descriptor, sys: SystemState)
    requires Refresh(peer, d, base, sys).None?
    ensures Notes(t, UpdatePeer(t, base, peer, d, sys), Farewell(peer))
  {
    var v4 := V4For(peer.pinned, peer.v4, d, base.prefs, sys);
    var v6 := V6For(peer.pinned, peer.v6, d, base.prefs, sys);
    var t1 := WriteTables(t, peer, v4, v6);
    TablesNotes(t, peer, v4, v6);
    RemovalNotes(t1, peer);
    NotesTwice(t, t1, RemovePeerAction(t1, peer), [], Farewell(peer));
    assert [] + Farewell(peer) == Farewell(peer);
  }

  lemma UpdateNotes(t: Txn, base: State, peer: Peer, d: Descriptor, sys: SystemState)
    ensures Notes(t, UpdatePeer(t, base, peer, d, sys), RefreshNotices(peer, d, base, sys))
  {
    if Refresh(peer, d, base, sys).Some? {
      KeptNotes(t, base, peer, d, sys);
    } else {
      GoneNotes(t, base, peer, d, sys);
    }
  }

  /** What an edit of p leaves to do. */
  function EditNotices(p: Peer, f: UserField, base: State): seq<Trigger> {
    var q := SetField(p, f);
    RefreshNotices(q, q.descriptor, base, base.system) + [RemoveUnknown]
  }

  lemma EditWriteNotes(t: Txn, vk: Key, f: UserField)
    ensures var t1 := t.Act(ActEdit(Set(vk, f))).Do(Set(vk, f));
            Notes(t, t1, []) && (!t1.Failed() ==> vk in t.next.peers.at && vk in t1.next.peers.at
                                                  && t1.next.peers.at[vk] == SetField(t.next.peers.at[vk], f))
  {
  }

  lemma EditNotes(t: Txn, base: State, vk: Key, f: UserField)
    ensures !EditPeerAction(t, base, vk, f).Failed() ==> vk in t.next.peers.at
    ensures vk in t.next.peers.at ==>
              Notes(t, EditPeerAction(t, base, vk, f), EditNotices(t.next.peers.at[vk], f, base))
  {
    var t1 := t.Act(ActEdit(Set(vk, f))).Do(Set(vk, f));
    EditWriteNotes(t, vk, f);
    if !t1.Failed() {
      var q := t1.next.peers.at[vk];
      var more := RefreshNotices(q, q.descriptor, base, base.system);
      var t2 := UpdatePeer(t1, base, q, q.descriptor, base.system);
      UpdateNotes(t1, base, q, q.descriptor, base.system);
      NotesTwice(t, t1, t2, [], more);
      TriggerNotes(t2, RemoveUnknown);
      NotesTwice(t, t2, t2.Trigger(RemoveUnknown), [] + more, [RemoveUnknown]);
      assert [] + more == more;
    }
  }

  lemma FinishNotes(base: State, t: Txn)
    ensures Finish(base, t).result.error.None? ==> !t.Failed() && Finish(base, t).result.triggers == t.result.triggers
  {
  }

  lemma UserStepIsFinish(base: State, ev: Event)
    requires !ev.NewSystemState? && !ev.Incoming?
    ensures Step(base, ev) == Finish(base, RunUser(Begin(base, ev), base, ev))
  {
  }

  lemma EditRuns(t: Txn, base: State, vk: Key, f: UserField)
    ensures RunUser(t, base, EditPeer(vk, f)) == EditPeerAction(t, base, vk, f)
  {
  }

  lemma NothingInFront<T>(xs: seq<T>)
    ensures [] + xs == xs
  {
  }

  /** What the event notes is what is to be done, if it is committed. */
  lemma StepNotes(base: State, ev: Event, t: Txn, more: seq<Trigger>)
    requires !ev.NewSystemState? && !ev.Incoming?
    requires t == RunUser(Begin(base, ev), base, ev) && Notes(Begin(base, ev), t, more)
    ensures Step(base, ev).result.error.None? ==> Step(base, ev).result.triggers == more
  {
    UserStepIsFinish(base, ev);
    FinishNotes(base, t);
    NothingInFront(more);
  }

  /** A committed edit of a peer. */
  lemma EditStepNotes(base: State, vk: Key, f: UserField)
    ensures var r := Step(base, EditPeer(vk, f)).result;
            r.error.None? ==> vk in base.peers.at && r.triggers == EditNotices(base.peers.at[vk], f, base)
  {
    var t := Begin(base, EditPeer(vk, f));
    EditRuns(t, base, vk, f);
    EditNotes(t, base, vk, f);
    if vk in base.peers.at {
      StepNotes(base, EditPeer(vk, f), EditPeerAction(t, base, vk, f), EditNotices(base.peers.at[vk], f, base));
    } else {
      UserStepIsFinish(base, EditPeer(vk, f));
      FinishNotes(base, EditPeerAction(t, base, vk, f));
    }
  }

  lemma ReleaseNotes(t: Txn, base: State, p: Peer)
    requires t.next == base && p.Id() in base.peers.at && base.peers.at[p.Id()] == p
    ensures Notes(t, EditPeerAction(t, base, p.Id(), Gateway(false)).Trigger(GetNewSystemState),
                  EditNotices(p, Gateway(false), base) + [GetNewSystemState])
  {
    var t1 := EditPeerAction(t, base, p.Id(), Gateway(false));
    EditNotes(t, base, p.Id(), Gateway(false));
    TriggerNotes(t1, GetNewSystemState);
    NotesTwice(t, t1, t1.Trigger(GetNewSystemState), EditNotices(p, Gateway(false), base), [GetNewSystemState]);
  }

  lemma RunReleaseIs(t: Txn, base: State, cur: Option<Peer>)
    requires cur == FirstGateway(Values(base.peers))
    ensures RunRelease(t, base) == match cur
            case None => t.Act(ActIgnore("no current gateway peer"))
            case Some(p) => EditPeerAction(t, base, p.Id(), Gateway(false)).Trigger(GetNewSystemState)
  {
  }

  lemma ReleaseRuns(t: Txn, base: State)
    ensures RunUser(t, base, ReleaseGateway) == RunRelease(t, base)
  {
  }

  lemma ReleaseIsEditAction(t: Txn, base: State, p: Peer)
    requires FirstGateway(Values(base.peers)) == Some(p)
    ensures RunUser(t, base, ReleaseGateway)
            == EditPeerAction(t, base, p.Id(), Gateway(false)).Trigger(GetNewSystemState)
  {
    ReleaseRuns(t, base);
    RunReleaseIs(t, base, Some(p));
  }

  lemma ReleaseRunNotes(t: Txn, base: State, p: Peer)
    requires t.next == base && FirstGateway(Values(base.peers)) == Some(p)
    requires p.Id() in base.peers.at && base.peers.at[p.Id()] == p
    ensures Notes(t, RunUser(t, base, ReleaseGateway), EditNotices(p, Gateway(false), base) + [GetNewSystemState])
  {
    ReleaseIsEditAction(t, base, p);
    ReleaseNotes(t, base, p);
  }

  lemma ReleaseStepNotes(base: State, p: Peer)
    requires FirstGateway(Values(base.peers)) == Some(p) && p.Id() in base.peers.at && base.peers.at[p.Id()] == p
    ensures var r := Step(base, ReleaseGateway).result;
            r.error.None? ==> r.triggers == EditNotices(p, Gateway(false), base) + [GetNewSystemState]
  {
    var t := Begin(base, ReleaseGateway);
    ReleaseRunNotes(t, base, p);
    StepNotes(base, ReleaseGateway, RunUser(t, base, ReleaseGateway), EditNotices(p, Gateway(false), base)
              + [GetNewSystemState]);
  }

  lemma RemovalStepNotes(base: State, q: Query, p: Peer)
    requires LookUp(Values(base.peers), q) == Found(p)
    ensures var r := Step(base, UserRemovePeer(q)).result; r.error.None? ==> r.triggers == Farewell(p)
  {
    var t := Begin(base, UserRemovePeer(q));
    UserStepIsFinish(base, UserRemovePeer(q));
    FinishNotes(base, RemovePeerAction(t, p));
    RemovalNotes(t, p);
  }

  lemma VerifyIsTwoEdits(t: Txn, base: State, vk: Key, hostname: string)
    ensures var r := RunVerify(t, base, vk, hostname);
            !r.Failed() ==>
              r == EditPeerAction(EditPeerAction(t, base, vk, Verified(true)), base, vk, Pinned(true))
  {
  }

  lemma TwoEditsNotes(t: Txn, base: State, vk: Key, mid: State)
    requires !t.Failed() && t.next == base && Keyed(base.peers)
    requires EditNext(base, base, vk, Verified(true)) == Some(mid)
    ensures var t2 := EditPeerAction(EditPeerAction(t, base, vk, Verified(true)), base, vk, Pinned(true));
            !t2.Failed() ==>
              && vk in base.peers.at && vk in mid.peers.at
              && t2.result.triggers == t.result.triggers + EditNotices(base.peers.at[vk], Verified(true), base)
                                       + EditNotices(mid.peers.at[vk], Pinned(true), base)
  {
    var t1 := EditPeerAction(t, base, vk, Verified(true));
    EditNotes(t, base, vk, Verified(true));
    EditEffect(t, base, vk, Verified(true));
    EditNotes(t1, base, vk, Pinned(true));
  }

  /** Two edits, the second of the record the first leaves. */
  lemma VerifyStepNotes(base: State, vk: Key, hostname: string, mid: State)
    requires Keyed(base.peers) && EditNext(base, base, vk, Verified(true)) == Some(mid)
    ensures var r := Step(base, VerifyAndPin(vk, hostname)).result;
            r.error.None? ==>
              && vk in base.peers.at && vk in mid.peers.at
              && r.triggers == EditNotices(base.peers.at[vk], Verified(true), base)
                               + EditNotices(mid.peers.at[vk], Pinned(true), base)
  {
    var t := Begin(base, VerifyAndPin(vk, hostname));
    UserStepIsFinish(base, VerifyAndPin(vk, hostname));
    FinishNotes(base, RunVerify(t, base, vk, hostname));
    VerifyIsTwoEdits(t, base, vk, hostname);
    TwoEditsNotes(t, base, vk, mid);
    NothingInFront(EditNotices(base.peers.at[vk], Verified(true), base));
  }

  // ----- a new system state -----

  /** The current gateway gives the flag up if it is not pinned and has none of the gateways. */
  predicate GivesFlagUp(base: State, sys: SystemState) {
    var cur := Current(base.peers);
    && cur.Some? && cur.value in base.peers.at && !base.peers.at[cur.value].pinned
    && forall ip | ip in sys.gateways :: ip !in base.peers.at[cur.value].EnabledIps()
  }

  /** Who is flagged for having a gateway; nobody while a pinned peer is the gateway. */
  function Flagged(base: State, sys: SystemState): Option<Key> {
    var cur := Current(base.peers);
    if cur.Some? && cur.value in base.peers.at && base.peers.at[cur.value].pinned then None
    else Claimant(Values(base.peers), sys.gateways)
  }

  /** Peer by peer: who is still on record is synced, who is not is dismissed. */
  function SweepNotices(ps: seq<Peer>, next: PeerDict): seq<Trigger> {
    if ps == [] then []
    else
      var last := ps[|ps| - 1];
      SweepNotices(ps[..|ps| - 1], next) + if last.Id() in next.at then [SyncPeer(last.Id())] else Farewell(last)
  }

  function ClaimNotices(k: Option<Key>): seq<Trigger> {
    match k
    case None => []
    case Some(vk) => [SyncPeer(vk)]
  }

  function LossNotices(lost: bool): seq<Trigger> {
    if lost then [RemoveGatewayRoutes] else []
  }

  function SystemNotices(base: State, sys: SystemState, next: PeerDict): seq<Trigger> {
    LossNotices(GivesFlagUp(base, sys)) + ClaimNotices(Flagged(base, sys)) + SweepNotices(Values(base.peers), next)
  }

  lemma DoTriggerNotes(t: Txn, w: Write, g: Trigger)
    ensures Notes(t, t.Do(w).Trigger(g), [g])
  {
    WriteNotes(t, true, w);
    TriggerNotes(t.Do(w), g);
    NotesTwice(t, t.Do(w), t.Do(w).Trigger(g), [], [g]);
    assert [] + [g] == [g];
  }

  lemma LossNotes(t: Txn, cur: Option<Peer>, sys: SystemState)
    ensures Notes(t, ReleaseLost(t, cur, sys), LossNotices(LosesGateway(cur, sys)))
  {
    if LosesGateway(cur, sys) {
      DoTriggerNotes(t, Set(cur.value.Id(), Gateway(false)), RemoveGatewayRoutes);
    }
  }

  lemma {:induction false} ClaimNotes(t: Txn, ps: seq<Peer>, gateways: seq<IP>)
    ensures Notes(t, ClaimGateway(t, ps, gateways), ClaimNotices(Claimant(ps, gateways)))
  {
    if gateways != [] {
      var hits := Scan(ps, IpAttr, gateways[0]);
      if hits != [] {
        DoTriggerNotes(t, Set(hits[0].Id(), Gateway(true)), SyncPeer(hits[0].Id()));
      } else {
        ClaimNotes(t, ps, gateways[1..]);
      }
    }
  }

  lemma MoveNotes(t: Txn, base: State, sys: SystemState)
    requires Keyed(base.peers)
    ensures Notes(t, MoveGateway(t, Values(base.peers), sys),
                  LossNotices(GivesFlagUp(base, sys)) + ClaimNotices(Flagged(base, sys)))
  {
    var ps := Values(base.peers);
    var cur := FirstGateway(ps);
    CurrentIs(base.peers);
    var t1 := ReleaseLost(t, cur, sys);
    LossNotes(t, cur, sys);
    assert LosesGateway(cur, sys) == GivesFlagUp(base, sys);
    if PinnedGateway(cur) {
      NotesTwice(t, t1, t1, LossNotices(GivesFlagUp(base, sys)), []);
    } else {
      ClaimNotes(t1, ps, sys.gateways);
      NotesTwice(t, t1, ClaimGateway(t1, ps, sys.gateways), LossNotices(GivesFlagUp(base, sys)),
                 ClaimNotices(Flagged(base, sys)));
    }
  }

  lemma {:induction false} SweepNotes(t: Txn, base: State, ps: seq<Peer>, sys: SystemState, next: PeerDict)
    requires forall p | p in ps :: Refresh(p, p.descriptor, base, sys).Some? <==> p.Id() in next.at
    ensures Notes(t, UpdateAll(t, base, ps, sys), SweepNotices(ps, next))
  {
    if ps != [] {
      var init, last := ps[..|ps| - 1], ps[|ps| - 1];
      var t1 := UpdateAll(t, base, init, sys);
      assert forall p | p in init :: p in ps;
      SweepNotes(t, base, init, sys, next);
      UpdateNotes(t1, base, last, last.descriptor, sys);
      assert last in ps;
      NotesTwice(t, t1, UpdatePeer(t1, base, last, last.descriptor, sys), SweepNotices(init, next),
                 RefreshNotices(last, last.descriptor, base, sys));
    }
  }

  lemma StayersAre(base: State, sys: SystemState)
    requires Inv(base)
    ensures forall p | p in Values(base.peers) ::
              Refresh(p, p.descriptor, base, sys).Some? <==> p.Id() in AdjustNext(base, sys).peers.at
  {
    SystemStateAdjusts(base, sys);
    forall p | p in Values(base.peers)
      ensures Refresh(p, p.descriptor, base, sys).Some? <==> p.Id() in AdjustNext(base, sys).peers.at {
      ValuesMembers(base.peers, p);
      RefreshRemains(p, base, sys);
    }
  }

  lemma AdjustNotes(t: Txn, base: State, sys: SystemState)
    requires Inv(base)
    ensures Notes(t, Adjust(t, base, sys), SystemNotices(base, sys, AdjustNext(base, sys).peers))
  {
    var ps, next := Values(base.peers), AdjustNext(base, sys).peers;
    var t0 := t.Act(ActAdjust(sys));
    var t1 := MoveGateway(t0, ps, sys);
    var t2 := UpdateAll(t1, base, ps, sys);
    var moved := LossNotices(GivesFlagUp(base, sys)) + ClaimNotices(Flagged(base, sys));
    MoveNotes(t0, base, sys);
    StayersAre(base, sys);
    SweepNotes(t1, base, ps, sys, next);
    NotesTwice(t0, t1, t2, moved, SweepNotices(ps, next));
    WriteNotes(t2, true, SetSystem(sys));
    NotesTwice(t0, t2, t2.Do(SetSystem(sys)), moved + SweepNotices(ps, next), []);
    assert moved + SweepNotices(ps, next) + [] == moved + SweepNotices(ps, next);
  }

  lemma SystemRuns(t: Txn, base: State, sys: SystemState)
    ensures Run(t, base, NewSystemState(sys)) == Adjust(t, base, sys)
  {
  }

  lemma BegunNotes(base: State, ev: Event, t: Txn, more: seq<Trigger>)
    requires t == Run(Begin(base, ev), base, ev) && Notes(Begin(base, ev), t, more)
    ensures Step(base, ev).result.error.None? ==> Step(base, ev).result.triggers == more
  {
    FinishNotes(base, t);
    assert [] + more == more;
  }

  /** A committed system state: the loss of the gateway, its claim, and peer by peer the sync or the dismissal. */
  lemma SystemStepNotes(base: State, sys: SystemState)
    requires Inv(base)
    ensures var r := Step(base, NewSystemState(sys)).result;
            r.error.None? ==> r.triggers == SystemNotices(base, sys, AdjustNext(base, sys).peers)
  {
    var t := Begin(base, NewSystemState(sys));
    SystemRuns(t, base, sys);
    AdjustNotes(t, base, sys);
    BegunNotes(base, NewSystemState(sys), Adjust(t, base, sys), SystemNotices(base, sys, AdjustNext(base, sys).peers));
  }

  // ----- a descriptor that is taken in -----

  /** All of them are dismissed, in this order. */
  function Farewells(ps: seq<Peer>): seq<Trigger> {
    if ps == [] then [] else Farewells(ps[..|ps| - 1]) + Farewell(ps[|ps| - 1])
  }

  lemma {:induction false} RemovalsNotes(t: Txn, ps: seq<Peer>)
    ensures Notes(t, RemoveAllOf(t, ps), Farewells(ps))
  {
    if ps != [] {
      var init := ps[..|ps| - 1];
      var t1 := RemoveAllOf(t, init);
      RemovalsNotes(t, init);
      RemovalNotes(t1, ps[|ps| - 1]);
      NotesTwice(t, t1, RemovePeerAction(t1, ps[|ps| - 1]), Farewells(init), Farewell(ps[|ps| - 1]));
    }
  }

  /** The record the sender has, or a new one. */
  function SenderRecord(base: State, d: Descriptor): Peer {
    if d.vk in base.peers.at then base.peers.at[d.vk] else Draft(base, d)
  }

  /** The peers in conflict are dismissed, then the sender is synced if it is on record, and dismissed if not. */
  function IncomingNotices(base: State, d: Descriptor, next: PeerDict): seq<Trigger> {
    Farewells(ConflictsForDescriptor(Values(base.peers), d))
    + if d.vk in next.at then [SyncPeer(d.vk)] else Farewell(SenderRecord(base, d))
  }

  lemma KnownNotes(t: Txn, base: State, peer: Peer, d: Descriptor)
    ensures Notes(t, UpdateDescriptor(t, base, peer, d), RefreshNotices(peer, d, base, base.system))
  {
    var t1 := t.Act(ActUpdateDescriptor(peer.Id(), d)).Do(Set(peer.Id(), Desc(d)));
    var more := RefreshNotices(peer, d, base, base.system);
    assert Notes(t, t1, []);
    UpdateNotes(t1, base, peer, d, base.system);
    NotesTwice(t, t1, UpdateDescriptor(t, base, peer, d), [], more);
    assert [] + more == more;
  }

  lemma NewNotes(t: Txn, base: State, d: Descriptor, peer: Peer)
    requires peer == MakePeer(d, !d.e && base.prefs.pinNewPeers)
    ensures Notes(t, AcceptNewPeer(t, base, d), RefreshNotices(peer, d, base, base.system))
  {
    var t1 := t.Act(ActAcceptNewPeer(d)).Do(PutPeer(d.vk, peer));
    var more := RefreshNotices(peer, d, base, base.system);
    assert Notes(t, t1, []);
    UpdateNotes(t1, base, peer, d, base.system);
    NotesTwice(t, t1, AcceptNewPeer(t, base, d), [], more);
    assert [] + more == more;
  }

  lemma SenderStays(base: State, d: Descriptor)
    requires Keyed(base.peers)
    ensures Refresh(SenderRecord(base, d), d, base, base.system).Some? <==> Arrival(base, d).Some?
    ensures SenderRecord(base, d).Id() == d.vk
  {
  }

  lemma AdmitNotes(t: Txn, base: State, d: Descriptor)
    requires Keyed(base.peers)
    ensures Notes(t, Admit(t, base, d),
                  Farewells(ConflictsForDescriptor(Values(base.peers), d))
                  + if Arrival(base, d).Some? then [SyncPeer(d.vk)] else Farewell(SenderRecord(base, d)))
  {
    var conflicts := ConflictsForDescriptor(Values(base.peers), d);
    var t1 := RemoveAllOf(t, conflicts);
    RemovalsNotes(t, conflicts);
    SenderStays(base, d);
    if d.vk in base.peers.at {
      KnownNotes(t1, base, base.peers.at[d.vk], d);
    } else {
      NewNotes(t1, base, d, SenderRecord(base, d));
    }
    NotesTwice(t, t1, Admit(t, base, d), Farewells(conflicts),
               RefreshNotices(SenderRecord(base, d), d, base, base.system));
  }

  lemma IncomingRuns(t: Txn, base: State, d: Descriptor, v: Verdict)
    requires v == Judge(base, d) && v.Admitted?
    ensures Run(t, base, Incoming(d)) == Admit(t, base, d)
  {
    assert Run(t, base, Incoming(d)) == ProcessDescriptor(t, base, d);
  }

  lemma SenderOnRecord(base: State, d: Descriptor)
    requires Keyed(base.peers) && Judge(base, d).Admitted?
    ensures d.vk in AdmitNext(base, d).peers.at <==> Arrival(base, d).Some?
  {
    JudgeAdmissible(base, d);
    AdmitAt(base, d, d.vk);
  }

  /** A descriptor that is taken in: the dismissals, then the sync or the dismissal of its sender. */
  lemma IncomingStepNotes(base: State, d: Descriptor)
    requires Keyed(base.peers) && Judge(base, d).Admitted?
    ensures var r := Step(base, Incoming(d)).result;
            r.error.None? ==> r.triggers == IncomingNotices(base, d, AdmitNext(base, d).peers)
  {
    var t := Begin(base, Incoming(d));
    IncomingRuns(t, base, d, Judge(base, d));
    AdmitNotes(t, base, d);
    SenderOnRecord(base, d);
    BegunNotes(base, Incoming(d), Admit(t, base, d), IncomingNotices(base, d, AdmitNext(base, d).peers));
  }
}
