/**
 * An event as single steps on the shared copy: the writes its rules call for, and
 * where an edit is followed by a refresh, the reading of the edited record from the
 * copy (vula/organize.py). Playing the steps one by one is running the event.
 */
module EngineSteps {
  import opened Addresses
  import opened OrderedDict
  import opened Queryable
  import opened Peers
  import opened OrganizeModel

  /** Make a write; look a record up in the copy and refresh it; raise. */
  datatype Task = Make(write: Write) | Refresh(vk: Key) | Raise

  function WriteIf(needed: bool, w: Write): seq<Write> {
    if needed then [w] else []
  }

  /** The writes of `_update_peer`. */
  function UpdateWrites(base: State, peer: Peer, d: Descriptor, sys: SystemState): (r: seq<Write>)
    ensures |r| <= 4
  {
    var v4 := V4For(peer.pinned, peer.v4, d, base.prefs, sys);
    var v6 := V6For(peer.pinned, peer.v6, d, base.prefs, sys);
    WriteIf(v4 != peer.v4, Set(peer.Id(), V4Table(v4))) + WriteIf(v6 != peer.v6, Set(peer.Id(), V6Table(v6)))
    + if On(v4) == {} && On(v6) == {} then [RemovePeer(peer.Id())]
      else
        WriteIf(NameIsNew(peer, d, base.prefs), Set(peer.Id(), Nickname(d.hostname, true)))
        + WriteIf(AnnouncesGateway(d, sys, base.system.gateways), Set(peer.Id(), Gateway(true)))
  }

  function Makes(ws: seq<Write>): (r: seq<Task>)
    ensures |r| == |ws|
    ensures forall i | 0 <= i < |ws| :: r[i] == Make(ws[i])
  {
    seq(|ws|, i requires 0 <= i < |ws| => Make(ws[i]))
  }

  // ----- what each event is made of -----

  function EditTasks(vk: Key, f: Field): seq<Task> {
    [Make(Set(vk, f)), Refresh(vk)]
  }

  function VerifyTasks(base: State, vk: Key, hostname: string): seq<Task> {
    var found := WithHostname(Values(base.peers), hostname);
    if found.Found? && vk == found.peer.Id() then EditTasks(vk, Verified(true)) + EditTasks(vk, Pinned(true))
    else [Raise]
  }

  function RemoveTasks(base: State, q: Query): seq<Task> {
    match LookUp(Values(base.peers), q)
    case Ambiguous => [Raise]
    case Missing => []
    case Found(peer) => [Make(RemovePeer(peer.Id()))]
  }

  /** Adding or deleting an address. */
  function AddrTasks(base: State, vk: Key, ip: Option<IP>, add: bool): seq<Task> {
    if vk !in base.peers.at then []
    else if ip.None? then [Raise]
    else [Make(if add then Set(vk, Addr(ip.value, true)) else RemoveAddr(vk, ip.value))]
  }

  function ReleaseTasks(base: State): seq<Task> {
    match FirstGateway(Values(base.peers))
    case None => []
    case Some(peer) => EditTasks(peer.Id(), Gateway(false))
  }

  function ClaimWrites(ps: seq<Peer>, gateways: seq<IP>): seq<Write> {
    if gateways == [] then []
    else
      var hits := Scan(ps, IpAttr, gateways[0]);
      if hits != [] then [Set(hits[0].Id(), Gateway(true))] else ClaimWrites(ps, gateways[1..])
  }

  function MoveWrites(ps: seq<Peer>, sys: SystemState): seq<Write> {
    var cur := FirstGateway(ps);
    (if LosesGateway(cur, sys) then [Set(cur.value.Id(), Gateway(false))] else [])
    + if PinnedGateway(cur) then [] else ClaimWrites(ps, sys.gateways)
  }

  function SweepWrites(base: State, ps: seq<Peer>, sys: SystemState): seq<Write> {
    if ps == [] then []
    else SweepWrites(base, ps[..|ps| - 1], sys) + UpdateWrites(base, ps[|ps| - 1], ps[|ps| - 1].descriptor, sys)
  }

  function AdjustWrites(base: State, sys: SystemState): seq<Write> {
    var ps := Values(base.peers);
    MoveWrites(ps, sys) + SweepWrites(base, ps, sys) + [SetSystem(sys)]
  }

  function RemovalWrites(ps: seq<Peer>): seq<Write> {
    if ps == [] then [] else RemovalWrites(ps[..|ps| - 1]) + [RemovePeer(ps[|ps| - 1].Id())]
  }

  function AdmitWrites(base: State, d: Descriptor): seq<Write> {
    RemovalWrites(ConflictsForDescriptor(Values(base.peers), d))
    + if d.vk in base.peers.at then
        var peer := base.peers.at[d.vk];
        [Set(peer.Id(), Desc(d))] + UpdateWrites(base, peer, d, base.system)
      else
        var peer := MakePeer(d, !d.e && base.prefs.pinNewPeers);
        [PutPeer(d.vk, peer)] + UpdateWrites(base, peer, d, base.system)
  }

  function IncomingTasks(base: State, d: Descriptor): seq<Task> {
    match Judge(base, d)
    case Broken => [Raise]
    case Ignored(_) => []
    case Rejected(_) => []
    case Admitted => Makes(AdmitWrites(base, d))
  }

  /** What the event method reads off the committed state when it starts. */
  function Tasks(base: State, ev: Event): seq<Task> {
    match ev
    case VerifyAndPin(vk, hostname) => VerifyTasks(base, vk, hostname)
    case UserRemovePeer(q) => RemoveTasks(base, q)
    case AddrAdd(vk, ip) => AddrTasks(base, vk, ip, true)
    case AddrDel(vk, ip) => AddrTasks(base, vk, ip, false)
    case EditPeer(vk, f) => EditTasks(vk, f)
    case EditPref(op, pref, value) => [Make(EditPrefs(op, pref, value))]
    case ReleaseGateway => ReleaseTasks(base)
    case NewSystemState(sys) => Makes(AdjustWrites(base, sys))
    case Incoming(d) => IncomingTasks(base, d)
  }

  // ----- playing them -----

  function Weight(todo: seq<Task>): nat {
    if todo == [] then 0 else (if todo[0].Refresh? then 5 else 1) + Weight(todo[1..])
  }

  lemma {:induction false} WeightConcat(xs: seq<Task>, ys: seq<Task>)
    ensures Weight(xs + ys) == Weight(xs) + Weight(ys)
  {
    if xs == [] {
      assert xs + ys == ys;
    } else {
      assert (xs + ys)[1..] == xs[1..] + ys;
      WeightConcat(xs[1..], ys);
    }
  }

  lemma {:induction false} WeightMakes(ws: seq<Write>)
    ensures Weight(Makes(ws)) == |ws|
  {
    if ws != [] {
      assert Makes(ws)[1..] == Makes(ws[1..]);
      WeightMakes(ws[1..]);
    }
  }

  /** What a refresh of vk comes to, given the copy. */
  function Expanded(base: State, copy: State, vk: Key): seq<Task>
    requires vk in copy.peers.at
  {
    var peer := copy.peers.at[vk];
    Makes(UpdateWrites(base, peer, peer.descriptor, base.system))
  }

  lemma ExpandedWeighs(base: State, copy: State, vk: Key, rest: seq<Task>)
    requires vk in copy.peers.at
    ensures Weight(Expanded(base, copy, vk) + rest) < Weight([Refresh(vk)] + rest)
  {
    var peer := copy.peers.at[vk];
    WeightMakes(UpdateWrites(base, peer, peer.descriptor, base.system));
    WeightConcat(Expanded(base, copy, vk), rest);
    assert ([Refresh(vk)] + rest)[1..] == rest;
  }

  /** Step by step, until one raises. */
  function Play(t: Txn, base: State, todo: seq<Task>): Txn
    decreases Weight(todo)
  {
    if t.Failed() || todo == [] then t
    else
      match todo[0]
      case Make(w) => Play(t.Do(w), base, todo[1..])
      case Raise => t.Fail(FailedWrite)
      case Refresh(vk) =>
        if vk !in t.next.peers.at then t.Fail(FailedWrite)
        else
          ExpandedWeighs(base, t.next, vk, todo[1..]);
          assert [Refresh(vk)] + todo[1..] == todo;
          Play(t, base, Expanded(base, t.next, vk) + todo[1..])
  }

  function DoAll(t: Txn, ws: seq<Write>): Txn
    decreases |ws|
  {
    if ws == [] then t else DoAll(t.Do(ws[0]), ws[1..])
  }

  lemma {:induction false} DoAllConcat(t: Txn, xs: seq<Write>, ys: seq<Write>)
    ensures DoAll(t, xs + ys) == DoAll(DoAll(t, xs), ys)
    decreases |xs|
  {
    if xs == [] {
      assert xs + ys == ys;
    } else {
      assert (xs + ys)[1..] == xs[1..] + ys;
      DoAllConcat(t.Do(xs[0]), xs[1..], ys);
    }
  }

  lemma {:induction false} DoAllFailed(t: Txn, ws: seq<Write>)
    requires t.Failed()
    ensures DoAll(t, ws) == t
    decreases |ws|
  {
    if ws != [] {
      DoAllFailed(t.Do(ws[0]), ws[1..]);
    }
  }

  lemma DoAllOne(t: Txn, w: Write)
    ensures DoAll(t, [w]) == t.Do(w)
  {
    assert [w][1..] == [];
  }

  /** Writes in front of other tasks are made first. */
  lemma {:induction false} PlayMakes(t: Txn, base: State, ws: seq<Write>, rest: seq<Task>)
    ensures Play(t, base, Makes(ws) + rest) == Play(DoAll(t, ws), base, rest)
    decreases |ws|
  {
    if t.Failed() {
      DoAllFailed(t, ws);
    } else if ws == [] {
      assert Makes(ws) + rest == rest;
    } else {
      assert (Makes(ws) + rest)[1..] == Makes(ws[1..]) + rest;
      PlayMakes(t.Do(ws[0]), base, ws[1..], rest);
    }
  }

  lemma PlayAllMakes(t: Txn, base: State, ws: seq<Write>)
    ensures Play(t, base, Makes(ws)) == DoAll(t, ws)
  {
    PlayMakes(t, base, ws, []);
    assert Makes(ws) + [] == Makes(ws);
  }

  // ----- a transaction without its notes -----

  /**
   * The copy, the writes and whether it failed: what is left when actions, triggers and the
   * kind of error are not looked at.
   */
  function Bare(t: Txn): Txn {
    Txn(t.next, Result(t.result.event, [], t.result.writes, [], if t.Failed() then Some(FailedWrite) else None))
  }

  lemma BareAct(t: Txn, a: Action)
    ensures Bare(t.Act(a)) == Bare(t)
  {
  }

  lemma BareTrigger(t: Txn, g: Trigger)
    ensures Bare(t.Trigger(g)) == Bare(t)
  {
  }

  lemma BareFail(t: Txn, e: Error)
    ensures Bare(t.Fail(e)) == Bare(t).Fail(FailedWrite)
  {
  }

  lemma BareDo(t: Txn, w: Write)
    ensures Bare(t.Do(w)) == Bare(t).Do(w)
  {
  }

  lemma BareIf(t: Txn, needed: bool, w: Write)
    ensures Bare(DoIf(t, needed, w)) == DoAll(Bare(t), WriteIf(needed, w))
  {
    BareDo(t, w);
    DoAllOne(Bare(t), w);
  }

  lemma BareTables(t: Txn, peer: Peer, v4: map<IPv4, bool>, v6: map<IPv6, bool>)
    ensures Bare(WriteTables(t, peer, v4, v6)) ==
              DoAll(Bare(t), WriteIf(v4 != peer.v4, Set(peer.Id(), V4Table(v4)))
                    + WriteIf(v6 != peer.v6, Set(peer.Id(), V6Table(v6))))
  {
    var w4, w6 := Set(peer.Id(), V4Table(v4)), Set(peer.Id(), V6Table(v6));
    BareIf(t, v4 != peer.v4, w4);
    BareIf(DoIf(t, v4 != peer.v4, w4), v6 != peer.v6, w6);
    DoAllConcat(Bare(t), WriteIf(v4 != peer.v4, w4), WriteIf(v6 != peer.v6, w6));
  }

  lemma BareNameAndFlag(t: Txn, vk: Key, name: string, isNew: bool, flag: bool)
    ensures Bare(WriteNameAndFlag(t, vk, name, isNew, flag)) ==
              DoAll(Bare(t), WriteIf(isNew, Set(vk, Nickname(name, true))) + WriteIf(flag, Set(vk, Gateway(true))))
  {
    var w := Set(vk, Nickname(name, true));
    BareIf(t, isNew, w);
    BareIf(DoIf(t, isNew, w), flag, Set(vk, Gateway(true)));
    DoAllConcat(Bare(t), WriteIf(isNew, w), WriteIf(flag, Set(vk, Gateway(true))));
  }

  lemma BareRemoval(t: Txn, peer: Peer)
    ensures Bare(RemovePeerAction(t, peer)) == Bare(t).Do(RemovePeer(peer.Id()))
  {
    var t0 := t.Act(ActRemovePeer(peer.Id()));
    BareAct(t, ActRemovePeer(peer.Id()));
    BareDo(t0, RemovePeer(peer.Id()));
    var t1 := t0.Do(RemovePeer(peer.Id()));
    BareTrigger(t1, RemoveWgPeer(peer.descriptor.pk));
    var t2 := t1.Trigger(RemoveWgPeer(peer.descriptor.pk));
    BareTrigger(t2, RemoveRoutesOf(peer));
    BareTrigger(t2.Trigger(RemoveRoutesOf(peer)), RemoveGatewayRoutes);
  }

  lemma BareUpdate(t: Txn, base: State, peer: Peer, d: Descriptor, sys: SystemState)
    ensures Bare(UpdatePeer(t, base, peer, d, sys)) == DoAll(Bare(t), UpdateWrites(base, peer, d, sys))
  {
    var v4 := V4For(peer.pinned, peer.v4, d, base.prefs, sys);
    var v6 := V6For(peer.pinned, peer.v6, d, base.prefs, sys);
    var t1 := WriteTables(t, peer, v4, v6);
    var front := WriteIf(v4 != peer.v4, Set(peer.Id(), V4Table(v4)))
                 + WriteIf(v6 != peer.v6, Set(peer.Id(), V6Table(v6)));
    BareTables(t, peer, v4, v6);
    if On(v4) == {} && On(v6) == {} {
      BareRemoval(t1, peer);
      DoAllConcat(Bare(t), front, [RemovePeer(peer.Id())]);
      DoAllOne(Bare(t1), RemovePeer(peer.Id()));
    } else {
      var isNew, flag := NameIsNew(peer, d, base.prefs), AnnouncesGateway(d, sys, base.system.gateways);
      BareNameAndFlag(t1, peer.Id(), d.hostname, isNew, flag);
      DoAllConcat(Bare(t), front,
                  WriteIf(isNew, Set(peer.Id(), Nickname(d.hostname, true)))
                  + WriteIf(flag, Set(peer.Id(), Gateway(true))));
      BareTrigger(WriteNameAndFlag(t1, peer.Id(), d.hostname, isNew, flag), SyncPeer(peer.Id()));
    }
  }

  // ----- the events, bare -----

  lemma PlayEmpty(t: Txn, base: State)
    ensures Play(t, base, []) == t
  {
  }

  lemma PlayRaise(t: Txn, base: State)
    ensures Play(t, base, [Raise]) == t.Fail(FailedWrite)
  {
  }

  lemma PlayFailed(t: Txn, base: State, todo: seq<Task>)
    requires t.Failed()
    ensures Play(t, base, todo) == t
  {
  }

  lemma SetLeaves(t: Txn, vk: Key, f: Field)
    ensures var t1 := t.Do(Set(vk, f)); !t1.Failed() ==> vk in t1.next.peers.at
  {
  }

  lemma PlayRefresh(t: Txn, base: State, vk: Key, rest: seq<Task>)
    requires !t.Failed() && vk in t.next.peers.at
    ensures var peer := t.next.peers.at[vk];
            Play(t, base, [Refresh(vk)] + rest)
            == Play(DoAll(t, UpdateWrites(base, peer, peer.descriptor, base.system)), base, rest)
  {
    var peer := t.next.peers.at[vk];
    assert ([Refresh(vk)] + rest)[1..] == rest;
    PlayMakes(t, base, UpdateWrites(base, peer, peer.descriptor, base.system), rest);
  }

  lemma PlayMake(t: Txn, base: State, w: Write, rest: seq<Task>)
    ensures Play(t, base, [Make(w)] + rest) == Play(t.Do(w), base, rest)
  {
    assert ([Make(w)] + rest)[1..] == rest;
  }

  lemma BareEdit(t: Txn, base: State, vk: Key, f: Field, rest: seq<Task>)
    ensures Play(Bare(t), base, EditTasks(vk, f) + rest) == Play(Bare(EditPeerAction(t, base, vk, f)), base, rest)
  {
    var w := Set(vk, f);
    var t1 := t.Act(ActEdit(w)).Do(w);
    BareAct(t, ActEdit(w));
    BareDo(t.Act(ActEdit(w)), w);
    assert EditTasks(vk, f) + rest == [Make(w)] + ([Refresh(vk)] + rest);
    PlayMake(Bare(t), base, w, [Refresh(vk)] + rest);
    SetLeaves(t.Act(ActEdit(w)), vk, f);
    if t1.Failed() {
      PlayFailed(Bare(t1), base, [Refresh(vk)] + rest);
      PlayFailed(Bare(t1), base, rest);
    } else {
      var peer := t1.next.peers.at[vk];
      PlayRefresh(Bare(t1), base, vk, rest);
      BareUpdate(t1, base, peer, peer.descriptor, base.system);
      BareTrigger(UpdatePeer(t1, base, peer, peer.descriptor, base.system), RemoveUnknown);
    }
  }

  lemma BareEditAlone(t: Txn, base: State, vk: Key, f: Field)
    ensures Play(Bare(t), base, EditTasks(vk, f)) == Bare(EditPeerAction(t, base, vk, f))
  {
    BareEdit(t, base, vk, f, []);
    assert EditTasks(vk, f) + [] == EditTasks(vk, f);
  }

  lemma BareVerify(t: Txn, base: State, vk: Key, hostname: string)
    ensures Play(Bare(t), base, VerifyTasks(base, vk, hostname)) == Bare(RunVerify(t, base, vk, hostname))
  {
    var found := WithHostname(Values(base.peers), hostname);
    if found.Found? && vk == found.peer.Id() {
      BareEdit(t, base, vk, Verified(true), EditTasks(vk, Pinned(true)));
      BareEditAlone(EditPeerAction(t, base, vk, Verified(true)), base, vk, Pinned(true));
    } else {
      PlayRaise(Bare(t), base);
      BareFail(t, NameNotFound);
      BareFail(t, AmbiguousName);
      BareFail(t, WrongKey);
    }
  }

  lemma PlayOne(t: Txn, base: State, w: Write)
    ensures Play(t, base, [Make(w)]) == t.Do(w)
  {
    PlayMake(t, base, w, []);
    assert [Make(w)] + [] == [Make(w)];
  }

  lemma BareRemove(t: Txn, base: State, q: Query)
    ensures Play(Bare(t), base, RemoveTasks(base, q)) == Bare(RunRemove(t, base, q))
  {
    match LookUp(Values(base.peers), q)
    case Ambiguous =>
      PlayRaise(Bare(t), base);
      BareFail(t, AmbiguousQuery);
    case Missing =>
      BareAct(t, ActIgnore("no such peer"));
    case Found(peer) =>
      PlayOne(Bare(t), base, RemovePeer(peer.Id()));
      BareRemoval(t, peer);
  }

  lemma BareAddrAdd(t: Txn, base: State, vk: Key, ip: Option<IP>)
    ensures Play(Bare(t), base, AddrTasks(base, vk, ip, true)) == Bare(RunAddrAdd(t, base, vk, ip))
  {
    var t1 := t.Act(ActAddrAdd(vk, ip));
    BareAct(t, ActIgnore("no such peer"));
    BareAct(t, ActAddrAdd(vk, ip));
    if vk in base.peers.at && ip.Some? {
      var w := Set(vk, Addr(ip.value, true));
      PlayOne(Bare(t), base, w);
      BareDo(t1, w);
      BareTrigger(t1.Do(w), SyncPeer(base.peers.at[vk].Id()));
    } else {
      PlayRaise(Bare(t), base);
      BareFail(t1, BadValue);
    }
  }

  lemma BareAddrDel(t: Txn, base: State, vk: Key, ip: Option<IP>)
    ensures Play(Bare(t), base, AddrTasks(base, vk, ip, false)) == Bare(RunAddrDel(t, base, vk, ip))
  {
    var t1 := t.Act(ActAddrDel(vk, ip));
    BareAct(t, ActIgnore("no such peer"));
    BareAct(t, ActAddrDel(vk, ip));
    if vk in base.peers.at && ip.Some? {
      var w := RemoveAddr(vk, ip.value);
      PlayOne(Bare(t), base, w);
      BareDo(t1, w);
      BareTrigger(t1.Do(w), SyncPeer(base.peers.at[vk].Id()));
      BareTrigger(t1.Do(w).Trigger(SyncPeer(base.peers.at[vk].Id())), RemoveRoute(ip.value));
    } else {
      PlayRaise(Bare(t), base);
      BareFail(t1, BadValue);
    }
  }

  lemma BarePref(t: Txn, base: State, op: Operation, pref: Pref, value: Input)
    ensures Play(Bare(t), base, [Make(EditPrefs(op, pref, value))]) == Bare(EditPrefAction(t, op, pref, value))
  {
    var w := EditPrefs(op, pref, value);
    PlayOne(Bare(t), base, w);
    BareAct(t, ActEdit(w));
    BareDo(t.Act(ActEdit(w)), w);
    BareTrigger(t.Act(ActEdit(w)).Do(w), GetNewSystemState);
    BareTrigger(t.Act(ActEdit(w)).Do(w).Trigger(GetNewSystemState), RemoveUnknown);
  }

  lemma BareRelease(t: Txn, base: State)
    ensures Play(Bare(t), base, ReleaseTasks(base)) == Bare(RunRelease(t, base))
  {
    match FirstGateway(Values(base.peers))
    case None => BareAct(t, ActIgnore("no current gateway peer"));
    case Some(peer) =>
      BareEditAlone(t, base, peer.Id(), Gateway(false));
      BareTrigger(EditPeerAction(t, base, peer.Id(), Gateway(false)), GetNewSystemState);
  }

  lemma {:induction false} BareClaim(t: Txn, ps: seq<Peer>, gateways: seq<IP>)
    ensures Bare(ClaimGateway(t, ps, gateways)) == DoAll(Bare(t), ClaimWrites(ps, gateways))
  {
    if gateways != [] {
      var hits := Scan(ps, IpAttr, gateways[0]);
      if hits != [] {
        var w := Set(hits[0].Id(), Gateway(true));
        BareDo(t, w);
        BareTrigger(t.Do(w), SyncPeer(hits[0].Id()));
        DoAllOne(Bare(t), w);
      } else {
        BareClaim(t, ps, gateways[1..]);
      }
    }
  }

  lemma BareMove(t: Txn, ps: seq<Peer>, sys: SystemState)
    ensures Bare(MoveGateway(t, ps, sys)) == DoAll(Bare(t), MoveWrites(ps, sys))
  {
    var cur := FirstGateway(ps);
    var lost := if LosesGateway(cur, sys) then [Set(cur.value.Id(), Gateway(false))] else [];
    if LosesGateway(cur, sys) {
      var w := Set(cur.value.Id(), Gateway(false));
      BareDo(t, w);
      BareTrigger(t.Do(w), RemoveGatewayRoutes);
      DoAllOne(Bare(t), w);
    }
    assert Bare(ReleaseLost(t, cur, sys)) == DoAll(Bare(t), lost);
    var claims := if PinnedGateway(cur) then [] else ClaimWrites(ps, sys.gateways);
    BareClaim(ReleaseLost(t, cur, sys), ps, sys.gateways);
    DoAllConcat(Bare(t), lost, claims);
  }

  lemma {:induction false} BareSweep(t: Txn, base: State, ps: seq<Peer>, sys: SystemState)
    ensures Bare(UpdateAll(t, base, ps, sys)) == DoAll(Bare(t), SweepWrites(base, ps, sys))
  {
    if ps != [] {
      var init, last := ps[..|ps| - 1], ps[|ps| - 1];
      BareSweep(t, base, init, sys);
      BareUpdate(UpdateAll(t, base, init, sys), base, last, last.descriptor, sys);
      DoAllConcat(Bare(t), SweepWrites(base, init, sys), UpdateWrites(base, last, last.descriptor, sys));
    }
  }

  lemma BareAdjust(t: Txn, base: State, sys: SystemState)
    ensures Bare(Adjust(t, base, sys)) == DoAll(Bare(t), AdjustWrites(base, sys))
  {
    var ps := Values(base.peers);
    var t0 := t.Act(ActAdjust(sys));
    BareAct(t, ActAdjust(sys));
    BareMove(t0, ps, sys);
    var t1 := MoveGateway(t0, ps, sys);
    BareSweep(t1, base, ps, sys);
    DoAllConcat(Bare(t), MoveWrites(ps, sys), SweepWrites(base, ps, sys));
    var t2 := UpdateAll(t1, base, ps, sys);
    BareDo(t2, SetSystem(sys));
    DoAllConcat(Bare(t), MoveWrites(ps, sys) + SweepWrites(base, ps, sys), [SetSystem(sys)]);
    DoAllOne(Bare(t2), SetSystem(sys));
  }

  lemma {:induction false} BareRemovals(t: Txn, ps: seq<Peer>)
    ensures Bare(RemoveAllOf(t, ps)) == DoAll(Bare(t), RemovalWrites(ps))
  {
    if ps != [] {
      var init, last := ps[..|ps| - 1], ps[|ps| - 1];
      BareRemovals(t, init);
      BareRemoval(RemoveAllOf(t, init), last);
      DoAllConcat(Bare(t), RemovalWrites(init), [RemovePeer(last.Id())]);
      DoAllOne(Bare(RemoveAllOf(t, init)), RemovePeer(last.Id()));
    }
  }

  lemma BareArrival(t: Txn, base: State, peer: Peer, d: Descriptor, a: Action, w: Write)
    ensures Bare(UpdatePeer(t.Act(a).Do(w), base, peer, d, base.system)) ==
              DoAll(Bare(t), [w] + UpdateWrites(base, peer, d, base.system))
  {
    BareAct(t, a);
    BareDo(t.Act(a), w);
    BareUpdate(t.Act(a).Do(w), base, peer, d, base.system);
    DoAllOne(Bare(t), w);
    DoAllConcat(Bare(t), [w], UpdateWrites(base, peer, d, base.system));
  }

  lemma BareAdmit(t: Txn, base: State, d: Descriptor)
    ensures Bare(Admit(t, base, d)) == DoAll(Bare(t), AdmitWrites(base, d))
  {
    var gone := ConflictsForDescriptor(Values(base.peers), d);
    var t1 := RemoveAllOf(t, gone);
    BareRemovals(t, gone);
    if d.vk in base.peers.at {
      var peer := base.peers.at[d.vk];
      BareArrival(t1, base, peer, d, ActUpdateDescriptor(peer.Id(), d), Set(peer.Id(), Desc(d)));
      DoAllConcat(Bare(t), RemovalWrites(gone), [Set(peer.Id(), Desc(d))] + UpdateWrites(base, peer, d, base.system));
    } else {
      var peer := MakePeer(d, !d.e && base.prefs.pinNewPeers);
      BareArrival(t1, base, peer, d, ActAcceptNewPeer(d), PutPeer(d.vk, peer));
      DoAllConcat(Bare(t), RemovalWrites(gone), [PutPeer(d.vk, peer)] + UpdateWrites(base, peer, d, base.system));
    }
  }

  lemma BareJudged(t: Txn, base: State, d: Descriptor, v: Verdict)
    requires v == Judge(base, d)
    ensures Play(Bare(t), base, IncomingTasks(base, d)) == Bare(ProcessDescriptor(t, base, d))
  {
    match v
    case Broken =>
      PlayRaise(Bare(t), base);
      BareFail(t, MissingAttribute);
    case Ignored(reason) => BareAct(t, ActIgnore(reason));
    case Rejected(reason) => BareAct(t, ActReject(reason));
    case Admitted =>
      PlayAllMakes(Bare(t), base, AdmitWrites(base, d));
      BareAdmit(t, base, d);
  }

  lemma PlayIsUser(t: Txn, base: State, ev: Event)
    requires !ev.NewSystemState? && !ev.Incoming?
    ensures Play(Bare(t), base, Tasks(base, ev)) == Bare(RunUser(t, base, ev))
  {
    match ev
    case VerifyAndPin(vk, hostname) => BareVerify(t, base, vk, hostname);
    case UserRemovePeer(q) => BareRemove(t, base, q);
    case AddrAdd(vk, ip) => BareAddrAdd(t, base, vk, ip);
    case AddrDel(vk, ip) => BareAddrDel(t, base, vk, ip);
    case EditPeer(vk, f) => BareEditAlone(t, base, vk, f);
    case EditPref(op, pref, value) => BarePref(t, base, op, pref, value);
    case ReleaseGateway => BareRelease(t, base);
  }

  /** Playing an event's tasks on a copy of its own is running it, in what it writes and whether it fails. */
  lemma PlayIsRun(t: Txn, base: State, ev: Event)
    ensures Play(Bare(t), base, Tasks(base, ev)) == Bare(Run(t, base, ev))
  {
    match ev
    case NewSystemState(sys) =>
      PlayAllMakes(Bare(t), base, AdjustWrites(base, sys));
      BareAdjust(t, base, sys);
    case Incoming(d) => BareJudged(t, base, d, Judge(base, d));
    case _ => PlayIsUser(t, base, ev);
  }
}
