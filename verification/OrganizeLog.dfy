/** The write log of an event is complete: replaying it gives the committed state. */
module OrganizeLog {
  import opened Addresses
  import opened OrderedDict
  import opened Queryable
  import opened Peers
  import opened OrganizeModel

  /** Every logged write but the last, which may be the one that raised, can be replayed. */
  predicate ReplayableButLast(start: State, ws: seq<Write>) {
    ws == [] || Replay(start, ws[..|ws| - 1]).Some?
  }

  /** The copy is what the logged writes make of the state the event started from. */
  predicate Logged(t: Txn, start: State) {
    && (t.Failed() || Replay(start, t.result.writes) == Some(t.next))
    && ReplayableButLast(start, t.result.writes)
  }

  lemma DoLogged(t: Txn, start: State, w: Write)
    requires Logged(t, start)
    ensures Logged(t.Do(w), start)
  {
    var ws := t.result.writes;
    assert (ws + [w])[..|ws|] == ws;
  }

  lemma DoIfLogged(t: Txn, start: State, needed: bool, w: Write)
    requires Logged(t, start)
    ensures Logged(DoIf(t, needed, w), start)
  {
    DoLogged(t, start, w);
  }

  lemma RemoveLogged(t: Txn, start: State, peer: Peer)
    requires Logged(t, start)
    ensures Logged(RemovePeerAction(t, peer), start)
  {
    DoLogged(t.Act(ActRemovePeer(peer.Id())), start, RemovePeer(peer.Id()));
  }

  lemma TablesLogged(t: Txn, start: State, peer: Peer, v4: map<IPv4, bool>, v6: map<IPv6, bool>)
    requires Logged(t, start)
    ensures Logged(WriteTables(t, peer, v4, v6), start)
  {
    var w4 := Set(peer.Id(), V4Table(v4));
    DoIfLogged(t, start, v4 != peer.v4, w4);
    DoIfLogged(DoIf(t, v4 != peer.v4, w4), start, v6 != peer.v6, Set(peer.Id(), V6Table(v6)));
  }

  lemma NameAndFlagLogged(t: Txn, start: State, vk: Key, name: string, isNew: bool, flag: bool)
    requires Logged(t, start)
    ensures Logged(WriteNameAndFlag(t, vk, name, isNew, flag), start)
  {
    var w := Set(vk, Nickname(name, true));
    DoIfLogged(t, start, isNew, w);
    DoIfLogged(DoIf(t, isNew, w), start, flag, Set(vk, Gateway(true)));
  }

  lemma UpdateLogged(t: Txn, start: State, base: State, peer: Peer, d: Descriptor, sys: SystemState)
    requires Logged(t, start)
    ensures Logged(UpdatePeer(t, base, peer, d, sys), start)
  {
    var v4 := V4For(peer.pinned, peer.v4, d, base.prefs, sys);
    var v6 := V6For(peer.pinned, peer.v6, d, base.prefs, sys);
    TablesLogged(t, start, peer, v4, v6);
    var t1 := WriteTables(t, peer, v4, v6);
    if On(v4) == {} && On(v6) == {} {
      RemoveLogged(t1, start, peer);
    } else {
      NameAndFlagLogged(t1, start, peer.Id(), d.hostname, NameIsNew(peer, d, base.prefs),
                        AnnouncesGateway(d, sys, base.system.gateways));
    }
  }

  lemma EditLogged(t: Txn, start: State, base: State, vk: Key, f: Field)
    requires Logged(t, start)
    ensures Logged(EditPeerAction(t, base, vk, f), start)
  {
    DoLogged(t.Act(ActEdit(Set(vk, f))), start, Set(vk, f));
    var t1 := t.Act(ActEdit(Set(vk, f))).Do(Set(vk, f));
    if !t1.Failed() && vk in t1.next.peers.at {
      var q := t1.next.peers.at[vk];
      UpdateLogged(t1, start, base, q, q.descriptor, base.system);
    }
  }

  lemma {:induction false} RemoveAllLogged(t: Txn, start: State, gone: seq<Peer>)
    requires Logged(t, start)
    ensures Logged(RemoveAllOf(t, gone), start)
  {
    if gone != [] {
      RemoveAllLogged(t, start, gone[..|gone| - 1]);
      RemoveLogged(RemoveAllOf(t, gone[..|gone| - 1]), start, gone[|gone| - 1]);
    }
  }

  lemma {:induction false} UpdateAllLogged(t: Txn, start: State, base: State, ps: seq<Peer>, sys: SystemState)
    requires Logged(t, start)
    ensures Logged(UpdateAll(t, base, ps, sys), start)
  {
    if ps != [] {
      var last := ps[|ps| - 1];
      UpdateAllLogged(t, start, base, ps[..|ps| - 1], sys);
      UpdateLogged(UpdateAll(t, base, ps[..|ps| - 1], sys), start, base, last, last.descriptor, sys);
    }
  }

  lemma {:induction false} ClaimLogged(t: Txn, start: State, ps: seq<Peer>, gateways: seq<IP>)
    requires Logged(t, start)
    ensures Logged(ClaimGateway(t, ps, gateways), start)
  {
    if gateways != [] {
      var hits := Scan(ps, IpAttr, gateways[0]);
      if hits != [] {
        DoLogged(t, start, Set(hits[0].Id(), Gateway(true)));
      } else {
        ClaimLogged(t, start, ps, gateways[1..]);
      }
    }
  }

  lemma MoveGatewayLogged(t: Txn, start: State, ps: seq<Peer>, sys: SystemState)
    requires Logged(t, start)
    ensures Logged(MoveGateway(t, ps, sys), start)
  {
    var cur := FirstGateway(ps);
    if LosesGateway(cur, sys) {
      DoLogged(t, start, Set(cur.value.Id(), Gateway(false)));
    }
    ClaimLogged(ReleaseLost(t, cur, sys), start, ps, sys.gateways);
  }

  lemma AdjustLogged(t: Txn, start: State, base: State, sys: SystemState)
    requires Logged(t, start)
    ensures Logged(Adjust(t, base, sys), start)
  {
    var ps := Values(base.peers);
    MoveGatewayLogged(t.Act(ActAdjust(sys)), start, ps, sys);
    UpdateAllLogged(MoveGateway(t.Act(ActAdjust(sys)), ps, sys), start, base, ps, sys);
    DoLogged(UpdateAll(MoveGateway(t.Act(ActAdjust(sys)), ps, sys), base, ps, sys), start, SetSystem(sys));
  }

  lemma AcceptLogged(t: Txn, start: State, base: State, d: Descriptor)
    requires Logged(t, start)
    ensures Logged(AcceptNewPeer(t, base, d), start)
  {
    var peer := MakePeer(d, !d.e && base.prefs.pinNewPeers);
    DoLogged(t.Act(ActAcceptNewPeer(d)), start, PutPeer(d.vk, peer));
    UpdateLogged(t.Act(ActAcceptNewPeer(d)).Do(PutPeer(d.vk, peer)), start, base, peer, d, base.system);
  }

  lemma DescriptorLogged(t: Txn, start: State, base: State, peer: Peer, d: Descriptor)
    requires Logged(t, start)
    ensures Logged(UpdateDescriptor(t, base, peer, d), start)
  {
    var w := Set(peer.Id(), Desc(d));
    DoLogged(t.Act(ActUpdateDescriptor(peer.Id(), d)), start, w);
    UpdateLogged(t.Act(ActUpdateDescriptor(peer.Id(), d)).Do(w), start, base, peer, d, base.system);
  }

  lemma AdmitLogged(t: Txn, start: State, base: State, d: Descriptor)
    requires Logged(t, start)
    ensures Logged(Admit(t, base, d), start)
  {
    var gone := ConflictsForDescriptor(Values(base.peers), d);
    RemoveAllLogged(t, start, gone);
    if d.vk in base.peers.at {
      DescriptorLogged(RemoveAllOf(t, gone), start, base, base.peers.at[d.vk], d);
    } else {
      AcceptLogged(RemoveAllOf(t, gone), start, base, d);
    }
  }

  lemma PinLogged(t: Txn, start: State, base: State, vk: Key)
    requires Logged(t, start)
    ensures Logged(EditPeerAction(EditPeerAction(t, base, vk, Verified(true)), base, vk, Pinned(true)), start)
  {
    EditLogged(t, start, base, vk, Verified(true));
    EditLogged(EditPeerAction(t, base, vk, Verified(true)), start, base, vk, Pinned(true));
  }

  lemma FoundLogged(t: Txn, start: State, base: State, vk: Key, found: Lookup)
    requires Logged(t, start)
    ensures Logged(VerifyFound(t, base, vk, found), start)
  {
    PinLogged(t, start, base, vk);
  }

  lemma VerifyLogged(t: Txn, start: State, base: State, vk: Key, hostname: string)
    requires Logged(t, start)
    ensures Logged(RunVerify(t, base, vk, hostname), start)
  {
    FoundLogged(t, start, base, vk, WithHostname(Values(base.peers), hostname));
  }

  lemma RemoveQueryLogged(t: Txn, start: State, base: State, q: Query)
    requires Logged(t, start)
    ensures Logged(RunRemove(t, base, q), start)
  {
    if LookUp(Values(base.peers), q).Found? {
      RemoveLogged(t, start, LookUp(Values(base.peers), q).peer);
    }
  }

  lemma AddrLogged(t: Txn, start: State, base: State, vk: Key, ip: Option<IP>)
    requires Logged(t, start)
    ensures Logged(RunAddrAdd(t, base, vk, ip), start)
    ensures Logged(RunAddrDel(t, base, vk, ip), start)
  {
    if ip.Some? {
      DoLogged(t.Act(ActAddrAdd(vk, ip)), start, Set(vk, Addr(ip.value, true)));
      DoLogged(t.Act(ActAddrDel(vk, ip)), start, RemoveAddr(vk, ip.value));
    }
  }

  lemma ReleaseLogged(t: Txn, start: State, base: State)
    requires Logged(t, start)
    ensures Logged(RunRelease(t, base), start)
  {
    var cur := FirstGateway(Values(base.peers));
    if cur.Some? {
      EditLogged(t, start, base, cur.value.Id(), Gateway(false));
    }
  }

  lemma JudgedLogged(t: Txn, start: State, base: State, d: Descriptor, v: Verdict)
    requires Logged(t, start) && v == Judge(base, d)
    ensures Logged(ProcessDescriptor(t, base, d), start)
  {
    if v.Admitted? {
      AdmitLogged(t, start, base, d);
    }
  }

  lemma IncomingLogged(t: Txn, start: State, base: State, d: Descriptor)
    requires Logged(t, start)
    ensures Logged(ProcessDescriptor(t, base, d), start)
  {
    JudgedLogged(t, start, base, d, Judge(base, d));
  }

  lemma PrefLogged(t: Txn, start: State, op: Operation, pref: Pref, value: Input)
    requires Logged(t, start)
    ensures Logged(EditPrefAction(t, op, pref, value), start)
  {
    var w := EditPrefs(op, pref, value);
    DoLogged(t.Act(ActEdit(w)), start, w);
  }

  lemma UserLogged(t: Txn, start: State, base: State, ev: Event)
    requires Logged(t, start)
    ensures Logged(RunUser(t, base, ev), start)
  {
    match ev
    case VerifyAndPin(vk, hostname) => VerifyLogged(t, start, base, vk, hostname);
    case UserRemovePeer(q) => RemoveQueryLogged(t, start, base, q);
    case AddrAdd(vk, ip) => AddrLogged(t, start, base, vk, ip);
    case AddrDel(vk, ip) => AddrLogged(t, start, base, vk, ip);
    case EditPeer(vk, f) => EditLogged(t, start, base, vk, f);
    case EditPref(op, pref, value) => PrefLogged(t, start, op, pref, value);
    case ReleaseGateway => ReleaseLogged(t, start, base);
    case _ =>
  }

  lemma RunLogged(t: Txn, base: State, ev: Event)
    requires Logged(t, base)
    ensures Logged(Run(t, base, ev), base)
  {
    match ev
    case NewSystemState(sys) => AdjustLogged(t, base, base, sys);
    case Incoming(d) => IncomingLogged(t, base, base, d);
    case _ => UserLogged(t, base, base, ev);
  }

  lemma BeginLogged(base: State, ev: Event)
    ensures Logged(Begin(base, ev), base)
  {
  }

  /**
   * A successful event's log, folded over the old state, is the new state, and the
   * new state passed the schema; a failed event changes nothing and runs no trigger.
   */
  lemma WriteLogComplete(base: State, ev: Event)
    ensures var o := Step(base, ev);
            && (o.result.error.None? ==> Replay(base, o.result.writes) == Some(o.state) && SchemaOk(o.state))
            && (o.result.error.Some? ==> o.state == base && o.result.triggers == [])
  {
    BeginLogged(base, ev);
    RunLogged(Begin(base, ev), base, ev);
  }

  /** The logs of a run's successful events, in order. */
  function LogOf(st: State, evs: seq<Event>): seq<Write> {
    if evs == [] then []
    else
      var before := evs[..|evs| - 1];
      var r := Step(RunAll(st, before), evs[|evs| - 1]).result;
      LogOf(st, before) + if r.error.None? then r.writes else []
  }

  lemma ReplaySnoc(st: State, ws: seq<Write>, w: Write, mid: Option<State>)
    requires mid == Replay(st, ws)
    ensures Replay(st, ws + [w]) == match mid { case None => None case Some(s) => ApplyWrite(s, w) }
  {
    assert (ws + [w])[..|ws|] == ws;
  }

  lemma SameStep(st: State, ws: seq<Write>, mid: State, vs: seq<Write>, w: Write)
    requires Replay(st, ws) == Replay(mid, vs)
    ensures Replay(st, ws + [w]) == Replay(mid, vs + [w])
  {
    ReplaySnoc(st, ws, w, Replay(st, ws));
    ReplaySnoc(mid, vs, w, Replay(mid, vs));
  }

  lemma LastApart(xs: seq<Write>, ys: seq<Write>)
    requires ys != []
    ensures xs + ys[..|ys| - 1] + [ys[|ys| - 1]] == xs + ys && ys[..|ys| - 1] + [ys[|ys| - 1]] == ys
  {
  }

  lemma {:induction false} ReplayConcat(st: State, xs: seq<Write>, ys: seq<Write>)
    requires Replay(st, xs).Some?
    ensures Replay(st, xs + ys) == Replay(Replay(st, xs).value, ys)
  {
    if ys == [] {
      assert xs + ys == xs;
    } else {
      var init, last := ys[..|ys| - 1], ys[|ys| - 1];
      ReplayConcat(st, xs, init);
      SameStep(st, xs + init, Replay(st, xs).value, init, last);
      LastApart(xs, ys);
    }
  }

  /** A whole run is recovered from the writes of its successful events alone. */
  lemma {:induction false} RunReplaysFromLog(st: State, evs: seq<Event>)
    ensures Replay(st, LogOf(st, evs)) == Some(RunAll(st, evs))
  {
    if evs != [] {
      var before := evs[..|evs| - 1];
      RunReplaysFromLog(st, before);
      WriteLogComplete(RunAll(st, before), evs[|evs| - 1]);
      var r := Step(RunAll(st, before), evs[|evs| - 1]).result;
      ReplayConcat(st, LogOf(st, before), if r.error.None? then r.writes else []);
    }
  }
}
