/**
 * The organize state engine as an object: events take a copy of the committed
 * state, actions change the copy through write methods that keep a log, and the
 * event commits the copy or drops it.
 */
module OrganizeEngine {
  import opened Addresses
  import opened OrderedDict
  import opened Queryable
  import opened Peers
  import opened OrganizeModel
  import opened OrganizeEffects
  import opened OrganizeInvariant
  import opened OrganizeAdmission
  import opened OrganizeOutcomes

  /** Raised is an exception on its way out to the event that catches it. */
  datatype Status = Normal | Raised {
    predicate IsFailure() {
      Raised?
    }

    function PropagateFailure(): Status
      requires IsFailure()
    {
      this
    }
  }

  /** The record of a peer that is known as it is on record is refreshed, and nothing else changes. */
  ghost predicate Refreshes(before: State, after: State, peer: Peer, d: Descriptor, base: State, sys: SystemState,
                            s: Status) {
    peer.Id() in before.peers.at && Agrees(peer, before.peers.at[peer.Id()]) ==>
      && s.Normal?
      && after == before.(peers := Settle(before.peers, peer.Id(), Refresh(before.peers.at[peer.Id()], d, base, sys)))
  }

  lemma RefreshesExactly(t: Txn, base: State, peer: Peer, d: Descriptor, sys: SystemState)
    requires !t.Failed()
    ensures var r := UpdatePeer(t, base, peer, d, sys);
            Refreshes(t.next, r.next, peer, d, base, sys, if r.Failed() then Raised else Normal)
  {
    if peer.Id() in t.next.peers.at && Agrees(peer, t.next.peers.at[peer.Id()]) {
      UpdatePeerEffect(t, t.next, t.next.peers, base, peer, d, sys);
    }
  }

  // What is skipped once an exception was raised.

  lemma {:induction false} RemoveAllSkips(t: Txn, ps: seq<Peer>, i: nat)
    requires i <= |ps| && RemoveAllOf(t, ps[..i]).Failed()
    ensures RemoveAllOf(t, ps) == RemoveAllOf(t, ps[..i])
    decreases |ps| - i
  {
    if i < |ps| {
      assert ps[..i + 1][..i] == ps[..i];
      RemoveAllSkips(t, ps, i + 1);
    } else {
      assert ps[..i] == ps;
    }
  }

  lemma UpdateSkips(t: Txn, base: State, peer: Peer, d: Descriptor, sys: SystemState)
    requires t.Failed()
    ensures UpdatePeer(t, base, peer, d, sys) == t
  {
  }

  lemma {:induction false} UpdateAllSkips(t: Txn, base: State, ps: seq<Peer>, sys: SystemState, i: nat)
    requires i <= |ps| && UpdateAll(t, base, ps[..i], sys).Failed()
    ensures UpdateAll(t, base, ps, sys) == UpdateAll(t, base, ps[..i], sys)
    decreases |ps| - i
  {
    if i < |ps| {
      assert ps[..i + 1][..i] == ps[..i];
      UpdateSkips(UpdateAll(t, base, ps[..i], sys), base, ps[i], ps[i].descriptor, sys);
      UpdateAllSkips(t, base, ps, sys, i + 1);
    } else {
      assert ps[..i] == ps;
    }
  }

  // Which rule an event follows, and what the commit makes of it.

  lemma UserStep(st: State, ev: Event, t: Txn)
    requires !ev.NewSystemState? && !ev.Incoming?
    requires RunUser(Begin(st, ev), st, ev) == t
    ensures Finish(st, t) == Step(st, ev)
  {
  }

  lemma IncomingStep(st: State, d: Descriptor, t: Txn)
    requires ProcessDescriptor(Begin(st, Incoming(d)), st, d) == t
    ensures Finish(st, t) == Step(st, Incoming(d))
  {
  }

  lemma ReleaseIsUser(t: Txn, st: State, ev: Event)
    requires ev.ReleaseGateway?
    ensures RunUser(t, st, ev) == RunRelease(t, st)
  {
  }

  lemma VerifyIsUser(t: Txn, st: State, ev: Event)
    requires ev.VerifyAndPin?
    ensures RunUser(t, st, ev) == RunVerify(t, st, ev.vk, ev.hostname)
  {
  }

  lemma PrefIsUser(t: Txn, st: State, ev: Event)
    requires ev.EditPref?
    ensures RunUser(t, st, ev) == EditPrefAction(t, ev.op, ev.pref, ev.value)
  {
  }

  lemma PeerIsUser(t: Txn, st: State, ev: Event)
    requires ev.EditPeer?
    ensures RunUser(t, st, ev) == EditPeerAction(t, st, ev.vk, ev.field)
  {
  }

  lemma {:induction false} ClaimSkips(t: Txn, ps: seq<Peer>, gateways: seq<IP>)
    requires t.Failed()
    ensures ClaimGateway(t, ps, gateways) == t
  {
    if gateways != [] {
      ClaimSkips(t, ps, gateways[1..]);
    }
  }

  class OrganizeState {
    var state: State
    var nextState: Option<State>
    var result: Option<Result>

    constructor ()
      ensures state == InitialState() && Valid()
    {
      state := InitialState();
      nextState := None;
      result := None;
      InitialInv();
    }

    /** No event is running. */
    predicate Idle()
      reads this
    {
      nextState.None? && result.None?
    }

    /** Between events: the committed state meets the invariant. */
    ghost predicate Valid()
      reads this
    {
      Idle() && Inv(state)
    }

    predicate InEvent()
      reads this
    {
      nextState.Some? && result.Some?
    }

    /** The running event's copy and its record so far. */
    function Pending(): Txn
      reads this
      requires InEvent()
    {
      Txn(nextState.value, result.value)
    }

    // ----- writes and notes -----

    method Write(w: Write) returns (s: Status)
      requires InEvent() && !Pending().Failed()
      modifies this`nextState, this`result
      ensures InEvent() && Pending() == old(Pending()).Do(w)
      ensures s.Raised? <==> Pending().Failed()
      ensures Pending().result.writes == old(Pending().result.writes) + [w]
      ensures ApplyWrite(old(nextState.value), w) == if s.Raised? then None else nextState
      ensures s.Raised? ==> nextState == old(nextState)
    {
      var r := result.value;
      result := Some(r.(writes := r.writes + [w]));
      match ApplyWrite(nextState.value, w) {
        case None =>
          result := Some(result.value.(error := Some(FailedWrite)));
          return Raised;
        case Some(st) =>
          nextState := Some(st);
          return Normal;
      }
    }

    method Note(a: Action)
      requires InEvent() && !Pending().Failed()
      modifies this`result
      ensures InEvent() && Pending() == old(Pending()).Act(a)
    {
      var r := result.value;
      result := Some(r.(actions := r.actions + [a]));
    }

    method AddTrigger(g: Trigger)
      requires InEvent() && !Pending().Failed()
      modifies this`result
      ensures InEvent() && Pending() == old(Pending()).Trigger(g)
    {
      var r := result.value;
      result := Some(r.(triggers := r.triggers + [g]));
    }

    method Raise(e: Error)
      requires InEvent() && !Pending().Failed()
      modifies this`result
      ensures InEvent() && Pending() == old(Pending()).Fail(e)
    {
      result := Some(result.value.(error := Some(e)));
    }

    // ----- actions -----

    method ForgetPeer(peer: Peer) returns (s: Status)
      requires InEvent() && !Pending().Failed()
      modifies this`nextState, this`result
      ensures InEvent() && Pending() == RemovePeerAction(old(Pending()), peer)
      ensures s.Raised? <==> Pending().Failed()
    {
      Note(ActRemovePeer(peer.Id()));
      :- Write(RemovePeer(peer.Id()));
      AddTrigger(RemoveWgPeer(peer.descriptor.pk));
      AddTrigger(RemoveRoutesOf(peer));
      if peer.gateway {
        AddTrigger(RemoveGatewayRoutes);
      }
      s := Normal;
    }

    method WriteIf(needed: bool, w: Write) returns (s: Status)
      requires InEvent() && !Pending().Failed()
      modifies this`nextState, this`result
      ensures InEvent() && Pending() == DoIf(old(Pending()), needed, w)
      ensures s.Raised? <==> Pending().Failed()
    {
      if needed {
        :- Write(w);
      }
      s := Normal;
    }

    method UpdateTables(peer: Peer, v4: map<IPv4, bool>, v6: map<IPv6, bool>) returns (s: Status)
      requires InEvent() && !Pending().Failed()
      modifies this`nextState, this`result
      ensures InEvent() && Pending() == WriteTables(old(Pending()), peer, v4, v6)
      ensures s.Raised? <==> Pending().Failed()
    {
      s := Normal;
      :- WriteIf(v4 != peer.v4, Set(peer.Id(), V4Table(v4)));
      :- WriteIf(v6 != peer.v6, Set(peer.Id(), V6Table(v6)));
    }

    method UpdateNameAndFlag(vk: Key, name: string, isNew: bool, flag: bool) returns (s: Status)
      requires InEvent() && !Pending().Failed()
      modifies this`nextState, this`result
      ensures InEvent() && Pending() == WriteNameAndFlag(old(Pending()), vk, name, isNew, flag)
      ensures s.Raised? <==> Pending().Failed()
    {
      s := Normal;
      :- WriteIf(isNew, Set(vk, Nickname(name, true)));
      :- WriteIf(flag, Set(vk, Gateway(true)));
    }

    method UpdatePeer(peer: Peer, d: Descriptor, sys: SystemState) returns (s: Status)
      requires InEvent() && !Pending().Failed()
      modifies this`nextState, this`result
      ensures InEvent() && Pending() == OrganizeModel.UpdatePeer(old(Pending()), state, peer, d, sys)
      ensures s.Raised? <==> Pending().Failed()
      ensures Refreshes(old(nextState.value), nextState.value, peer, d, state, sys, s)
    {
      RefreshesExactly(Pending(), state, peer, d, sys);
      var v4 := V4For(peer.pinned, peer.v4, d, state.prefs, sys);
      var v6 := V6For(peer.pinned, peer.v6, d, state.prefs, sys);
      :- UpdateTables(peer, v4, v6);
      if On(v4) == {} && On(v6) == {} {
        s := ForgetPeer(peer);
        return;
      }
      :- UpdateNameAndFlag(peer.Id(), d.hostname, NameIsNew(peer, d, state.prefs),
                           AnnouncesGateway(d, sys, state.system.gateways));
      AddTrigger(SyncPeer(peer.Id()));
      s := Normal;
    }

    method EditPeerField(vk: Key, f: Field) returns (s: Status)
      requires InEvent() && !Pending().Failed()
      modifies this`nextState, this`result
      ensures InEvent() && Pending() == EditPeerAction(old(Pending()), state, vk, f)
      ensures s.Raised? <==> Pending().Failed()
    {
      Note(ActEdit(Set(vk, f)));
      :- Write(Set(vk, f));
      var edited := nextState.value.peers.at[vk];
      :- UpdatePeer(edited, edited.descriptor, state.system);
      AddTrigger(RemoveUnknown);
      s := Normal;
    }

    method EditPrefValue(op: Operation, pref: Pref, value: Input) returns (s: Status)
      requires InEvent() && !Pending().Failed()
      modifies this`nextState, this`result
      ensures InEvent() && Pending() == EditPrefAction(old(Pending()), op, pref, value)
      ensures s.Raised? <==> Pending().Failed()
    {
      Note(ActEdit(EditPrefs(op, pref, value)));
      :- Write(EditPrefs(op, pref, value));
      AddTrigger(GetNewSystemState);
      AddTrigger(RemoveUnknown);
      s := Normal;
    }

    method ClaimGateway(ps: seq<Peer>, gateways: seq<IP>) returns (s: Status)
      requires InEvent() && !Pending().Failed()
      modifies this`nextState, this`result
      ensures InEvent() && Pending() == OrganizeModel.ClaimGateway(old(Pending()), ps, gateways)
      ensures s.Raised? <==> Pending().Failed()
    {
      ghost var before := Pending();
      var byIp := By(ps, IpAttr);
      for i := 0 to |gateways|
        invariant InEvent() && Pending() == before && !Pending().Failed()
        invariant OrganizeModel.ClaimGateway(before, ps, gateways)
                  == OrganizeModel.ClaimGateway(before, ps, gateways[i..])
      {
        var hit := Get(byIp, gateways[i]);
        assert hit == Scan(ps, IpAttr, gateways[i]);
        assert gateways[i..][1..] == gateways[i + 1..];
        if hit != [] {
          :- Write(Set(hit[0].Id(), Gateway(true)));
          AddTrigger(SyncPeer(hit[0].Id()));
          return Normal;
        }
      }
      s := Normal;
    }

    method ReleaseLostGateway(cur: Option<Peer>, sys: SystemState) returns (s: Status)
      requires InEvent() && !Pending().Failed()
      modifies this`nextState, this`result
      ensures InEvent() && Pending() == ReleaseLost(old(Pending()), cur, sys)
      ensures s.Raised? <==> Pending().Failed()
    {
      if LosesGateway(cur, sys) {
        :- Write(Set(cur.value.Id(), Gateway(false)));
        AddTrigger(RemoveGatewayRoutes);
      }
      s := Normal;
    }

    method UpdateEveryPeer(ps: seq<Peer>, sys: SystemState) returns (s: Status)
      requires InEvent() && !Pending().Failed()
      modifies this`nextState, this`result
      ensures InEvent() && Pending() == UpdateAll(old(Pending()), state, ps, sys)
      ensures s.Raised? <==> Pending().Failed()
    {
      ghost var before := Pending();
      for i := 0 to |ps|
        invariant InEvent() && Pending() == UpdateAll(before, state, ps[..i], sys) && !Pending().Failed()
      {
        assert ps[..i + 1][..i] == ps[..i];
        s := UpdatePeer(ps[i], ps[i].descriptor, sys);
        if s.Raised? {
          UpdateAllSkips(before, state, ps, sys, i + 1);
          return;
        }
      }
      assert ps[..|ps|] == ps;
      s := Normal;
    }

    method AdjustToNewSystemState(sys: SystemState) returns (s: Status)
      requires InEvent() && !Pending().Failed()
      modifies this`nextState, this`result
      ensures InEvent() && Pending() == Adjust(old(Pending()), state, sys)
      ensures s.Raised? <==> Pending().Failed()
    {
      ghost var before := Pending().Act(ActAdjust(sys));
      Note(ActAdjust(sys));
      var ps := Values(state.peers);
      s := MoveGatewayFlag(ps, sys);
      if s.Raised? {
        UpdateAllSkips(Pending(), state, ps, sys, 0);
        return;
      }
      :- UpdateEveryPeer(ps, sys);
      s := Write(SetSystem(sys));
    }

    method MoveGatewayFlag(ps: seq<Peer>, sys: SystemState) returns (s: Status)
      requires InEvent() && !Pending().Failed()
      modifies this`nextState, this`result
      ensures InEvent() && Pending() == MoveGateway(old(Pending()), ps, sys)
      ensures s.Raised? <==> Pending().Failed()
    {
      var cur := FirstGateway(ps);
      s := ReleaseLostGateway(cur, sys);
      if s.Raised? {
        ClaimSkips(Pending(), ps, sys.gateways);
        return;
      }
      if !PinnedGateway(cur) {
        :- ClaimGateway(ps, sys.gateways);
      }
      s := Normal;
    }

    method RemoveAll(ps: seq<Peer>) returns (s: Status)
      requires InEvent() && !Pending().Failed()
      modifies this`nextState, this`result
      ensures InEvent() && Pending() == RemoveAllOf(old(Pending()), ps)
      ensures s.Raised? <==> Pending().Failed()
    {
      ghost var before := Pending();
      for i := 0 to |ps|
        invariant InEvent() && Pending() == RemoveAllOf(before, ps[..i]) && !Pending().Failed()
      {
        assert ps[..i + 1][..i] == ps[..i];
        s := ForgetPeer(ps[i]);
        if s.Raised? {
          RemoveAllSkips(before, ps, i + 1);
          return;
        }
      }
      assert ps[..|ps|] == ps;
      s := Normal;
    }

    method AcceptPeer(d: Descriptor) returns (s: Status)
      requires InEvent() && !Pending().Failed()
      modifies this`nextState, this`result
      ensures InEvent() && Pending() == AcceptNewPeer(old(Pending()), state, d)
      ensures s.Raised? <==> Pending().Failed()
    {
      Note(ActAcceptNewPeer(d));
      var peer := MakePeer(d, !d.e && state.prefs.pinNewPeers);
      var _ := Write(PutPeer(d.vk, peer));
      s := UpdatePeer(peer, d, state.system);
    }

    method UpdatePeerDescriptor(peer: Peer, d: Descriptor) returns (s: Status)
      requires InEvent() && !Pending().Failed()
      modifies this`nextState, this`result
      ensures InEvent() && Pending() == UpdateDescriptor(old(Pending()), state, peer, d)
      ensures s.Raised? <==> Pending().Failed()
    {
      Note(ActUpdateDescriptor(peer.Id(), d));
      :- Write(Set(peer.Id(), Desc(d)));
      s := UpdatePeer(peer, d, state.system);
    }

    method AdmitDescriptor(conflicts: seq<Peer>, d: Descriptor) returns (s: Status)
      requires InEvent() && !Pending().Failed()
      requires conflicts == ConflictsForDescriptor(Values(state.peers), d)
      modifies this`nextState, this`result
      ensures InEvent() && Pending() == Admit(old(Pending()), state, d)
      ensures s.Raised? <==> Pending().Failed()
    {
      s := RemoveAll(conflicts);
      if s.Raised? {
        UpdateSkips(Pending(), state, MakePeer(d, !d.e && state.prefs.pinNewPeers), d, state.system);
        if d.vk in state.peers.at {
          UpdateSkips(Pending(), state, state.peers.at[d.vk], d, state.system);
        }
        return;
      }
      if d.vk in state.peers.at {
        s := UpdatePeerDescriptor(state.peers.at[d.vk], d);
      } else {
        s := AcceptPeer(d);
      }
    }

    // ----- events -----

    /** Take the copy, as the event decorator does under the lock. */
    method Start(ev: Event)
      requires Idle()
      modifies this`nextState, this`result
      ensures InEvent() && Pending() == Begin(state, ev)
    {
      nextState := Some(state);
      result := Some(Result(ev, [], [], [], None));
    }

    /** Validate the copy; commit it or drop it. */
    method Commit() returns (r: Result)
      requires InEvent()
      modifies this
      ensures Idle() && Outcome(state, r) == Finish(old(state), old(Pending()))
    {
      r := result.value;
      if r.error.None? {
        if SchemaOk(nextState.value) {
          if nextState.value != state {
            state := nextState.value;
          }
        } else {
          r := r.(error := Some(ConflictingPeers));
        }
      }
      if r.error.Some? {
        r := r.(triggers := []);
      }
      nextState := None;
      result := None;
    }

    method MarkVerified(vk: Key, hostname: string)
      requires InEvent() && !Pending().Failed()
      modifies this`nextState, this`result
      ensures InEvent() && Pending() == RunVerify(old(Pending()), state, vk, hostname)
    {
      match WithHostname(Values(state.peers), hostname) {
        case Missing => Raise(NameNotFound);
        case Ambiguous => Raise(AmbiguousName);
        case Found(peer) =>
          if vk != peer.Id() {
            Raise(WrongKey);
          } else {
            var s := EditPeerField(vk, Verified(true));
            if s.Normal? {
              s := EditPeerField(vk, Pinned(true));
            }
          }
      }
    }

    method VerifyAndPinPeer(vk: Key, hostname: string) returns (r: Result)
      requires Valid()
      modifies this
      ensures Valid() && Outcome(state, r) == Step(old(state), VerifyAndPin(vk, hostname))
      ensures Verifies(old(state), vk, hostname, Outcome(state, r))
    {
      StepStaysOk(state, VerifyAndPin(vk, hostname));
      VerifiesExactly(state, vk, hostname);
      VerifyIsUser(Begin(state, VerifyAndPin(vk, hostname)), state, VerifyAndPin(vk, hostname));
      UserStep(state, VerifyAndPin(vk, hostname),
               RunVerify(Begin(state, VerifyAndPin(vk, hostname)), state, vk, hostname));
      Start(VerifyAndPin(vk, hostname));
      MarkVerified(vk, hostname);
      r := Commit();
    }

    method UserRemove(q: Query) returns (r: Result)
      requires Valid()
      modifies this
      ensures Valid() && Outcome(state, r) == Step(old(state), UserRemovePeer(q))
      ensures Forgets(old(state), q, Outcome(state, r))
    {
      StepStaysOk(state, UserRemovePeer(q));
      ForgetsExactly(state, q);
      Start(UserRemovePeer(q));
      match LookUp(Values(state.peers), q) {
        case Ambiguous => Raise(AmbiguousQuery);
        case Missing => Note(ActIgnore("no such peer"));
        case Found(peer) => var _ := ForgetPeer(peer);
      }
      r := Commit();
    }

    method PeerAddrAdd(vk: Key, ip: Option<IP>) returns (r: Result)
      requires Valid()
      modifies this
      ensures Valid() && Outcome(state, r) == Step(old(state), AddrAdd(vk, ip))
      ensures Adds(old(state), vk, ip, Outcome(state, r))
    {
      StepStaysOk(state, AddrAdd(vk, ip));
      AddsExactly(state, vk, ip);
      Start(AddrAdd(vk, ip));
      if vk !in state.peers.at {
        Note(ActIgnore("no such peer"));
      } else {
        Note(ActAddrAdd(vk, ip));
        if ip.None? {
          Raise(BadValue);
        } else {
          var s := Write(Set(vk, Addr(ip.value, true)));
          if s.Normal? {
            AddTrigger(SyncPeer(state.peers.at[vk].Id()));
          }
        }
      }
      r := Commit();
    }

    method PeerAddrDel(vk: Key, ip: Option<IP>) returns (r: Result)
      requires Valid()
      modifies this
      ensures Valid() && Outcome(state, r) == Step(old(state), AddrDel(vk, ip))
      ensures Deletes(old(state), vk, ip, Outcome(state, r))
    {
      StepStaysOk(state, AddrDel(vk, ip));
      DeletesExactly(state, vk, ip);
      Start(AddrDel(vk, ip));
      if vk !in state.peers.at {
        Note(ActIgnore("no such peer"));
      } else {
        Note(ActAddrDel(vk, ip));
        if ip.None? {
          Raise(BadValue);
        } else {
          var s := Write(RemoveAddr(vk, ip.value));
          if s.Normal? {
            AddTrigger(SyncPeer(state.peers.at[vk].Id()));
            AddTrigger(RemoveRoute(ip.value));
          }
        }
      }
      r := Commit();
    }

    method UserEditPeer(vk: Key, f: UserField) returns (r: Result)
      requires Valid()
      modifies this
      ensures Valid() && Outcome(state, r) == Step(old(state), EditPeer(vk, f))
      ensures Edits(old(state), vk, f, Outcome(state, r))
    {
      StepStaysOk(state, EditPeer(vk, f));
      EditsExactly(state, vk, f);
      PeerIsUser(Begin(state, EditPeer(vk, f)), state, EditPeer(vk, f));
      UserStep(state, EditPeer(vk, f), EditPeerAction(Begin(state, EditPeer(vk, f)), state, vk, f));
      Start(EditPeer(vk, f));
      var _ := EditPeerField(vk, f);
      r := Commit();
    }

    method UserEditPref(op: Operation, pref: Pref, value: Input) returns (r: Result)
      requires Valid()
      modifies this
      ensures Valid() && Outcome(state, r) == Step(old(state), EditPref(op, pref, value))
      ensures Prefers(old(state), op, pref, value, Outcome(state, r))
    {
      StepStaysOk(state, EditPref(op, pref, value));
      PrefersExactly(state, op, pref, value);
      PrefIsUser(Begin(state, EditPref(op, pref, value)), state, EditPref(op, pref, value));
      UserStep(state, EditPref(op, pref, value),
               EditPrefAction(Begin(state, EditPref(op, pref, value)), op, pref, value));
      Start(EditPref(op, pref, value));
      var _ := EditPrefValue(op, pref, value);
      r := Commit();
    }

    method ReleaseCurrent()
      requires InEvent() && !Pending().Failed()
      modifies this`nextState, this`result
      ensures InEvent() && Pending() == RunRelease(old(Pending()), state)
    {
      var cur := FirstGateway(Values(state.peers));
      if cur.Some? {
        var s := EditPeerField(cur.value.Id(), Gateway(false));
        if s.Normal? {
          AddTrigger(GetNewSystemState);
        }
      } else {
        Note(ActIgnore("no current gateway peer"));
      }
    }

    method Release() returns (r: Result)
      requires Valid()
      modifies this
      ensures Valid() && Outcome(state, r) == Step(old(state), ReleaseGateway)
      ensures Releases(old(state), Outcome(state, r))
    {
      StepStaysOk(state, ReleaseGateway);
      ReleasesExactly(state);
      ReleaseIsUser(Begin(state, ReleaseGateway), state, ReleaseGateway);
      UserStep(state, ReleaseGateway, RunRelease(Begin(state, ReleaseGateway), state));
      Start(ReleaseGateway);
      ReleaseCurrent();
      r := Commit();
    }

    method UseSystemState(sys: SystemState) returns (r: Result)
      requires Valid()
      modifies this
      ensures Valid() && Outcome(state, r) == Step(old(state), NewSystemState(sys))
      ensures Adjusts(old(state), sys, Outcome(state, r))
    {
      StepStaysOk(state, NewSystemState(sys));
      AdjustsExactly(state, sys);
      Start(NewSystemState(sys));
      var _ := AdjustToNewSystemState(sys);
      r := Commit();
    }

    method Process(d: Descriptor)
      requires InEvent() && !Pending().Failed()
      modifies this`nextState, this`result
      ensures InEvent() && Pending() == ProcessDescriptor(old(Pending()), state, d)
    {
      match Judge(state, d) {
        case Broken => Raise(MissingAttribute);
        case Ignored(reason) => Note(ActIgnore(reason));
        case Rejected(reason) => Note(ActReject(reason));
        case Admitted =>
          var conflicts := SearchConflicts(Values(state.peers), d);
          var _ := AdmitDescriptor(conflicts, d);
      }
    }

    method IncomingDescriptor(d: Descriptor) returns (r: Result)
      requires Valid()
      modifies this
      ensures Valid() && Outcome(state, r) == Step(old(state), Incoming(d))
      ensures Receives(old(state), d, Outcome(state, r))
    {
      StepStaysOk(state, Incoming(d));
      ReceivesExactly(state, d);
      IncomingStep(state, d, ProcessDescriptor(Begin(state, Incoming(d)), state, d));
      Start(Incoming(d));
      Process(d);
      r := Commit();
    }
  }
}
