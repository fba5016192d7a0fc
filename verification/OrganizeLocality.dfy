/**
 * Where the addresses of peers that are not pinned may lie, over whole runs,
 * and what switching an address off by hand comes to.
 */
module OrganizeLocality {
  import opened Addresses
  import opened OrderedDict
  import opened Queryable
  import opened Peers
  import opened OrganizeModel
  import opened OrganizeTerms
  import opened OrganizeEffects
  import opened OrganizeInvariant
  import opened OrganizeUniqueness
  import opened OrganizeAdmission
  import opened OrganizeHistory

  /** Some address is on, and every one that is on is announced and in a current subnet. */
  predicate LocalPeer(p: Peer, sys: SystemState) {
    && p.EnabledAddrs() != {}
    && forall ip | ip in p.EnabledAddrs() :: ip in p.descriptor.Announced() && OnSubnet(ip, sys)
  }

  ghost predicate AllLocal(st: State) {
    forall k | k in st.peers.at && !st.peers.at[k].pinned :: LocalPeer(st.peers.at[k], st.system)
  }

  lemma RefreshLocal(q: Peer, base: State, sys: SystemState)
    requires !q.pinned
    ensures var r := Refresh(q, q.descriptor, base, sys);
            r.Some? ==> !r.value.pinned && LocalPeer(r.value, sys)
  {
  }

  lemma RefreshKeepsPin(q: Peer, base: State, sys: SystemState)
    ensures var r := Refresh(q, q.descriptor, base, sys);
            r.Some? ==> r.value.pinned == q.pinned
  {
  }

  /** Every record of `next` that is not pinned is either old or freshly computed for the system state in force. */
  ghost predicate OldOrLocal(base: State, next: PeerDict, k: Key) {
    k in next.at && !next.at[k].pinned ==>
      || (k in base.peers.at && next.at[k] == base.peers.at[k])
      || LocalPeer(next.at[k], base.system)
  }

  lemma EditLocal(n: State, base: State, vk: Key, f: UserField, k: Key)
    requires EditNext(n, base, vk, f).Some?
    requires n == base || OldOrLocal(base, n.peers, k)
    ensures OldOrLocal(base, EditNext(n, base, vk, f).value.peers, k)
  {
    if k == vk {
      var q := SetField(n.peers.at[vk], f);
      RefreshKeepsPin(q, base, base.system);
      if !q.pinned {
        RefreshLocal(q, base, base.system);
      }
    } else {
      EditLeavesOthers(n, base, vk, f, k);
    }
  }

  lemma VerifyLocal(base: State, vk: Key, hostname: string, k: Key)
    requires VerifyNext(base, vk, hostname).Some?
    ensures OldOrLocal(base, VerifyNext(base, vk, hostname).value.peers, k)
  {
    var mid := EditNext(base, base, vk, Verified(true)).value;
    EditLocal(base, base, vk, Verified(true), k);
    EditLocal(mid, base, vk, Pinned(true), k);
  }

  lemma AdmitLocal(base: State, d: Descriptor, k: Key)
    requires Keyed(base.peers)
    ensures OldOrLocal(base, AdmitNext(base, d).peers, k)
  {
    AdmitAt(base, d, k);
    if k == d.vk {
      RefreshKeepsPin(Draft(base, d), base, base.system);
      if !Draft(base, d).pinned {
        RefreshLocal(Draft(base, d), base, base.system);
      }
    }
  }

  lemma IncomingLocal(base: State, d: Descriptor, k: Key)
    requires Keyed(base.peers) && IncomingNext(base, d).Some?
    ensures OldOrLocal(base, IncomingNext(base, d).value.peers, k)
  {
    if Judge(base, d).Admitted? {
      AdmitLocal(base, d, k);
    }
  }

  lemma ReleaseLocal(base: State, k: Key)
    requires ReleaseNext(base).Some?
    ensures OldOrLocal(base, ReleaseNext(base).value.peers, k)
  {
    var cur := FirstGateway(Values(base.peers));
    if cur.Some? {
      EditLocal(base, base, cur.value.Id(), Gateway(false), k);
    }
  }

  /** The hand edits that do not refresh the record, on a peer that is not pinned. */
  predicate Unrefreshed(base: State, ev: Event) {
    match ev
    case AddrAdd(vk, _) => vk in base.peers.at && !base.peers.at[vk].pinned
    case AddrDel(vk, _) => vk in base.peers.at && !base.peers.at[vk].pinned
    case _ => false
  }

  lemma AddrLocal(base: State, vk: Key, ip: Option<IP>, k: Key)
    requires vk in base.peers.at ==> base.peers.at[vk].pinned
    ensures AddrAddNext(base, vk, ip).Some? ==> OldOrLocal(base, AddrAddNext(base, vk, ip).value.peers, k)
    ensures AddrDelNext(base, vk, ip).Some? ==> OldOrLocal(base, AddrDelNext(base, vk, ip).value.peers, k)
  {
  }

  lemma NextLocal(base: State, ev: Event, k: Key)
    requires Keyed(base.peers) && Next(base, ev).Some?
    requires !ev.NewSystemState? && !Unrefreshed(base, ev)
    ensures OldOrLocal(base, Next(base, ev).value.peers, k)
  {
    match ev
    case VerifyAndPin(vk, hostname) => VerifyLocal(base, vk, hostname, k);
    case UserRemovePeer(q) =>
    case AddrAdd(vk, ip) => AddrLocal(base, vk, ip, k);
    case AddrDel(vk, ip) => AddrLocal(base, vk, ip, k);
    case EditPeer(vk, f) => EditLocal(base, base, vk, f, k);
    case EditPref(_, _, _) =>
    case ReleaseGateway => ReleaseLocal(base, k);
    case NewSystemState(_) =>
    case Incoming(d) => IncomingLocal(base, d, k);
  }

  lemma SystemUnchanged(base: State, ev: Event)
    requires !ev.NewSystemState? && Next(base, ev).Some?
    ensures Next(base, ev).value.system == base.system
  {
  }

  lemma QuietLocal(base: State, ev: Event)
    requires Keyed(base.peers) && Next(base, ev).Some? && AllLocal(base)
    requires !ev.NewSystemState? && !Unrefreshed(base, ev)
    ensures AllLocal(Next(base, ev).value)
  {
    var next := Next(base, ev).value;
    SystemUnchanged(base, ev);
    forall k | k in next.peers.at && !next.peers.at[k].pinned ensures LocalPeer(next.peers.at[k], next.system) {
      NextLocal(base, ev, k);
    }
  }

  /** A new system state leaves only local peers, whatever was there before. */
  lemma AdjustLocal(base: State, sys: SystemState)
    requires PeersOk(base.peers)
    ensures AllLocal(AdjustNext(base, sys))
  {
    var flagged := Reflagged(base, sys);
    var next := AdjustNext(base, sys);
    ReflagFlags(base, sys);
    SweepAt(flagged, base.peers.order, base, sys);
    forall k | k in next.peers.at && !next.peers.at[k].pinned ensures LocalPeer(next.peers.at[k], next.system) {
      assert SweptAt(next.peers, flagged, k, base, sys);
      RefreshKeepsPin(flagged.at[k], base, sys);
      RefreshLocal(flagged.at[k], base, sys);
    }
  }

  lemma AdjustDispatch(base: State, sys: SystemState)
    ensures Next(base, NewSystemState(sys)) == Some(AdjustNext(base, sys))
  {
  }

  lemma StepKeepsLocal(base: State, ev: Event)
    requires Inv(base) && AllLocal(base) && !Unrefreshed(base, ev)
    ensures AllLocal(Step(base, ev).state)
  {
    StepKeepsInv(base, ev);
    if Step(base, ev).result.error.None? {
      if ev.NewSystemState? {
        AdjustDispatch(base, ev.system);
        AdjustLocal(base, ev.system);
      } else {
        QuietLocal(base, ev);
      }
    }
  }

  ghost predicate NeverUnrefreshed(st: State, evs: seq<Event>) {
    forall i | 0 <= i < |evs| :: !Unrefreshed(RunAll(st, evs[..i]), evs[i])
  }

  /**
   * In every run from the empty state without such hand edits, a peer that is not
   * pinned has an address on, and each one that is on is announced by its stored
   * descriptor and lies in a subnet of the system state in force.
   */
  lemma {:induction false} RunsStayLocal(evs: seq<Event>)
    requires NeverUnrefreshed(InitialState(), evs)
    ensures AllLocal(RunAll(InitialState(), evs))
  {
    if evs != [] {
      var before := evs[..|evs| - 1];
      forall i | 0 <= i < |before| ensures !Unrefreshed(RunAll(InitialState(), before[..i]), before[i]) {
        PrefixOfInit(InitialState(), evs, i);
      }
      RunsStayLocal(before);
      RunsKeepInv(before);
      StepKeepsLocal(RunAll(InitialState(), before), evs[|evs| - 1]);
    }
  }

  // ----- switching an address off -----

  lemma RefreshedAddr(q: Peer, base: State, ip: IP)
    requires ip in q.Recorded()
    ensures var r := Refresh(q, q.descriptor, base, base.system);
            r.Some? ==>
              (ip in r.value.EnabledAddrs() <==>
                q.pinned || (ip in q.descriptor.Announced() && Usable(ip, base.prefs, base.system)))
  {
  }

  lemma EditDispatch(base: State, vk: Key, f: UserField)
    ensures Next(base, EditPeer(vk, f)) == EditNext(base, base, vk, f)
  {
  }

  /**
   * Switching an address off by hand is undone in the same event for a pinned peer,
   * and for any other peer that announces the address while it is local and allowed.
   */
  lemma SwitchingOffIsUndone(base: State, vk: Key, ip: IP)
    requires Inv(base) && vk in base.peers.at
    requires Step(base, EditPeer(vk, Addr(ip, false))).result.error.None?
    ensures var next := Step(base, EditPeer(vk, Addr(ip, false))).state.peers;
            var p := base.peers.at[vk];
            vk in next.at ==>
              (ip in next.at[vk].EnabledAddrs() <==>
                p.pinned || (ip in p.descriptor.Announced() && Usable(ip, base.prefs, base.system)))
  {
    var f: UserField := Addr(ip, false);
    StepKeepsInv(base, EditPeer(vk, f));
    EditDispatch(base, vk, f);
    AddrRecorded(base.peers.at[vk], ip, false);
    FieldSwitches(base.peers.at[vk], f);
    UserFieldKeepsId(base.peers.at[vk], f);
    RefreshedAddr(SetField(base.peers.at[vk], f), base, ip);
    EditedRecord(base, base, vk, f);
  }
}
