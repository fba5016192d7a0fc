/**
 * What a record goes through while it is kept: descriptors only move forward,
 * names are never lost, and a pinned peer stays until the user lets it go.
 */
module OrganizeHistory {
  import opened Addresses
  import opened OrderedDict
  import opened Queryable
  import opened Peers
  import opened OrganizeModel
  import opened OrganizeEffects
  import opened OrganizeInvariant
  import opened OrganizeUniqueness
  import opened OrganizeAdmission

  /** q is a later version of the record p. */
  predicate Grows(p: Peer, q: Peer) {
    && p.descriptor.vf <= q.descriptor.vf
    && p.nicknames.Keys <= q.nicknames.Keys
    && (p.pinned && q.pinned ==> p.Recorded() <= q.Recorded())
  }

  /** Everything Grows says except that addresses are kept. */
  predicate GrowsButAddrs(p: Peer, q: Peer) {
    p.descriptor.vf <= q.descriptor.vf && p.nicknames.Keys <= q.nicknames.Keys
  }

  /** Grows, but for the addresses in `gone`. */
  predicate GrowsBut(p: Peer, q: Peer, gone: set<IP>) {
    GrowsButAddrs(p, q) && (p.pinned && q.pinned ==> p.Recorded() - gone <= q.Recorded())
  }

  // ----- one record -----

  lemma RefreshGrows(q: Peer, base: State, sys: SystemState)
    ensures var r := Refresh(q, q.descriptor, base, sys);
            r.Some? ==> Grows(q, r.value) && r.value.pinned == q.pinned
  {
  }

  lemma FieldGrows(p: Peer, f: UserField)
    ensures Grows(p, SetField(p, f))
  {
    UserFieldKeepsId(p, f);
    UserFieldKeepsNames(p, f);
    FieldRecorded(p, f);
  }

  lemma GrowsOn(p: Peer, q: Peer, r: Peer)
    requires Grows(p, q) && Grows(q, r) && (p.pinned && r.pinned ==> q.pinned)
    ensures Grows(p, r)
  {
  }

  lemma EditedGrows(p: Peer, f: UserField, base: State)
    ensures var r := Refresh(SetField(p, f), SetField(p, f).descriptor, base, base.system);
            r.Some? ==> Grows(p, r.value) && r.value.pinned == SetField(p, f).pinned
  {
    var q := SetField(p, f);
    RefreshGrows(q, base, base.system);
    FieldGrows(p, f);
    if Refresh(q, q.descriptor, base, base.system).Some? {
      GrowsOn(p, q, Refresh(q, q.descriptor, base, base.system).value);
    }
  }

  lemma PinnedRefreshes(q: Peer, base: State, sys: SystemState)
    requires q.pinned && q.descriptor.Announced() != {}
    ensures Refresh(q, q.descriptor, base, sys).Some?
  {
    var d := q.descriptor;
    var ip :| ip in d.Announced();
    assert ip in On(V4For(true, q.v4, d, base.prefs, sys)) || ip in On(V6For(true, q.v6, d, base.prefs, sys));
  }

  // ----- one event -----

  /** The user lets a pinned peer go: removes it, or switches the pin off. */
  predicate LetsGo(base: State, ev: Event, k: Key) {
    match ev
    case UserRemovePeer(q) => LookUp(Values(base.peers), q).Found? && LookUp(Values(base.peers), q).peer.Id() == k
    case EditPeer(vk, f) => vk == k && f == Pinned(false)
    case _ => false
  }

  /** The addresses of k that an event takes off the record: at most the one it deletes. */
  function DeletedBy(ev: Event, k: Key): set<IP> {
    if ev.AddrDel? && ev.vk == k && ev.ip.Some? then {ev.ip.value} else {}
  }

  /** The record under k, before and after; only the addresses in `gone` may be missing. */
  ghost predicate KeptWell(base: PeerDict, next: PeerDict, k: Key, letGo: bool, gone: set<IP>) {
    k in base.at ==>
      && (base.at[k].pinned && !letGo ==> k in next.at && next.at[k].pinned)
      && (k in next.at ==> GrowsBut(base.at[k], next.at[k], gone))
  }

  lemma SameKeptWell(base: PeerDict, next: PeerDict, k: Key, letGo: bool, gone: set<IP>)
    requires k in base.at ==> k in next.at && next.at[k] == base.at[k]
    ensures KeptWell(base, next, k, letGo, gone)
  {
  }

  lemma EditedKept(p: Peer, f: UserField, base: State)
    requires PeerOk(p)
    ensures var q := SetField(p, f);
            var r := Refresh(q, q.descriptor, base, base.system);
            && (p.pinned && f != Pinned(false) ==> r.Some? && r.value.pinned)
            && (r.Some? ==> Grows(p, r.value))
  {
    EditedGrows(p, f, base);
    UserFieldKeepsId(p, f);
    if SetField(p, f).pinned {
      PinnedRefreshes(SetField(p, f), base, base.system);
    }
  }

  lemma EditKeptWell(n: State, base: State, vk: Key, f: UserField, k: Key)
    requires PeersOk(n.peers) && EditNext(n, base, vk, f).Some?
    ensures KeptWell(n.peers, EditNext(n, base, vk, f).value.peers, k, vk == k && f == Pinned(false), {})
  {
    if k != vk {
      EditLeavesOthers(n, base, vk, f, k);
    } else {
      EditedRecord(n, base, vk, f);
      EditedKept(n.peers.at[k], f, base);
    }
  }

  lemma KeptWellTwice(a: PeerDict, b: PeerDict, c: PeerDict, k: Key)
    requires KeptWell(a, b, k, false, {}) && KeptWell(b, c, k, false, {})
    requires k in a.at && k in c.at ==> k in b.at
    ensures KeptWell(a, c, k, false, {})
  {
    if k in a.at && k in c.at {
      GrowsOn(a.at[k], b.at[k], c.at[k]);
    }
  }

  lemma EditMakesNobody(n: State, base: State, vk: Key, f: UserField, k: Key)
    requires EditNext(n, base, vk, f).Some? && k in EditNext(n, base, vk, f).value.peers.at
    ensures k in n.peers.at
  {
  }

  lemma OneEditKeptWell(n: State, base: State, next: State, vk: Key, f: UserField, k: Key)
    requires PeersOk(n.peers) && EditNext(n, base, vk, f) == Some(next) && f != Pinned(false)
    ensures KeptWell(n.peers, next.peers, k, false, {})
    ensures k in next.peers.at ==> k in n.peers.at
  {
    EditKeptWell(n, base, vk, f, k);
    if k in next.peers.at {
      EditMakesNobody(n, base, vk, f, k);
    }
  }

  lemma ThenPinned(base: State, mid: State, next: State, vk: Key, k: Key)
    requires PeersOk(mid.peers) && EditNext(mid, base, vk, Pinned(true)) == Some(next)
    requires KeptWell(base.peers, mid.peers, k, false, {})
    ensures KeptWell(base.peers, next.peers, k, false, {})
  {
    OneEditKeptWell(mid, base, next, vk, Pinned(true), k);
    KeptWellTwice(base.peers, mid.peers, next.peers, k);
  }

  lemma VerifiedKeptWell(base: State, mid: State, vk: Key, k: Key)
    requires PeersOk(base.peers)
    requires EditNext(base, base, vk, Verified(true)) == Some(mid)
    ensures PeersOk(mid.peers) && KeptWell(base.peers, mid.peers, k, false, {})
  {
    VerifiedTraced(base, mid, vk);
    OneEditKeptWell(base, base, mid, vk, Verified(true), k);
  }

  lemma VerifyKeptWell(base: State, vk: Key, hostname: string, k: Key)
    requires PeersOk(base.peers) && VerifyNext(base, vk, hostname).Some?
    ensures KeptWell(base.peers, VerifyNext(base, vk, hostname).value.peers, k, false, {})
  {
    var mid := EditNext(base, base, vk, Verified(true));
    VerifiedKeptWell(base, mid.value, vk, k);
    ThenPinned(base, mid.value, VerifyNext(base, vk, hostname).value, vk, k);
  }

  lemma FlaggedKept(p: Peer, flagged: Peer, base: State, sys: SystemState)
    requires PeerOk(p) && SameButFlag(p, flagged)
    ensures var r := Refresh(flagged, flagged.descriptor, base, sys);
            && (p.pinned ==> r.Some?)
            && (r.Some? ==> Grows(p, r.value) && r.value.pinned == p.pinned)
  {
    RefreshGrows(flagged, base, sys);
    if p.pinned {
      PinnedRefreshes(flagged, base, sys);
    }
  }

  lemma SweptKeptWell(base: State, sys: SystemState, k: Key)
    requires PeersOk(base.peers)
    ensures KeptWell(base.peers, AdjustNext(base, sys).peers, k, false, {})
  {
    var flagged := Reflagged(base, sys);
    ReflagFlags(base, sys);
    SweepAt(flagged, base.peers.order, base, sys);
    if k in base.peers.at {
      assert SweptAt(AdjustNext(base, sys).peers, flagged, k, base, sys);
      assert SameButFlag(base.peers.at[k], flagged.at[k]);
      FlaggedKept(base.peers.at[k], flagged.at[k], base, sys);
    }
  }

  lemma JudgeForward(base: State, d: Descriptor)
    requires Judge(base, d).Admitted? && d.vk in base.peers.at
    ensures base.peers.at[d.vk].descriptor.vf <= d.vf
  {
  }

  lemma ArrivalGrows(base: State, d: Descriptor)
    requires PeersOk(base.peers) && d.vk in base.peers.at && Judge(base, d).Admitted?
    ensures base.peers.at[d.vk].pinned ==> Arrival(base, d).Some?
    ensures Arrival(base, d).Some? ==>
              Grows(base.peers.at[d.vk], Arrival(base, d).value)
              && Arrival(base, d).value.pinned == base.peers.at[d.vk].pinned
  {
    JudgeAdmissible(base, d);
    JudgeForward(base, d);
    RefreshGrows(Draft(base, d), base, base.system);
    if base.peers.at[d.vk].pinned {
      PinnedRefreshes(Draft(base, d), base, base.system);
    }
  }

  lemma NoPinnedConflict(base: State, d: Descriptor, q: Peer)
    requires Judge(base, d).Admitted? && q in ConflictsForDescriptor(Values(base.peers), d)
    ensures !q.pinned
  {
  }

  lemma PinnedNotEvicted(base: State, d: Descriptor, k: Key)
    requires Keyed(base.peers) && Judge(base, d).Admitted?
    requires k in base.peers.at && k != d.vk && base.peers.at[k].pinned
    ensures Stays(base.peers, d, k)
  {
    ValuesDistinct(base.peers);
    ConflictsExact(Values(base.peers), d);
    var q := base.peers.at[k];
    ValuesMembers(base.peers, q);
    if q in ConflictsForDescriptor(Values(base.peers), d) {
      NoPinnedConflict(base, d, q);
    }
  }

  lemma AdmitKeptWell(base: State, d: Descriptor, k: Key)
    requires PeersOk(base.peers) && Judge(base, d).Admitted?
    ensures KeptWell(base.peers, AdmitNext(base, d).peers, k, false, {})
  {
    AdmitAt(base, d, k);
    if k in base.peers.at {
      if k == d.vk {
        ArrivalGrows(base, d);
      } else if base.peers.at[k].pinned {
        PinnedNotEvicted(base, d, k);
      }
    }
  }

  lemma IncomingKeptWell(base: State, d: Descriptor, k: Key)
    requires PeersOk(base.peers) && IncomingNext(base, d).Some?
    ensures KeptWell(base.peers, IncomingNext(base, d).value.peers, k, false, {})
  {
    if Judge(base, d).Admitted? {
      AdmitKeptWell(base, d, k);
    }
  }

  lemma AddedKeptWell(base: State, vk: Key, ip: Option<IP>, k: Key)
    requires AddrAddNext(base, vk, ip).Some?
    ensures KeptWell(base.peers, AddrAddNext(base, vk, ip).value.peers, k, false, {})
  {
    if vk in base.peers.at {
      AddrRecorded(base.peers.at[vk], ip.value, true);
    }
  }

  lemma DeletedRecord(p: Peer, ip: IP)
    ensures GrowsBut(p, WithoutAddr(p, ip), {ip}) && WithoutAddr(p, ip).pinned == p.pinned
  {
  }

  lemma DeletedKeptWell(base: State, vk: Key, ip: Option<IP>, k: Key)
    requires AddrDelNext(base, vk, ip).Some?
    ensures KeptWell(base.peers, AddrDelNext(base, vk, ip).value.peers, k, false, DeletedBy(AddrDel(vk, ip), k))
  {
    if vk in base.peers.at {
      DeletedRecord(base.peers.at[vk], ip.value);
    }
  }

  lemma RemoveKeptWell(base: State, q: Query, k: Key)
    requires RemoveNext(base, q).Some?
    ensures KeptWell(base.peers, RemoveNext(base, q).value.peers, k, LetsGo(base, UserRemovePeer(q), k), {})
  {
  }

  lemma ReleaseKeptWell(base: State, k: Key)
    requires PeersOk(base.peers) && ReleaseNext(base).Some?
    ensures KeptWell(base.peers, ReleaseNext(base).value.peers, k, false, {})
  {
    var cur := FirstGateway(Values(base.peers));
    if cur.Some? {
      EditKeptWell(base, base, cur.value.Id(), Gateway(false), k);
    }
  }

  lemma UserKeptWell(base: State, ev: Event, k: Key)
    requires PeersOk(base.peers) && UserNext(base, ev).Some?
    ensures KeptWell(base.peers, UserNext(base, ev).value.peers, k, LetsGo(base, ev, k), DeletedBy(ev, k))
  {
    match ev
    case VerifyAndPin(vk, hostname) => VerifyKeptWell(base, vk, hostname, k);
    case UserRemovePeer(q) => RemoveKeptWell(base, q, k);
    case AddrAdd(vk, ip) => AddedKeptWell(base, vk, ip, k);
    case AddrDel(vk, ip) => DeletedKeptWell(base, vk, ip, k);
    case EditPeer(vk, f) => EditKeptWell(base, base, vk, f, k);
    case EditPref(_, _, _) =>
    case ReleaseGateway => ReleaseKeptWell(base, k);
    case _ =>
  }

  lemma NextKeptWell(base: State, ev: Event, k: Key)
    requires PeersOk(base.peers) && Next(base, ev).Some?
    ensures KeptWell(base.peers, Next(base, ev).value.peers, k, LetsGo(base, ev, k), DeletedBy(ev, k))
  {
    match ev
    case NewSystemState(sys) => SweptKeptWell(base, sys, k);
    case Incoming(d) => IncomingKeptWell(base, d, k);
    case _ => UserKeptWell(base, ev, k);
  }

  /** The addresses of k that are gone after an event: none if it failed. */
  function Gone(ev: Event, error: Option<Error>, k: Key): set<IP> {
    if error.None? then DeletedBy(ev, k) else {}
  }

  /**
   * One event, for any record: it stays if pinned, and what is kept only grows, but for an
   * address deleted just now.
   */
  lemma StepKeptWell(base: State, ev: Event, k: Key)
    requires Inv(base)
    ensures KeptWell(base.peers, Step(base, ev).state.peers, k, LetsGo(base, ev, k),
                     Gone(ev, Step(base, ev).result.error, k))
  {
    StepKeepsInv(base, ev);
    if Step(base, ev).result.error.None? {
      NextKeptWell(base, ev, k);
    } else {
      SameKeptWell(base.peers, base.peers, k, LetsGo(base, ev, k), {});
    }
  }

  // ----- runs -----

  lemma {:induction false} RunInv(st: State, evs: seq<Event>)
    requires Inv(st)
    ensures Inv(RunAll(st, evs))
  {
    if evs != [] {
      RunInv(st, evs[..|evs| - 1]);
      StepKeepsInv(RunAll(st, evs[..|evs| - 1]), evs[|evs| - 1]);
    }
  }

  lemma PrefixOfInit(st: State, evs: seq<Event>, i: nat)
    requires i < |evs|
    ensures evs[..|evs| - 1][..i] == evs[..i]
  {
  }

  /** k is on record at the start of the run and after every event of it. */
  ghost predicate Throughout(st: State, evs: seq<Event>, k: Key) {
    forall i | 0 <= i <= |evs| :: k in RunAll(st, evs[..i]).peers.at
  }

  lemma ThroughoutEnds(st: State, evs: seq<Event>, k: Key)
    requires Throughout(st, evs, k)
    ensures k in st.peers.at && k in RunAll(st, evs).peers.at
  {
    assert evs[..0] == [] && evs[..|evs|] == evs;
    assert k in RunAll(st, evs[..0]).peers.at && k in RunAll(st, evs[..|evs|]).peers.at;
  }

  lemma ThroughoutInit(st: State, evs: seq<Event>, k: Key)
    requires Throughout(st, evs, k) && evs != []
    ensures Throughout(st, evs[..|evs| - 1], k)
  {
    var before := evs[..|evs| - 1];
    forall i | 0 <= i <= |before| ensures k in RunAll(st, before[..i]).peers.at {
      PrefixOfInit(st, evs, i);
    }
  }

  lemma MovesForward(p: Peer, mid: State, ev: Event, k: Key)
    requires Inv(mid) && k in mid.peers.at && GrowsButAddrs(p, mid.peers.at[k])
    requires k in Step(mid, ev).state.peers.at
    ensures GrowsButAddrs(p, Step(mid, ev).state.peers.at[k])
  {
    StepKeptWell(mid, ev, k);
  }

  /** While a key's record stays, its descriptor's timestamp never decreases and its names are kept. */
  lemma {:induction false} RecordsMoveForward(st: State, evs: seq<Event>, k: Key)
    requires Inv(st) && Throughout(st, evs, k)
    ensures k in st.peers.at && k in RunAll(st, evs).peers.at
    ensures GrowsButAddrs(st.peers.at[k], RunAll(st, evs).peers.at[k])
  {
    ThroughoutEnds(st, evs, k);
    if evs != [] {
      var before := evs[..|evs| - 1];
      ThroughoutInit(st, evs, k);
      RecordsMoveForward(st, before, k);
      RunInv(st, before);
      MovesForward(st.peers.at[k], RunAll(st, before), evs[|evs| - 1], k);
    }
  }

  /** No event of the run is the user letting k go. */
  ghost predicate KeepsHold(st: State, evs: seq<Event>, k: Key) {
    forall i | 0 <= i < |evs| :: !LetsGo(RunAll(st, evs[..i]), evs[i], k)
  }

  /** The addresses of k that the user deleted in the course of the run. */
  function Deleted(st: State, evs: seq<Event>, k: Key): set<IP> {
    if evs == [] then {}
    else
      var before, last := evs[..|evs| - 1], evs[|evs| - 1];
      Deleted(st, before, k) + Gone(last, Step(RunAll(st, before), last).result.error, k)
  }

  /** k is pinned, with all p had on record but the addresses in `gone`, and everything on record is on. */
  ghost predicate HeldFrom(p: Peer, now: PeerDict, k: Key, gone: set<IP>) {
    && k in now.at && now.at[k].pinned
    && GrowsButAddrs(p, now.at[k])
    && p.Recorded() - gone <= now.at[k].Recorded()
    && now.at[k].Recorded() == now.at[k].EnabledAddrs()
  }

  lemma HoldsInit(st: State, evs: seq<Event>, k: Key)
    requires evs != [] && KeepsHold(st, evs, k)
    ensures KeepsHold(st, evs[..|evs| - 1], k)
    ensures !LetsGo(RunAll(st, evs[..|evs| - 1]), evs[|evs| - 1], k)
  {
    var before := evs[..|evs| - 1];
    forall i | 0 <= i < |before| ensures !LetsGo(RunAll(st, before[..i]), before[i], k) {
      PrefixOfInit(st, evs, i);
    }
  }

  lemma HeldAtFirst(st: State, k: Key)
    requires Inv(st) && k in st.peers.at && st.peers.at[k].pinned
    ensures HeldFrom(st.peers.at[k], st.peers, k, {})
  {
    AllOnRecorded(st.peers.at[k]);
  }

  lemma StillHeld(p: Peer, m: Peer, q: Peer, gone: set<IP>, more: set<IP>)
    requires m.pinned && q.pinned && PeerOk(q)
    requires GrowsButAddrs(p, m) && GrowsBut(m, q, more) && p.Recorded() - gone <= m.Recorded()
    ensures GrowsButAddrs(p, q) && p.Recorded() - (gone + more) <= q.Recorded()
    ensures q.Recorded() == q.EnabledAddrs()
  {
    AllOnRecorded(q);
  }

  lemma HeldOn(p: Peer, mid: State, ev: Event, k: Key, gone: set<IP>)
    requires Inv(mid) && HeldFrom(p, mid.peers, k, gone) && !LetsGo(mid, ev, k)
    ensures HeldFrom(p, Step(mid, ev).state.peers, k, gone + Gone(ev, Step(mid, ev).result.error, k))
  {
    StepKeptWell(mid, ev, k);
    StepKeepsInv(mid, ev);
    StillHeld(p, mid.peers.at[k], Step(mid, ev).state.peers.at[k], gone, Gone(ev, Step(mid, ev).result.error, k));
  }

  /**
   * A pinned peer stays, pinned, through every run in which the user does not remove
   * or unpin it; its names are kept, so are all addresses but those the user deletes,
   * and every address on record is on.
   */
  lemma {:induction false} PinnedPeersStay(st: State, evs: seq<Event>, k: Key)
    requires Inv(st) && k in st.peers.at && st.peers.at[k].pinned
    requires KeepsHold(st, evs, k)
    ensures HeldFrom(st.peers.at[k], RunAll(st, evs).peers, k, Deleted(st, evs, k))
  {
    if evs == [] {
      HeldAtFirst(st, k);
    } else {
      var before := evs[..|evs| - 1];
      HoldsInit(st, evs, k);
      PinnedPeersStay(st, before, k);
      RunInv(st, before);
      HeldOn(st.peers.at[k], RunAll(st, before), evs[|evs| - 1], k, Deleted(st, before, k));
    }
  }
}
