/** Concrete runs that reach what the documentation rules out, and what else the code gets wrong. */
module OrganizeWitnesses {
  import opened Addresses
  import opened Nets
  import opened OrderedDict
  import opened Text
  import opened Queryable
  import opened Peers
  import opened OrganizeModel
  import opened OrganizeTerms
  import opened OrganizeEffects
  import opened OrganizeInvariant
  import opened OrganizeUniqueness
  import opened OrganizeLookups
  import opened OrganizeAdmission
  import opened OrganizeHistory
  import opened OrganizeLocality
  import opened OrganizeGateway
  import opened OrganizeGates
  import opened OrganizeKeys
  import opened OrganizeOutcomes
  import opened OrganizePrefs

  // ----- events on small states -----

  lemma PrefStep(st: State, op: Operation, pref: Pref, value: Input, prefs: Prefs)
    requires Inv(st) && EditedPrefs(st.prefs, op, pref, value) == Some(prefs)
    ensures Step(st, EditPref(op, pref, value)).state == st.(prefs := prefs)
  {
    PrefersAs(st, op, pref, value);
  }

  lemma {:induction false} NobodyClaims(gateways: seq<IP>)
    ensures ClaimNext(Empty(), [], gateways) == Empty()
  {
    if gateways != [] {
      NobodyClaims(gateways[1..]);
    }
  }

  lemma EmptyAdjusts(st: State, sys: SystemState)
    requires st.peers == Empty()
    ensures AdjustNext(st, sys) == st.(system := sys)
  {
    assert Values(st.peers) == [];
    assert Cleared(st, sys) == st.peers;
    NobodyClaims(sys.gateways);
    assert Reflagged(st, sys) == st.peers;
  }

  lemma SystemStep(st: State, sys: SystemState)
    requires Inv(st) && st.peers == Empty()
    ensures Step(st, NewSystemState(sys)).state == st.(system := sys)
  {
    EmptyAdjusts(st, sys);
    AdjustDispatch(st, sys);
    GateOpens(st, NewSystemState(sys), st.(system := sys));
  }

  // ----- the cast -----

  /** A local network that is not among the subnets allowed by default. */
  const LAN: Net := Net(V4([1, 2, 3, 0]), 24)

  /** 32 bytes. */
  function KeyOf(n: byte): Key {
    Key([n] + ZERO16[1..] + ZERO16)
  }

  const HOME: SystemState := SystemState([(LAN, [V4([1, 2, 3, 9])])], KeyOf(0), [], true)

  const LAN_TEXT: Input := Input("1.2.3.0/24", None, None, None, Some(LAN))

  const YES: Input := Input("true", Some(true), None, None, None)

  function Address(n: byte): IPv4 {
    V4([1, 2, 3, n])
  }

  function Hostname(n: byte): string {
    if n == 1 then "alice.local" else "bob.local"
  }

  /** 64 bytes. */
  function LongKeyOf(n: byte): Key {
    Key(KeyOf(n).bytes + KeyOf(n).bytes)
  }

  /** Two hosts that announce the same primary address, and nothing else in common. */
  function Host(n: byte): Descriptor {
    Descriptor(Some(IPV6_ULA.address), Some([Address(n)]), None, KeyOf(n), LongKeyOf(n), Hostname(n), 5354, KeyOf(n),
               86400, 1743974365, "", false, Some(LongKeyOf(n)))
  }

  lemma KeysDiffer(m: byte, n: byte)
    ensures |KeyOf(n).bytes| == 32 && |LongKeyOf(n).bytes| == 64
    ensures KeyOf(m) == KeyOf(n) ==> m == n
  {
    assert KeyOf(m).bytes[0] == m && KeyOf(n).bytes[0] == n;
  }

  lemma HostAddrs(n: byte)
    ensures Host(n).Announced() == {Address(n)}
    ensures Host(n).All() == [Address(n)]
  {
  }

  /** The machine is on the local network and takes in hosts under the usual names. */
  predicate AtHome(st: State) {
    && st.system.subnets == HOME.subnets && st.system.ourPk == HOME.ourPk
    && st.prefs.localDomains == InitialState().prefs.localDomains
  }

  lemma HostInLan(n: byte)
    ensures Contains(LAN, Address(n))
  {
    forall i | 0 <= i < 24 ensures Bit(Address(n).octets, i) == Bit(LAN.address.octets, i) {
      assert i / 8 == 0 || i / 8 == 1 || i / 8 == 2;
      assert Address(n).octets[i / 8] == LAN.address.octets[i / 8];
    }
  }

  lemma HostIsLocal(st: State, n: byte)
    requires AtHome(st)
    ensures OnSubnet(Address(n), st.system)
  {
    HostInLan(n);
    assert st.system.subnets[0].0 == LAN && LAN.address.V4? && VULA_ULA_SUBNET.address.V6?;
  }

  lemma HostIsNamed(n: byte, prefs: Prefs)
    requires prefs.localDomains == InitialState().prefs.localDomains
    ensures InLocalDomain(Hostname(n), prefs)
  {
    assert "alice.local"[6..] == "local" && "bob.local"[4..] == "local";
    assert EndsWith(Hostname(n), "local") && prefs.localDomains[1] == "local";
  }

  lemma NeighbourIsJudged(st: State, d: Descriptor, n: byte)
    requires AtHome(st) && d.p == Some(IPV6_ULA.address) && d.pk != st.system.ourPk
    requires d.hostname == Hostname(n) && Address(n) in d.All()
    requires d.vk in st.peers.at ==> st.peers.at[d.vk].descriptor.vf <= d.vf
    requires forall q | q in ConflictsForDescriptor(Values(st.peers), d) :: !q.pinned
    ensures Judge(st, d).Admitted?
  {
    HostIsLocal(st, n);
    HostIsNamed(n, st.prefs);
    JudgeAdmits(st, d, Address(n));
  }

  lemma HostIsJudged(st: State, n: byte)
    requires AtHome(st) && n != 0
    requires Host(n).vk in st.peers.at ==> st.peers.at[Host(n).vk].descriptor == Host(n)
    requires forall q | q in ConflictsForDescriptor(Values(st.peers), Host(n)) :: !q.pinned
    ensures Judge(st, Host(n)).Admitted?
  {
    HostAddrs(n);
    KeysDiffer(n, 0);
    NeighbourIsJudged(st, Host(n), n);
  }

  lemma NoConflicts(st: State, d: Descriptor)
    requires Keyed(st.peers)
    requires forall k | k in st.peers.at && k != d.vk :: !Clash(st.peers.at[k], d)
    ensures ConflictsForDescriptor(Values(st.peers), d) == []
  {
    ValuesDistinct(st.peers);
    ConflictsExact(Values(st.peers), d);
    var found := ConflictsForDescriptor(Values(st.peers), d);
    if found != [] {
      assert found[0] in found;
      ValuesMembers(st.peers, found[0]);
      assert false;
    }
  }

  /** What a host's record looks like after it joined. */
  predicate Joined(p: Peer, n: byte) {
    p.descriptor == Host(n) && p.enabled && p.EnabledNames() == {Hostname(n)} && p.EnabledAddrs() == {Address(n)}
  }

  lemma HostGateway(st: State, n: byte)
    requires AtHome(st)
    ensures GatewayAnnounced(Host(n), st.system, st.system.gateways) <==> Address(n) in st.system.gateways
  {
    HostAddrs(n);
    HostIsLocal(st, n);
  }

  lemma HostIsOn(n: byte, pinned: bool, prefs: Prefs, sys: SystemState)
    requires pinned || Usable(Address(n), prefs, sys)
    ensures AddrsOn(MakePeer(Host(n), pinned), prefs, sys) == {Address(n)}
    ensures Remains(MakePeer(Host(n), pinned), prefs, sys)
  {
    HostAddrs(n);
  }

  lemma NewNames(d: Descriptor, pinned: bool)
    ensures MakePeer(d, pinned).EnabledNames() == {d.hostname}
  {
  }

  lemma HostRefreshes(st: State, n: byte, pinned: bool)
    requires AtHome(st) && (pinned || Usable(Address(n), st.prefs, st.system))
    ensures var r := Refresh(MakePeer(Host(n), pinned), Host(n), st, st.system);
            && r.Some? && Joined(r.value, n) && r.value.pinned == pinned
            && (r.value.gateway <==> Address(n) in st.system.gateways)
  {
    HostAddrs(n);
    HostIsOn(n, pinned, st.prefs, st.system);
    NewNames(Host(n), pinned);
    HostGateway(st, n);
    RefreshExact(MakePeer(Host(n), pinned), st, st.system);
  }

  /** The new host gets in: it is admitted, and is refreshed to a plain record. */
  lemma HostArrives(st: State, n: byte)
    requires AtHome(st) && Host(n).vk !in st.peers.at
    requires st.prefs.pinNewPeers || Usable(Address(n), st.prefs, st.system)
    ensures Arrival(st, Host(n)).Some? && Joined(Arrival(st, Host(n)).value, n)
    ensures Arrival(st, Host(n)).value.pinned == st.prefs.pinNewPeers
    ensures Arrival(st, Host(n)).value.gateway <==> Address(n) in st.system.gateways
  {
    assert Draft(st, Host(n)) == MakePeer(Host(n), st.prefs.pinNewPeers);
    HostRefreshes(st, n, st.prefs.pinNewPeers);
  }

  lemma HostShadowedByNobody(st: State, n: byte)
    requires Arrival(st, Host(n)).Some? && Joined(Arrival(st, Host(n)).value, n)
    requires !Arrival(st, Host(n)).value.gateway || st.peers == Empty()
    requires forall k | k in st.peers.at :: st.peers.at[k].descriptor.hostname != Hostname(n)
    requires forall k | k in st.peers.at :: Address(n) !in st.peers.at[k].descriptor.Announced()
    ensures GetsThrough(st, Host(n))
  {
    HostAddrs(n);
  }

  /** n joined and everybody else stayed. */
  ghost predicate JoinedIn(st: State, next: State, n: byte) {
    && next.prefs == st.prefs && next.system == st.system
    && Host(n).vk in next.peers.at && Joined(next.peers.at[Host(n).vk], n)
    && next.peers.at[Host(n).vk].pinned == st.prefs.pinNewPeers
    && (next.peers.at[Host(n).vk].gateway <==> Address(n) in st.system.gateways)
    && (forall k | k in st.peers.at :: k in next.peers.at && next.peers.at[k] == st.peers.at[k])
    && (forall k | k in next.peers.at :: k in st.peers.at || k == Host(n).vk)
  }

  lemma HostIsIn(st: State, n: byte)
    requires Inv(st) && Host(n).vk !in st.peers.at
    requires forall k | k in st.peers.at :: !Clash(st.peers.at[k], Host(n))
    requires var a := Arrival(st, Host(n)); a.Some? && Joined(a.value, n) && a.value.pinned == st.prefs.pinNewPeers
    requires Arrival(st, Host(n)).value.gateway <==> Address(n) in st.system.gateways
    ensures JoinedIn(st, AdmitNext(st, Host(n)), n)
  {
    AdmittedRecord(st, Host(n), AdmitNext(st, Host(n)));
    forall k
      ensures k in st.peers.at ==>
                k in AdmitNext(st, Host(n)).peers.at && AdmitNext(st, Host(n)).peers.at[k] == st.peers.at[k]
      ensures k in AdmitNext(st, Host(n)).peers.at ==> k in st.peers.at || k == Host(n).vk {
      AdmitAt(st, Host(n), k);
    }
  }

  lemma HostJoins(st: State, n: byte)
    requires Inv(st) && AtHome(st) && n != 0 && Host(n).vk !in st.peers.at
    requires st.prefs.pinNewPeers || Usable(Address(n), st.prefs, st.system)
    requires Address(n) !in st.system.gateways || st.peers == Empty()
    requires forall k | k in st.peers.at ::
               !Clash(st.peers.at[k], Host(n)) && st.peers.at[k].descriptor.hostname != Hostname(n)
    requires forall k | k in st.peers.at :: Address(n) !in st.peers.at[k].descriptor.Announced()
    ensures Inv(Step(st, Incoming(Host(n))).state)
    ensures JoinedIn(st, Step(st, Incoming(Host(n))).state, n)
  {
    var d := Host(n);
    NoConflicts(st, d);
    HostIsJudged(st, n);
    HostArrives(st, n);
    HostShadowedByNobody(st, n);
    AdmitStep(st, d);
    StepKeepsInv(st, Incoming(d));
    HostIsIn(st, n);
  }

  lemma RunSnoc(st: State, evs: seq<Event>, i: nat)
    requires i < |evs|
    ensures RunAll(st, evs[..i + 1]) == Step(RunAll(st, evs[..i]), evs[i]).state
  {
    assert evs[..i + 1][..i] == evs[..i];
  }

  lemma RunLast(st: State, evs: seq<Event>)
    requires evs != []
    ensures RunAll(st, evs) == Step(RunAll(st, evs[..|evs| - 1]), evs[|evs| - 1]).state
  {
  }

  /** Nobody is known yet and the local network is there. */
  ghost predicate Waiting(st: State, prefs: Prefs, sys: SystemState) {
    Inv(st) && AtHome(st) && st.prefs == prefs && st.system == sys && st.peers == Empty()
  }

  lemma PrefersFirst(op: Operation, pref: Pref, value: Input, prefs: Prefs, first: State)
    requires EditedPrefs(InitialState().prefs, op, pref, value) == Some(prefs)
    requires first == Step(InitialState(), EditPref(op, pref, value)).state
    ensures Inv(first) && first.prefs == prefs && first.peers == Empty()
  {
    InitialInv();
    PrefStep(InitialState(), op, pref, value, prefs);
    StepKeepsInv(InitialState(), EditPref(op, pref, value));
  }

  lemma ComesHome(first: State, sys: SystemState)
    requires Inv(first) && first.peers == Empty() && first.prefs.localDomains == InitialState().prefs.localDomains
    requires sys.subnets == HOME.subnets && sys.ourPk == HOME.ourPk
    ensures Waiting(Step(first, NewSystemState(sys)).state, first.prefs, sys)
  {
    SystemStep(first, sys);
    StepKeepsInv(first, NewSystemState(sys));
  }

  /** A preference, a system state, and Alice arrives. */
  predicate Opening(evs: seq<Event>, op: Operation, pref: Pref, value: Input, sys: SystemState) {
    && |evs| >= 3 && evs[0] == EditPref(op, pref, value) && evs[1] == NewSystemState(sys) && evs[2] == Incoming(Host(1))
    && sys.subnets == HOME.subnets && sys.ourPk == HOME.ourPk
  }

  /** Alice is known, and nobody else is. */
  ghost predicate AliceKnown(st: State, prefs: Prefs, sys: SystemState, pinned: bool) {
    && Inv(st) && AtHome(st) && st.prefs == prefs && st.system == sys
    && st.peers.at.Keys == {Host(1).vk} && Joined(st.peers.at[Host(1).vk], 1)
    && st.peers.at[Host(1).vk].pinned == pinned
    && (st.peers.at[Host(1).vk].gateway <==> Address(1) in sys.gateways)
  }

  lemma JoinedAlone(home: State, next: State)
    requires AtHome(home) && home.peers == Empty() && Inv(next) && JoinedIn(home, next, 1)
    ensures AliceKnown(next, home.prefs, home.system, home.prefs.pinNewPeers)
  {
    assert next.peers.at.Keys == {Host(1).vk};
  }

  lemma AliceJoins(home: State, prefs: Prefs, sys: SystemState)
    requires Waiting(home, prefs, sys) && (prefs.pinNewPeers || Usable(Address(1), prefs, sys))
    ensures AliceKnown(Step(home, Incoming(Host(1))).state, prefs, sys, prefs.pinNewPeers)
  {
    HostJoins(home, 1);
    JoinedAlone(home, Step(home, Incoming(Host(1))).state);
  }

  lemma SnocIs(st: State, evs: seq<Event>, i: nat, mid: State)
    requires i < |evs| && mid == RunAll(st, evs[..i])
    ensures RunAll(st, evs[..i + 1]) == Step(mid, evs[i]).state
  {
    RunSnoc(st, evs, i);
  }

  lemma ThreeEvents(st: State, evs: seq<Event>)
    requires |evs| >= 3
    ensures RunAll(st, evs[..3]) == Step(Step(Step(st, evs[0]).state, evs[1]).state, evs[2]).state
  {
    assert evs[..0] == [];
    RunSnoc(st, evs, 0);
    var one := Step(st, evs[0]).state;
    SnocIs(st, evs, 1, one);
    SnocIs(st, evs, 2, Step(one, evs[1]).state);
  }

  lemma AliceArrives(evs: seq<Event>, op: Operation, pref: Pref, value: Input, prefs: Prefs, sys: SystemState)
    requires Opening(evs, op, pref, value, sys)
    requires EditedPrefs(InitialState().prefs, op, pref, value) == Some(prefs)
    requires prefs.localDomains == InitialState().prefs.localDomains
    requires prefs.pinNewPeers || Usable(Address(1), prefs, sys)
    ensures AliceKnown(RunAll(InitialState(), evs[..3]), prefs, sys, prefs.pinNewPeers)
  {
    ThreeEvents(InitialState(), evs);
    var first := Step(InitialState(), evs[0]).state;
    PrefersFirst(op, pref, value, prefs, first);
    ComesHome(first, sys);
    AliceJoins(Step(first, evs[1]).state, prefs, sys);
  }

  // ----- two hosts with one primary address -----

  const TWO_HOSTS: seq<Event> :=
    [EditPref(SetOp, PinNewPeers, YES), NewSystemState(HOME), Incoming(Host(1)), Incoming(Host(2))]

  lemma CastDiffers()
    ensures Hostname(1) != Hostname(2) && Address(1) != Address(2)
  {
    assert "alice.local"[0] != "bob.local"[0];
    assert Address(1).octets[3] != Address(2).octets[3];
  }

  lemma AliceAndBobDiffer(p: Peer)
    requires Joined(p, 1)
    ensures !Clash(p, Host(2)) && p.descriptor.hostname != Hostname(2) && Address(2) !in p.descriptor.Announced()
  {
    HostAddrs(1);
    HostAddrs(2);
    KeysDiffer(1, 2);
    CastDiffers();
  }

  const PINNING: Prefs := InitialState().prefs.(pinNewPeers := true)

  ghost predicate AlicePinned(st: State) {
    AliceKnown(st, PINNING, HOME, true)
  }

  lemma AliceIsPinned()
    ensures AlicePinned(RunAll(InitialState(), TWO_HOSTS[..3]))
  {
    AliceArrives(TWO_HOSTS, SetOp, PinNewPeers, YES, PINNING, HOME);
  }

  lemma BothHavePrimary(ps: PeerDict)
    requires Host(1).vk in ps.at && Joined(ps.at[Host(1).vk], 1)
    requires Host(2).vk in ps.at && Joined(ps.at[Host(2).vk], 2)
    ensures PrimaryShared(ps, IPV6_ULA.address)
  {
    var a, b := Host(1).vk, Host(2).vk;
    KeysDiffer(1, 2);
    assert HasPrimary(ps.at[a], IPV6_ULA.address) && HasPrimary(ps.at[b], IPV6_ULA.address);
  }

  lemma OnlyAlice(alone: State, k: Key)
    requires AlicePinned(alone) && k in alone.peers.at
    ensures !Clash(alone.peers.at[k], Host(2)) && alone.peers.at[k].descriptor.hostname != Hostname(2)
    ensures Address(2) !in alone.peers.at[k].descriptor.Announced() && k != Host(2).vk
  {
    AliceAndBobDiffer(alone.peers.at[k]);
    KeysDiffer(1, 2);
  }

  lemma BobIsIn(alone: State)
    requires AlicePinned(alone)
    ensures Inv(Step(alone, Incoming(Host(2))).state) && JoinedIn(alone, Step(alone, Incoming(Host(2))).state, 2)
  {
    forall k | k in alone.peers.at
      ensures !Clash(alone.peers.at[k], Host(2)) && alone.peers.at[k].descriptor.hostname != Hostname(2)
      ensures Address(2) !in alone.peers.at[k].descriptor.Announced() && k != Host(2).vk {
      OnlyAlice(alone, k);
    }
    HostJoins(alone, 2);
  }

  lemma BobJoins(alone: State)
    requires AlicePinned(alone)
    ensures WithIp(Values(Step(alone, Incoming(Host(2))).state.peers), IPV6_ULA.address).Ambiguous?
  {
    BobIsIn(alone);
    var both := Step(alone, Incoming(Host(2))).state.peers;
    BothHavePrimary(both);
    SharedIsAmbiguous(both, IPV6_ULA.address);
  }

  lemma TwoHostsHarmless()
    ensures HarmlessRun(InitialState(), TWO_HOSTS)
  {
    forall i | 0 <= i < |TWO_HOSTS| ensures Harmless(RunAll(InitialState(), TWO_HOSTS[..i]), TWO_HOSTS[i]) {
      HandsOffHarmless(RunAll(InitialState(), TWO_HOSTS[..i]), TWO_HOSTS[i]);
    }
  }

  /**
   * "BUG: multiple hosts with the same IP" is reachable by incoming descriptors alone:
   * two pinned peers, with different keys, names and addresses, announce one primary address.
   */
  lemma SharedPrimaryIsReachable()
    ensures WithIp(Values(RunAll(InitialState(), TWO_HOSTS).peers), IPV6_ULA.address).Ambiguous?
    ensures HarmlessRun(InitialState(), TWO_HOSTS)
  {
    AliceIsPinned();
    RunLast(InitialState(), TWO_HOSTS);
    BobJoins(RunAll(InitialState(), TWO_HOSTS[..3]));
    TwoHostsHarmless();
  }

  // ----- an address that does not stay off -----

  lemma AloneIsFine(ps: PeerDict, k: Key)
    requires ps.at.Keys <= {k}
    ensures NoClash(ps) && OneGateway(ps)
  {
  }

  lemma PinnedEditStays(st: State, f: UserField)
    requires AlicePinned(st) && SetField(st.peers.at[Host(1).vk], f).pinned
    ensures var vk := Host(1).vk;
            EditNext(st, st, vk, f).Some? && EditNext(st, st, vk, f).value.peers.at.Keys == {vk}
  {
    HostAddrs(1);
    UserFieldKeepsId(st.peers.at[Host(1).vk], f);
    PinnedRefreshes(SetField(st.peers.at[Host(1).vk], f), st, st.system);
  }

  /** "peer set" switches an address of a pinned peer off; the event succeeds and the address is on. */
  lemma SwitchedOffStaysOn()
    ensures var st := RunAll(InitialState(), TWO_HOSTS[..3]);
            var o := Step(st, EditPeer(Host(1).vk, Addr(Address(1), false)));
            && o.result.error.None? && Host(1).vk in o.state.peers.at
            && Address(1) in o.state.peers.at[Host(1).vk].EnabledAddrs()
  {
    var st := RunAll(InitialState(), TWO_HOSTS[..3]);
    var vk, f: UserField := Host(1).vk, Addr(Address(1), false);
    AliceIsPinned();
    FieldSwitches(st.peers.at[vk], f);
    PinnedEditStays(st, f);
    EditDispatch(st, vk, f);
    AloneIsFine(EditNext(st, st, vk, f).value.peers, vk);
    GateOpens(st, EditPeer(vk, f), EditNext(st, st, vk, f).value);
    SwitchingOffIsUndone(st, vk, Address(1));
  }

  // ----- a key that is not taken down -----

  /** Alice with another WireGuard key. */
  const ALICE_REKEYED: Descriptor := Host(1).(pk := KeyOf(5))

  lemma MeetsOnlyItself(st: State, d: Descriptor)
    requires Keyed(st.peers) && st.peers.at.Keys <= {d.vk}
    ensures ConflictsForDescriptor(Values(st.peers), d) == []
  {
    NoConflicts(st, d);
  }

  lemma RekeyedIs()
    ensures ALICE_REKEYED.p == Some(IPV6_ULA.address) && ALICE_REKEYED.pk == KeyOf(5) && ALICE_REKEYED.vk == Host(1).vk
    ensures ALICE_REKEYED.hostname == Hostname(1) && ALICE_REKEYED.All() == [Address(1)]
    ensures ALICE_REKEYED.vf == Host(1).vf
  {
  }

  lemma RekeyedIsJudged(st: State)
    requires AlicePinned(st)
    ensures Judge(st, ALICE_REKEYED).Admitted?
  {
    RekeyedIs();
    KeysDiffer(5, 0);
    MeetsOnlyItself(st, ALICE_REKEYED);
    NeighbourIsJudged(st, ALICE_REKEYED, 1);
  }

  lemma NobodyInTheWay(st: State, d: Descriptor)
    requires st.peers.at.Keys <= {d.vk}
    ensures GetsThrough(st, d)
  {
  }

  lemma RekeyedGivesUp(st: State)
    requires AlicePinned(st)
    ensures GivesUp(st, Incoming(ALICE_REKEYED))
  {
    RekeyedIsJudged(st);
    KeysDiffer(5, 1);
  }

  /**
   * Alice, pinned, announces another WireGuard key: the event succeeds, no record has
   * the old key any more, and no trigger tells the system to remove it.
   */
  lemma OldKeyIsForgotten()
    ensures var st := RunAll(InitialState(), TWO_HOSTS[..3]);
            var o := Step(st, Incoming(ALICE_REKEYED));
            && o.result.error.None? && Unwanted(st.peers, o.state.peers, KeyOf(1))
            && !Named(o.result.triggers, KeyOf(1))
  {
    var st := RunAll(InitialState(), TWO_HOSTS[..3]);
    AliceIsPinned();
    RekeyedIsJudged(st);
    NobodyInTheWay(st, ALICE_REKEYED);
    ReceivesAdmitted(st, ALICE_REKEYED);
    RekeyedGivesUp(st);
    ForgottenExactly(st, Incoming(ALICE_REKEYED), Host(1).vk);
    ForgottenUnnamed(st, Incoming(ALICE_REKEYED), Host(1).vk);
  }

  // ----- a flag that comes back -----

  const FLAGGED_HOME: SystemState := HOME.(gateways := [Address(1)])

  const GATEWAY_MOVES: seq<Event> :=
    [EditPref(AddOp, SubnetsAllowed, LAN_TEXT), NewSystemState(FLAGGED_HOME), Incoming(Host(1)), NewSystemState(HOME)]

  const DEFAULTS: Prefs := InitialState().prefs

  const OPENED: Prefs := DEFAULTS.(subnetsAllowed := DEFAULTS.subnetsAllowed + [LAN])

  lemma {:induction false} NoneWritten(s: seq<Net>, text: string)
    requires forall n | n in s :: ShowNet(n) != text
    ensures WithoutText(s, text) == s
  {
    if s != [] {
      NoneWritten(s[1..], text);
    }
  }

  lemma {:induction false} WithoutTextConcat(s: seq<Net>, t: seq<Net>, text: string)
    ensures WithoutText(s + t, text) == WithoutText(s, text) + WithoutText(t, text)
  {
    if s == [] {
      assert s + t == t;
    } else {
      assert (s + t)[1..] == s[1..] + t;
      WithoutTextConcat(s[1..], t, text);
    }
  }

  /** No network of the defaults ends in a four. */
  lemma LanIsNew()
    ensures WithoutText(DEFAULTS.subnetsAllowed, LAN_TEXT.text) == DEFAULTS.subnetsAllowed
  {
    forall n | n in DEFAULTS.subnetsAllowed ensures ShowNet(n) != LAN_TEXT.text {
      ShownLast(n);
      assert n.prefix in [10, 7, 16, 8, 12];
    }
    NoneWritten(DEFAULTS.subnetsAllowed, LAN_TEXT.text);
  }

  lemma LanIsWritten()
    ensures ShowNet(LAN) == LAN_TEXT.text
  {
    ShownV4(1, 2, 3, 0, 24);
    assert Decimal(2) == "2" && Decimal(24) == "24";
  }

  lemma NetAdded(p: Prefs, v: Input, n: Net)
    requires v.asNet == Some(n) && WithoutText(p.subnetsAllowed, v.text) == p.subnetsAllowed
    ensures EditedPrefs(p, AddOp, SubnetsAllowed, v) == Some(p.(subnetsAllowed := p.subnetsAllowed + [n]))
  {
  }

  lemma LastRemoved(s: seq<Net>, text: string, n: Net)
    requires ShowNet(n) == text && WithoutText(s, text) == s
    ensures WithoutText(s + [n], text) == s
  {
    WithoutTextConcat(s, [n], text);
    assert WithoutText([n][1..], text) == [];
  }

  lemma NetEdits(p: Prefs, op: Operation, v: Input)
    ensures EditedNets(p.subnetsAllowed, op, v).Some? ==>
              EditedPrefs(p, op, SubnetsAllowed, v)
              == Some(p.(subnetsAllowed := EditedNets(p.subnetsAllowed, op, v).value))
  {
  }

  lemma NetRemoved(p: Prefs, s: seq<Net>, v: Input, n: Net)
    requires p.subnetsAllowed == s + [n] && ShowNet(n) == v.text && WithoutText(s, v.text) == s
    ensures EditedPrefs(p, RemoveOp, SubnetsAllowed, v) == Some(p.(subnetsAllowed := s))
  {
    LastRemoved(s, v.text, n);
    NetEdits(p, RemoveOp, v);
  }

  lemma LanAdded()
    ensures EditedPrefs(DEFAULTS, AddOp, SubnetsAllowed, LAN_TEXT) == Some(OPENED)
  {
    LanIsNew();
    NetAdded(DEFAULTS, LAN_TEXT, LAN);
  }

  lemma LanRemoved()
    ensures EditedPrefs(OPENED, RemoveOp, SubnetsAllowed, LAN_TEXT) == Some(DEFAULTS)
  {
    LanIsNew();
    LanIsWritten();
    NetRemoved(OPENED, DEFAULTS.subnetsAllowed, LAN_TEXT, LAN);
  }

  lemma AllowedAtHome(sys: SystemState, n: byte)
    requires sys.subnets == HOME.subnets
    ensures Usable(Address(n), OPENED, sys)
  {
    HostInLan(n);
    assert sys.subnets[0].0 == LAN && LAN.address.V4? && VULA_ULA_SUBNET.address.V6?;
    assert OPENED.subnetsAllowed[|DEFAULTS.subnetsAllowed|] == LAN;
  }

  lemma AliceArrivesUnpinned(evs: seq<Event>, sys: SystemState)
    requires Opening(evs, AddOp, SubnetsAllowed, LAN_TEXT, sys)
    ensures AliceKnown(RunAll(InitialState(), evs[..3]), OPENED, sys, false)
  {
    LanAdded();
    AllowedAtHome(sys, 1);
    AliceArrives(evs, AddOp, SubnetsAllowed, LAN_TEXT, OPENED, sys);
  }

  lemma SystemCommits(st: State, sys: SystemState)
    requires Inv(st) && st.peers.at.Keys == {Host(1).vk}
    ensures Step(st, NewSystemState(sys)).result.error.None?
            && Step(st, NewSystemState(sys)).state == AdjustNext(st, sys)
  {
    var next := AdjustNext(st, sys);
    SweepAddsNothing(Reflagged(st, sys), st.peers.order, st, sys);
    ReflagFlags(st, sys);
    AdjustDispatch(st, sys);
    AloneIsFine(next.peers, Host(1).vk);
    GateOpens(st, NewSystemState(sys), next);
  }

  lemma RefreshNoneIn(q: Peer, st: State, sys: SystemState)
    requires Address(1) in q.descriptor.V4s() && Usable(Address(1), st.prefs, sys)
    ensures Refresh(q, q.descriptor, st, sys).Some?
  {
    assert Address(1) in On(V4For(q.pinned, q.v4, q.descriptor, st.prefs, sys));
  }

  lemma AliceSwept(st: State, sys: SystemState)
    requires Inv(st) && st.peers.at.Keys == {Host(1).vk} && st.peers.at[Host(1).vk].descriptor == Host(1)
    requires st.prefs == OPENED && sys.subnets == HOME.subnets
    ensures Host(1).vk in AdjustNext(st, sys).peers.at
  {
    var vk := Host(1).vk;
    var flagged := Reflagged(st, sys);
    ReflagFlags(st, sys);
    SweepAt(flagged, st.peers.order, st, sys);
    assert SweptAt(AdjustNext(st, sys).peers, flagged, vk, st, sys);
    assert SameButFlag(st.peers.at[vk], flagged.at[vk]);
    AllowedAtHome(sys, 1);
    RefreshNoneIn(flagged.at[vk], st, sys);
  }

  lemma AliceAnnouncesOld(st: State)
    requires st.system == FLAGGED_HOME
    ensures GatewayAnnounced(Host(1), HOME, st.system.gateways)
  {
    HostAddrs(1);
    HostInLan(1);
    assert HOME.subnets[0].0 == LAN && LAN.address.V4? && VULA_ULA_SUBNET.address.V6?;
  }

  lemma AliceUnflagged(st: State)
    requires AliceKnown(st, OPENED, FLAGGED_HOME, false)
    ensures !FlagMoved(st, HOME, Host(1).vk)
  {
    var vk := Host(1).vk;
    assert Claimant(Values(st.peers), HOME.gateways).None?;
    CurrentIs(st.peers);
  }

  /**
   * The only gateway is gone, so Alice, flagged and not pinned, loses the flag; but the
   * refresh in the same event still finds her among the committed gateways and sets it again.
   */
  lemma FlagComesBack()
    ensures var st := RunAll(InitialState(), GATEWAY_MOVES[..3]);
            var o := Step(st, NewSystemState(HOME));
            && o.result.error.None? && HOME.gateways == []
            && Host(1).vk in st.peers.at && !st.peers.at[Host(1).vk].pinned
            && st.peers.at[Host(1).vk].gateway && !FlagMoved(st, HOME, Host(1).vk)
            && Host(1).vk in o.state.peers.at && o.state.peers.at[Host(1).vk].gateway
  {
    var st := RunAll(InitialState(), GATEWAY_MOVES[..3]);
    AliceArrivesUnpinned(GATEWAY_MOVES, FLAGGED_HOME);
    SystemCommits(st, HOME);
    AliceSwept(st, HOME);
    AliceUnflagged(st);
    FlagAfterSystemState(st, HOME, Host(1).vk);
    AliceAnnouncesOld(st);
  }

  // ----- a network by another text -----

  const TEN: Net := Net(V4([10, 0, 0, 0]), 8)

  const TEN_BY_MASK: Input := Input("10.0.0.0/255.0.0.0", None, None, None, Some(TEN))

  lemma MaskIsNotWritten(n: Net)
    ensures ShowNet(n) != TEN_BY_MASK.text
  {
    assert TEN_BY_MASK.text[12] == '.';
    if ShowNet(n) == TEN_BY_MASK.text {
      ShownPrefix(n, 8);
    }
  }

  lemma TenIsDefault()
    ensures TEN in DEFAULTS.subnetsAllowed && TEN_BY_MASK.text != ShowNet(TEN)
  {
    assert DEFAULTS.subnetsAllowed[3] == TEN;
    MaskIsNotWritten(TEN);
  }

  lemma AddedTwice(s: seq<Net>, v: Input, n: Net)
    requires v.asNet == Some(n) && v.text != ShowNet(n) && n in s
    ensures Times(EditedNets(s, AddOp, v).value, n) > 1
  {
    var added := EditedNets(s, AddOp, v).value;
    AddedOnceExactly(s, v, n);
    TimesSnoc(added[..|added| - 1], n);
    assert added == added[..|added| - 1] + [n];
  }

  lemma OtherTextMisses(st: State, v: Input, n: Net)
    requires Inv(st) && v.asNet == Some(n) && v.text != ShowNet(n) && n in st.prefs.subnetsAllowed
    ensures var o := Step(st, EditPref(AddOp, SubnetsAllowed, v));
            o.result.error.None? && Times(o.state.prefs.subnetsAllowed, n) > 1
    ensures var o := Step(st, EditPref(RemoveOp, SubnetsAllowed, v));
            o.result.error.None? && n in o.state.prefs.subnetsAllowed
  {
    var s := st.prefs.subnetsAllowed;
    AddedTwice(s, v, n);
    RemovedExactly(s, v, n);
    NetEdits(st.prefs, AddOp, v);
    NetEdits(st.prefs, RemoveOp, v);
    PrefersAs(st, AddOp, SubnetsAllowed, v);
    PrefersAs(st, RemoveOp, SubnetsAllowed, v);
  }

  /**
   * 10.0.0.0/8 is allowed by default. Given with a netmask, adding it lists it twice and
   * removing it leaves it listed, and both succeed.
   */
  lemma MaskIsNotFound()
    ensures var o := Step(InitialState(), EditPref(AddOp, SubnetsAllowed, TEN_BY_MASK));
            o.result.error.None? && Times(o.state.prefs.subnetsAllowed, TEN) > 1
    ensures var o := Step(InitialState(), EditPref(RemoveOp, SubnetsAllowed, TEN_BY_MASK));
            o.result.error.None? && TEN in o.state.prefs.subnetsAllowed
  {
    InitialInv();
    TenIsDefault();
    OtherTextMisses(InitialState(), TEN_BY_MASK, TEN);
  }

  // ----- an address two peers wait for -----

  const SHARED: IPv4 := V4([10, 0, 0, 7])

  /** At home, and now in a second network, which is allowed by default. */
  const OFFICE: SystemState := HOME.(subnets := HOME.subnets + [(Net(V4([10, 0, 0, 0]), 24), [V4([10, 0, 0, 9])])])

  /** The host also announces an address that is not local at home, and so does every other guest. */
  function Guest(n: byte): Descriptor {
    Host(n).(v4a := Some([Address(n), SHARED]))
  }

  const TWO_GUESTS: seq<Event> :=
    [EditPref(AddOp, SubnetsAllowed, LAN_TEXT), NewSystemState(HOME), Incoming(Guest(1)), Incoming(Guest(2))]

  /** Of the two announced addresses the local one is on. */
  predicate GuestRecord(p: Peer, n: byte) {
    && p.descriptor == Guest(n) && p.enabled && !p.gateway
    && p.EnabledNames() == {Hostname(n)} && p.EnabledAddrs() == {Address(n)}
  }

  lemma GuestAddrs(n: byte)
    ensures Guest(n).Announced() == {Address(n), SHARED}
    ensures Guest(n).All() == [Address(n), SHARED] && Address(n) != SHARED
  {
    assert Address(n).octets[0] != SHARED.octets[0];
  }

  lemma OutsideNet(n: Net, ip: IPv4, i: nat)
    requires n.address.V4? && i < n.prefix && i < 32 && Bit(n.address.octets, i) != Bit(ip.octets, i)
    ensures !Contains(n, ip)
  {
  }

  lemma SharedIsRemote()
    ensures !OnSubnet(SHARED, HOME)
  {
    assert Pow2(3) == 8;
    OutsideNet(LAN, SHARED, 4);
  }

  lemma InsideNet(n: Net, ip: IPv4, k: nat)
    requires n.address.V4? && n.prefix == 8 * k && k <= 4 && ip.octets[..k] == n.address.octets[..k]
    ensures Contains(n, ip)
  {
    forall i | 0 <= i < n.prefix ensures Bit(ip.octets, i) == Bit(n.address.octets, i) {
      assert ip.octets[i / 8] == ip.octets[..k][i / 8] == n.address.octets[i / 8];
    }
  }

  lemma SharedQualifies()
    ensures Usable(SHARED, OPENED, OFFICE)
  {
    InsideNet(OFFICE.subnets[1].0, SHARED, 3);
    InsideNet(TEN, SHARED, 1);
    assert OPENED.subnetsAllowed[3] == TEN;
    assert VULA_ULA_SUBNET.address.V6?;
  }

  /** A home where the local network is allowed and new peers are not pinned. */
  ghost predicate Hosting(st: State) {
    Inv(st) && AtHome(st) && st.prefs == OPENED && st.system == HOME
  }

  lemma GuestIsOn(n: byte)
    ensures AddrsOn(MakePeer(Guest(n), false), OPENED, HOME) == {Address(n)}
    ensures Remains(MakePeer(Guest(n), false), OPENED, HOME)
  {
    GuestAddrs(n);
    AllowedAtHome(HOME, n);
    SharedIsRemote();
  }

  lemma GuestArrives(st: State, n: byte)
    requires Hosting(st) && Guest(n).vk !in st.peers.at
    ensures Arrival(st, Guest(n)).Some? && GuestRecord(Arrival(st, Guest(n)).value, n)
  {
    var p := MakePeer(Guest(n), false);
    assert Draft(st, Guest(n)) == p;
    GuestAddrs(n);
    GuestIsOn(n);
    NewNames(Guest(n), false);
    RefreshExact(p, st, st.system);
  }

  lemma GuestIsJudged(st: State, n: byte)
    requires Hosting(st) && n != 0 && Guest(n).vk !in st.peers.at
    requires ConflictsForDescriptor(Values(st.peers), Guest(n)) == []
    ensures Judge(st, Guest(n)).Admitted?
  {
    GuestAddrs(n);
    KeysDiffer(n, 0);
    NeighbourIsJudged(st, Guest(n), n);
  }

  lemma GuestsApart(p: Peer, m: byte, n: byte)
    requires GuestRecord(p, m) && m != n && Hostname(m) != Hostname(n)
    ensures !Clash(p, Guest(n)) && p.Id() != Guest(n).vk
  {
    GuestAddrs(n);
    KeysDiffer(m, n);
    assert Address(m).octets[3] == m && Address(n).octets[3] == n;
    assert Guest(n).Announced() * p.EnabledAddrs() == {};
  }

  lemma GuestShadows(p: Peer, m: byte, arrival: Peer, n: byte)
    requires GuestRecord(p, m) && GuestRecord(arrival, n) && m != n && Hostname(m) != Hostname(n)
    ensures !Shadows(p, arrival, Guest(n))
  {
    GuestAddrs(m);
    assert Address(m).octets[3] == m && Address(n).octets[3] == n;
    assert p.descriptor.Announced() * Guest(n).Announced() * arrival.EnabledAddrs() == {};
  }

  /** Everybody on record is guest m. */
  ghost predicate OnlyGuest(st: State, m: byte, n: byte) {
    && m != n && Hostname(m) != Hostname(n)
    && forall k | k in st.peers.at :: GuestRecord(st.peers.at[k], m)
  }

  lemma GuestGetsThrough(st: State, m: byte, n: byte)
    requires Hosting(st) && OnlyGuest(st, m, n) && Guest(n).vk !in st.peers.at
    ensures GetsThrough(st, Guest(n))
  {
    GuestArrives(st, n);
    var arrival := Arrival(st, Guest(n)).value;
    forall k | Stays(st.peers, Guest(n), k) && st.peers.at[k].enabled
      ensures !Shadows(st.peers.at[k], arrival, Guest(n)) {
      GuestShadows(st.peers.at[k], m, arrival, n);
    }
  }

  lemma NewGuest(st: State, m: byte, n: byte)
    requires Hosting(st) && OnlyGuest(st, m, n)
    ensures Guest(n).vk !in st.peers.at && ConflictsForDescriptor(Values(st.peers), Guest(n)) == []
  {
    forall k | k in st.peers.at ensures !Clash(st.peers.at[k], Guest(n)) && k != Guest(n).vk {
      GuestsApart(st.peers.at[k], m, n);
    }
    NoConflicts(st, Guest(n));
  }

  ghost predicate OthersStayed(ps: PeerDict, qs: PeerDict, vk: Key) {
    forall k | k != vk :: (k in qs.at <==> k in ps.at) && (k in ps.at ==> qs.at[k] == ps.at[k])
  }

  /** Guest n was taken in, and everybody else stayed. */
  ghost predicate GuestTaken(st: State, next: State, n: byte) {
    && Hosting(next) && Guest(n).vk in next.peers.at && GuestRecord(next.peers.at[Guest(n).vk], n)
    && OthersStayed(st.peers, next.peers, Guest(n).vk)
  }

  lemma OthersStayIn(st: State, m: byte, n: byte, next: State)
    requires Hosting(st) && OnlyGuest(st, m, n) && next == AdmitNext(st, Guest(n))
    ensures OthersStayed(st.peers, next.peers, Guest(n).vk)
  {
    forall k | k != Guest(n).vk
      ensures k in next.peers.at <==> k in st.peers.at
      ensures k in st.peers.at ==> next.peers.at[k] == st.peers.at[k] {
      if k in st.peers.at {
        GuestsApart(st.peers.at[k], m, n);
      }
      AdmitAt(st, Guest(n), k);
    }
  }

  lemma GuestIsIn(st: State, m: byte, n: byte, next: State)
    requires Hosting(st) && OnlyGuest(st, m, n) && next == AdmitNext(st, Guest(n)) && Inv(next)
    ensures GuestTaken(st, next, n)
  {
    NewGuest(st, m, n);
    GuestArrives(st, n);
    AdmittedRecord(st, Guest(n), next);
    OthersStayIn(st, m, n, next);
  }

  lemma GuestJoins(st: State, m: byte, n: byte)
    requires Hosting(st) && OnlyGuest(st, m, n) && n != 0
    ensures GuestTaken(st, Step(st, Incoming(Guest(n))).state, n)
  {
    NewGuest(st, m, n);
    GuestIsJudged(st, n);
    GuestGetsThrough(st, m, n);
    AdmitStep(st, Guest(n));
    StepKeepsInv(st, Incoming(Guest(n)));
    GuestIsIn(st, m, n, Step(st, Incoming(Guest(n))).state);
  }

  lemma HomeIsHosting(evs: seq<Event>)
    requires |evs| >= 2 && evs[0] == EditPref(AddOp, SubnetsAllowed, LAN_TEXT) && evs[1] == NewSystemState(HOME)
    ensures Hosting(RunAll(InitialState(), evs[..2])) && RunAll(InitialState(), evs[..2]).peers == Empty()
  {
    LanAdded();
    assert evs[..0] == [];
    RunSnoc(InitialState(), evs, 0);
    var first := Step(InitialState(), evs[0]).state;
    PrefersFirst(AddOp, SubnetsAllowed, LAN_TEXT, OPENED, first);
    ComesHome(first, HOME);
    SnocIs(InitialState(), evs, 1, first);
  }

  /** Both guests are on record, enabled, with what they announce. */
  ghost predicate BothGuests(st: State) {
    && Hosting(st) && Guest(1).vk in st.peers.at && Guest(2).vk in st.peers.at
    && GuestRecord(st.peers.at[Guest(1).vk], 1) && GuestRecord(st.peers.at[Guest(2).vk], 2)
  }

  lemma FirstGuestJoins(st: State)
    requires Hosting(st) && st.peers == Empty()
    ensures GuestTaken(st, Step(st, Incoming(Guest(1))).state, 1)
  {
    CastDiffers();
    GuestJoins(st, 2, 1);
  }

  lemma GuestIsAlone(st: State, one: State)
    requires st.peers == Empty() && GuestTaken(st, one, 1)
    ensures OnlyGuest(one, 1, 2)
  {
    CastDiffers();
  }

  lemma SecondGuestJoins(one: State, both: State)
    requires Hosting(one) && OnlyGuest(one, 1, 2) && Guest(1).vk in one.peers.at
    requires both == Step(one, Incoming(Guest(2))).state
    ensures BothGuests(both)
  {
    KeysDiffer(1, 2);
    GuestJoins(one, 1, 2);
  }

  lemma GuestsJoin(st: State)
    requires Hosting(st) && st.peers == Empty()
    ensures BothGuests(Step(Step(st, Incoming(Guest(1))).state, Incoming(Guest(2))).state)
  {
    FirstGuestJoins(st);
    var one := Step(st, Incoming(Guest(1))).state;
    GuestIsAlone(st, one);
    SecondGuestJoins(one, Step(one, Incoming(Guest(2))).state);
  }

  lemma GuestsAreIn()
    ensures BothGuests(RunAll(InitialState(), TWO_GUESTS))
  {
    var home := RunAll(InitialState(), TWO_GUESTS[..2]);
    HomeIsHosting(TWO_GUESTS);
    SnocIs(InitialState(), TWO_GUESTS, 2, home);
    RunLast(InitialState(), TWO_GUESTS);
    GuestsJoin(home);
  }

  /**
   * Two peers announce one address that is not local yet, and both are taken in. When a
   * network comes up in which it is local, and allowed, the new system state is refused.
   */
  lemma SystemStateIsStuck()
    ensures var st := RunAll(InitialState(), TWO_GUESTS);
            && st.system == HOME && Refused(st, Step(st, NewSystemState(OFFICE)))
  {
    GuestsAreIn();
    SharedQualifies();
    KeysDiffer(1, 2);
    GuestAddrs(1);
    GuestAddrs(2);
    SharedAddressBlocks(RunAll(InitialState(), TWO_GUESTS), OFFICE, Guest(1).vk, Guest(2).vk, SHARED);
  }

  // ----- one descriptor, delivered twice -----

  const BEFORE_DELIVERY: seq<Event> :=
    [EditPref(AddOp, SubnetsAllowed, LAN_TEXT), NewSystemState(HOME), Incoming(Host(1)),
     EditPref(RemoveOp, SubnetsAllowed, LAN_TEXT), EditPref(SetOp, PinNewPeers, YES)]

  const CLOSED: Prefs := DEFAULTS.(pinNewPeers := true)

  lemma OutsideTen()
    ensures !Contains(Net(V4([10, 0, 0, 0]), 8), Address(1))
  {
    assert Pow2(3) == 8;
    OutsideNet(Net(V4([10, 0, 0, 0]), 8), Address(1), 4);
  }

  /** The first bit is set in these networks and not in the address. */
  lemma OutsideHigh(n: Net)
    requires n.address.V4? && n.prefix > 0 && n.address.octets[0] >= 128
    ensures !Contains(n, Address(1))
  {
    assert Pow2(7) == 128;
    OutsideNet(n, Address(1), 0);
  }

  lemma NotAllowedByDefault()
    ensures !InAny(Address(1), DEFAULTS.subnetsAllowed)
  {
    OutsideTen();
    forall n | n in DEFAULTS.subnetsAllowed ensures !Contains(n, Address(1)) {
      if n.address.V4? && n != Net(V4([10, 0, 0, 0]), 8) {
        OutsideHigh(n);
      }
    }
  }

  /** Alice is known and not pinned; by now her address is not allowed and new peers are pinned. */
  ghost predicate Primed(st: State) {
    AliceKnown(st, CLOSED, HOME, false)
  }

  lemma AliceRevived(st: State)
    requires Primed(st)
    ensures Revived(st, Host(1))
  {
    HostAddrs(1);
    NotAllowedByDefault();
  }

  lemma AliceReadmitted(st: State)
    requires Primed(st)
    ensures Judge(st, Host(1)).Admitted?
  {
    NoConflicts(st, Host(1));
    HostIsJudged(st, 1);
  }

  lemma PrimedRevives(st: State)
    requires Primed(st)
    ensures TakenInAgain(st, Host(1))
  {
    AliceReadmitted(st);
    AliceRevived(st);
    HostGateway(st, 1);
  }

  lemma PreferenceKeepsAlice(st: State, op: Operation, pref: Pref, value: Input, now: Prefs, prefs: Prefs)
    requires AliceKnown(st, now, HOME, false) && EditedPrefs(now, op, pref, value) == Some(prefs)
    requires prefs.localDomains == now.localDomains
    ensures AliceKnown(Step(st, EditPref(op, pref, value)).state, prefs, HOME, false)
  {
    PrefStep(st, op, pref, value, prefs);
    StepKeepsInv(st, EditPref(op, pref, value));
  }

  lemma Primes(met: State)
    requires AliceKnown(met, OPENED, HOME, false)
    ensures var closed := Step(met, EditPref(RemoveOp, SubnetsAllowed, LAN_TEXT)).state;
            Primed(Step(closed, EditPref(SetOp, PinNewPeers, YES)).state)
  {
    LanRemoved();
    PreferenceKeepsAlice(met, RemoveOp, SubnetsAllowed, LAN_TEXT, OPENED, DEFAULTS);
    PreferenceKeepsAlice(Step(met, EditPref(RemoveOp, SubnetsAllowed, LAN_TEXT)).state, SetOp, PinNewPeers, YES,
                         DEFAULTS, CLOSED);
  }

  lemma DeliveryIsPrimed()
    ensures Primed(RunAll(InitialState(), BEFORE_DELIVERY))
  {
    AliceArrivesUnpinned(BEFORE_DELIVERY, HOME);
    RunSnoc(InitialState(), BEFORE_DELIVERY, 3);
    RunLast(InitialState(), BEFORE_DELIVERY);
    Primes(RunAll(InitialState(), BEFORE_DELIVERY[..3]));
  }

  /** A reachable state in which delivering a descriptor twice is not delivering it once. */
  lemma SecondDeliveryCanDiffer()
    ensures var once := Step(RunAll(InitialState(), BEFORE_DELIVERY), Incoming(Host(1))).state;
            Step(once, Incoming(Host(1))).state != once
  {
    var st := RunAll(InitialState(), BEFORE_DELIVERY);
    DeliveryIsPrimed();
    PrimedRevives(st);
    SecondDelivery(st, Host(1));
  }
}
