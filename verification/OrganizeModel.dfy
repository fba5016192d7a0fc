/**
 * The rules of the organize state engine (vula/organize.py over vula/engine.py)
 * as functions: a transaction reads the committed state, changes a copy of it
 * through logged writes, and is committed only if the copy passes the schema.
 */
module OrganizeModel {
  import opened Addresses
  import opened Nets
  import opened OrderedDict
  import opened Queryable
  import opened Peers

  // ----- state -----

  datatype SystemState = SystemState(
    subnets: seq<(Net, seq<IP>)>,
    ourPk: Key,
    gateways: seq<IP>,
    hasV6: bool)
  {
    /** The address lies in a current subnet other than the vula ULA subnet itself. */
    predicate Local(ip: IP) {
      exists i | 0 <= i < |subnets| :: subnets[i].0 != VULA_ULA_SUBNET && Contains(subnets[i].0, ip)
    }
  }

  /** The preferences by name; any other name is unknown to the schema. */
  datatype Pref =
    | PinNewPeers
    | AutoRepair
    | SubnetsAllowed
    | SubnetsForbidden
    | IfacePrefixAllowed
    | AcceptNonlocal
    | LocalDomains
    | EphemeralMode
    | AcceptDefaultRoute
    | OverwriteUnpinned
    | ExpireTime
    | PrimaryIp
    | RecordEvents
    | EnableIpv6
    | EnableIpv4
    | Unknown(name: string)

  /** Only the first four steer the rules below; `switches` are the other switches that are on. */
  datatype Prefs = Prefs(
    pinNewPeers: bool,
    localDomains: seq<string>,
    subnetsAllowed: seq<Net>,
    subnetsForbidden: seq<Net>,
    ifacePrefixAllowed: seq<string>,
    expireTime: int,
    primaryIp: IP,
    switches: set<Pref>)

  datatype State = State(prefs: Prefs, peers: Dict<Key, Peer>, system: SystemState)

  function InitialState(): State {
    State(
      Prefs(false, ["local.", "local"],
        [IPV6_LL, IPV6_ULA, IPV4_LL,
         Net(V4([10, 0, 0, 0]), 8), Net(V4([192, 168, 0, 0]), 16), Net(V4([172, 16, 0, 0]), 12)],
        [], ["en", "eth", "wl", "thunderbolt"], 3600, V4([0, 0, 0, 0]),
        {AutoRepair, AcceptDefaultRoute, OverwriteUnpinned, EnableIpv6, EnableIpv4}),
      Empty(),
      SystemState([], Key(ZERO16 + ZERO16), [], true))
  }

  // ----- writes -----

  /** The places inside a peer record that are written. */
  datatype Field =
    | Desc(d: Descriptor)
    | V4Table(v4: map<IPv4, bool>)
    | V6Table(v6: map<IPv6, bool>)
    | Nickname(name: string, on: bool)
    | Addr(ip: IP, on: bool)
    | Gateway(on: bool)
    | Petname(name: string)
    | Enabled(on: bool)
    | Verified(on: bool)
    | Pinned(on: bool)

  /** What "peer set" edits: everything but the descriptor and whole tables. */
  type UserField = f: Field | !f.Desc? && !f.V4Table? && !f.V6Table? witness Gateway(false)

  function SetField(p: Peer, f: Field): Peer {
    match f
    case Desc(d) => p.(descriptor := d)
    case V4Table(m) => p.(v4 := m)
    case V6Table(m) => p.(v6 := m)
    case Nickname(name, on) => p.(nicknames := p.nicknames[name := on])
    case Addr(ip, on) => if ip.V4? then p.(v4 := p.v4[ip := on]) else p.(v6 := p.v6[ip := on])
    case Gateway(on) => p.(gateway := on)
    case Petname(name) => p.(petname := name)
    case Enabled(on) => p.(enabled := on)
    case Verified(on) => p.(verified := on)
    case Pinned(on) => p.(pinned := on)
  }

  datatype Operation = SetOp | AddOp | RemoveOp

  /** The text of a new value, with what the schema makes of it, if anything. */
  datatype Input = Input(
    text: string,
    asSwitch: Option<bool>,
    asNumber: Option<int>,
    asIp: Option<IP>,
    asNet: Option<Net>)

  /** A list cannot be set to a single text; it is otherwise kept as a set in insertion order. */
  function EditedTexts(s: seq<string>, op: Operation, x: string): Option<seq<string>> {
    match op
    case SetOp => None
    case AddOp => Some(Without(s, x) + [x])
    case RemoveOp => Some(Without(s, x))
  }

  /** The networks that are not written like this. */
  function WithoutText(s: seq<Net>, text: string): (r: seq<Net>)
    ensures forall n :: n in r <==> n in s && ShowNet(n) != text
  {
    if s == [] then [] else (if ShowNet(s[0]) == text then [] else [s[0]]) + WithoutText(s[1..], text)
  }

  /** The items of a list of networks are compared with the new value as texts. */
  function EditedNets(s: seq<Net>, op: Operation, v: Input): Option<seq<Net>> {
    match op
    case SetOp => None
    case AddOp => if v.asNet.Some? then Some(WithoutText(s, v.text) + [v.asNet.value]) else None
    case RemoveOp => Some(WithoutText(s, v.text))
  }

  /** None where the write raises or the schema refuses what it leaves. */
  function EditedPrefs(p: Prefs, op: Operation, pref: Pref, v: Input): Option<Prefs> {
    match pref
    case SubnetsAllowed =>
      var nets := EditedNets(p.subnetsAllowed, op, v);
      if nets.Some? then Some(p.(subnetsAllowed := nets.value)) else None
    case SubnetsForbidden =>
      var nets := EditedNets(p.subnetsForbidden, op, v);
      if nets.Some? then Some(p.(subnetsForbidden := nets.value)) else None
    case LocalDomains =>
      var texts := EditedTexts(p.localDomains, op, v.text);
      if texts.Some? then Some(p.(localDomains := texts.value)) else None
    case IfacePrefixAllowed =>
      var texts := EditedTexts(p.ifacePrefixAllowed, op, v.text);
      if texts.Some? then Some(p.(ifacePrefixAllowed := texts.value)) else None
    case ExpireTime => if op.SetOp? && v.asNumber.Some? then Some(p.(expireTime := v.asNumber.value)) else None
    case PrimaryIp => if op.SetOp? && v.asIp.Some? then Some(p.(primaryIp := v.asIp.value)) else None
    case Unknown(_) => None
    case PinNewPeers => if op.SetOp? && v.asSwitch.Some? then Some(p.(pinNewPeers := v.asSwitch.value)) else None
    case _ =>
      if op.SetOp? && v.asSwitch.Some?
      then Some(p.(switches := if v.asSwitch.value then p.switches + {pref} else p.switches - {pref})) else None
  }

  datatype Write =
    | Set(vk: Key, field: Field)
    | PutPeer(vk: Key, peer: Peer)
    | RemovePeer(vk: Key)
    | RemoveAddr(vk: Key, ip: IP)
    | SetSystem(system: SystemState)
    | EditPrefs(op: Operation, pref: Pref, value: Input)

  function HasAddr(p: Peer, ip: IP): bool {
    if ip.V4? then ip in p.v4 else ip in p.v6
  }

  function WithoutAddr(p: Peer, ip: IP): Peer {
    if ip.V4? then p.(v4 := p.v4 - {ip}) else p.(v6 := p.v6 - {ip})
  }

  /** One write; None is the exception of a missing key, or a value that raises here or in the schema. */
  function ApplyWrite(st: State, w: Write): Option<State> {
    match w
    case Set(vk, f) =>
      if vk in st.peers.at then Some(st.(peers := Put(st.peers, vk, SetField(st.peers.at[vk], f)))) else None
    case PutPeer(vk, p) => Some(st.(peers := Put(st.peers, vk, p)))
    case RemovePeer(vk) =>
      if vk in st.peers.at then Some(st.(peers := Drop(st.peers, vk))) else None
    case RemoveAddr(vk, ip) =>
      if vk in st.peers.at && HasAddr(st.peers.at[vk], ip)
      then Some(st.(peers := Put(st.peers, vk, WithoutAddr(st.peers.at[vk], ip)))) else None
    case SetSystem(sys) => Some(st.(system := sys))
    case EditPrefs(op, pref, value) =>
      match EditedPrefs(st.prefs, op, pref, value)
      case None => None
      case Some(prefs) => Some(st.(prefs := prefs))
  }

  /** Folding a write log over a state. */
  function Replay(st: State, ws: seq<Write>): Option<State> {
    if ws == [] then Some(st)
    else
      match Replay(st, ws[..|ws| - 1])
      case None => None
      case Some(mid) => ApplyWrite(mid, ws[|ws| - 1])
  }

  // ----- events, results, transactions -----

  datatype Event =
    | VerifyAndPin(vk: Key, hostname: string)
    | UserRemovePeer(query: Query)
    | AddrAdd(vk: Key, ip: Option<IP>)
    | AddrDel(vk: Key, ip: Option<IP>)
    | EditPeer(vk: Key, field: UserField)
    | EditPref(op: Operation, pref: Pref, value: Input)
    | ReleaseGateway
    | NewSystemState(system: SystemState)
    | Incoming(d: Descriptor)

  datatype Action =
    | ActEdit(write: Write)
    | ActRemovePeer(vk: Key)
    | ActIgnore(reason: string)
    | ActReject(reason: string)
    | ActAddrAdd(vk: Key, ip: Option<IP>)
    | ActAddrDel(vk: Key, ip: Option<IP>)
    | ActAdjust(system: SystemState)
    | ActAcceptNewPeer(d: Descriptor)
    | ActUpdateDescriptor(vk: Key, d: Descriptor)

  datatype Trigger =
    | SyncPeer(vk: Key)
    | RemoveWgPeer(pk: Key)
    | RemoveRoutesOf(peer: Peer)
    | RemoveRoute(ip: IP)
    | RemoveGatewayRoutes
    | GetNewSystemState
    | RemoveUnknown

  datatype Error =
    | MissingAttribute
    | NameNotFound
    | AmbiguousName
    | WrongKey
    | AmbiguousQuery
    | BadValue
    | FailedWrite
    | ConflictingPeers

  datatype Result = Result(
    event: Event,
    actions: seq<Action>,
    writes: seq<Write>,
    triggers: seq<Trigger>,
    error: Option<Error>)

  /** `next_state` and `result` while an event runs. An error stops everything after it. */
  datatype Txn = Txn(next: State, result: Result) {
    predicate Failed() {
      result.error.Some?
    }

    function Fail(e: Error): Txn {
      if Failed() then this else this.(result := result.(error := Some(e)))
    }

    function Act(a: Action): Txn {
      if Failed() then this else this.(result := result.(actions := result.actions + [a]))
    }

    function Trigger(t: Trigger): Txn {
      if Failed() then this else this.(result := result.(triggers := result.triggers + [t]))
    }

    function Do(w: Write): Txn {
      if Failed() then this
      else
        var logged := result.(writes := result.writes + [w]);
        match ApplyWrite(next, w)
        case None => Txn(next, logged.(error := Some(FailedWrite)))
        case Some(st) => Txn(st, logged)
    }
  }

  function Begin(st: State, ev: Event): Txn {
    Txn(st, Result(ev, [], [], [], None))
  }

  // ----- the schema gate -----

  /** `limit(use_as_gateway=True, enabled=True)` */
  function EnabledGateways(ps: seq<Peer>): seq<Peer> {
    if ps == [] then []
    else (if ps[0].gateway && ps[0].enabled then [ps[0]] else []) + EnabledGateways(ps[1..])
  }

  function InConflict(all: seq<Peer>, ps: seq<Peer>): seq<Key> {
    if ps == [] then []
    else (if ConflictsForDescriptor(all, ps[0].descriptor) != [] then [ps[0].Id()] else []) + InConflict(all, ps[1..])
  }

  function Ids(ps: seq<Peer>): seq<Key> {
    seq(|ps|, i requires 0 <= i < |ps| => ps[i].Id())
  }

  /** `Peers.conflicts`, before its ids are joined into one string. */
  function Conflicts(ps: seq<Peer>): seq<Key> {
    InConflict(ps, EnabledOnly(ps)) + (if |EnabledGateways(ps)| > 1 then Ids(EnabledGateways(ps)) else [])
  }

  predicate SchemaOk(st: State) {
    Conflicts(Values(st.peers)) == []
  }

  // ----- _update_peer -----

  predicate Qualifies(ip: IP, prefs: Prefs, sys: SystemState) {
    sys.Local(ip) && InAny(ip, prefs.subnetsAllowed)
  }

  function AllOn<K>(ks: set<K>): map<K, bool> {
    map k | k in ks :: true
  }

  /** `v4`: everything known is on for a pinned peer, what qualifies is on for another. */
  function V4For(pinned: bool, recorded: map<IPv4, bool>, d: Descriptor, prefs: Prefs, sys: SystemState)
    : map<IPv4, bool>
  {
    if pinned then AllOn((set ip | ip in d.V4s()) + recorded.Keys)
    else map ip: IPv4 | ip in d.V4s() :: Qualifies(ip, prefs, sys)
  }

  function V6For(pinned: bool, recorded: map<IPv6, bool>, d: Descriptor, prefs: Prefs, sys: SystemState)
    : map<IPv6, bool>
  {
    if pinned then AllOn((set ip | ip in d.V6s()) + recorded.Keys)
    else map ip: IPv6 | ip in d.V6s() :: Qualifies(ip, prefs, sys)
  }

  predicate EndsWith(s: string, suffix: string) {
    |suffix| <= |s| && s[|s| - |suffix|..] == suffix
  }

  predicate InLocalDomain(name: string, prefs: Prefs) {
    exists domain | domain in prefs.localDomains :: EndsWith(name, domain)
  }

  /** A local announced address is a gateway address. */
  predicate AnnouncesGateway(d: Descriptor, sys: SystemState, gateways: seq<IP>) {
    exists ip | ip in d.Announced() :: sys.Local(ip) && ip in gateways
  }

  /** A write made only when it changes something. */
  function DoIf(t: Txn, needed: bool, w: Write): Txn {
    if needed then t.Do(w) else t
  }

  function WriteTables(t: Txn, peer: Peer, v4: map<IPv4, bool>, v6: map<IPv6, bool>): Txn {
    DoIf(DoIf(t, v4 != peer.v4, Set(peer.Id(), V4Table(v4))), v6 != peer.v6, Set(peer.Id(), V6Table(v6)))
  }

  predicate NameIsNew(peer: Peer, d: Descriptor, prefs: Prefs) {
    d.hostname !in peer.nicknames && InLocalDomain(d.hostname, prefs)
  }

  function WriteNameAndFlag(t: Txn, vk: Key, name: string, isNew: bool, flag: bool): Txn {
    DoIf(DoIf(t, isNew, Set(vk, Nickname(name, true))), flag, Set(vk, Gateway(true)))
  }

  function RemovePeerAction(t: Txn, peer: Peer): Txn {
    var t1 := t.Act(ActRemovePeer(peer.Id())).Do(RemovePeer(peer.Id()));
    var t2 := t1.Trigger(RemoveWgPeer(peer.descriptor.pk)).Trigger(RemoveRoutesOf(peer));
    if peer.gateway then t2.Trigger(RemoveGatewayRoutes) else t2
  }

  /** `base` is the committed state: its preferences and its gateways are what is read. */
  function UpdatePeer(t: Txn, base: State, peer: Peer, d: Descriptor, sys: SystemState): Txn {
    var v4 := V4For(peer.pinned, peer.v4, d, base.prefs, sys);
    var v6 := V6For(peer.pinned, peer.v6, d, base.prefs, sys);
    var t1 := WriteTables(t, peer, v4, v6);
    if On(v4) == {} && On(v6) == {} then RemovePeerAction(t1, peer)
    else
      WriteNameAndFlag(t1, peer.Id(), d.hostname, NameIsNew(peer, d, base.prefs),
                       AnnouncesGateway(d, sys, base.system.gateways)).Trigger(SyncPeer(peer.Id()))
  }

  // ----- action_EDIT -----

  function EditPeerAction(t: Txn, base: State, vk: Key, f: Field): Txn {
    var t1 := t.Act(ActEdit(Set(vk, f))).Do(Set(vk, f));
    if t1.Failed() || vk !in t1.next.peers.at then t1
    else
      var edited := t1.next.peers.at[vk];
      UpdatePeer(t1, base, edited, edited.descriptor, base.system).Trigger(RemoveUnknown)
  }

  function EditPrefAction(t: Txn, op: Operation, pref: Pref, value: Input): Txn {
    var w := EditPrefs(op, pref, value);
    t.Act(ActEdit(w)).Do(w).Trigger(GetNewSystemState).Trigger(RemoveUnknown)
  }

  // ----- system state -----

  function FirstGateway(ps: seq<Peer>): Option<Peer> {
    if ps == [] then None else if ps[0].gateway then Some(ps[0]) else FirstGateway(ps[1..])
  }

  predicate HoldsAny(p: Peer, ips: seq<IP>) {
    exists ip | ip in ips :: ip in p.EnabledIps()
  }

  /** The first gateway address some peer holds makes the first such peer the gateway. */
  function ClaimGateway(t: Txn, ps: seq<Peer>, gateways: seq<IP>): Txn {
    if gateways == [] then t
    else
      var hits := Scan(ps, IpAttr, gateways[0]);
      if hits != [] then t.Do(Set(hits[0].Id(), Gateway(true))).Trigger(SyncPeer(hits[0].Id()))
      else ClaimGateway(t, ps, gateways[1..])
  }

  function UpdateAll(t: Txn, base: State, ps: seq<Peer>, sys: SystemState): Txn {
    if ps == [] then t
    else
      var last := ps[|ps| - 1];
      UpdatePeer(UpdateAll(t, base, ps[..|ps| - 1], sys), base, last, last.descriptor, sys)
  }

  predicate LosesGateway(cur: Option<Peer>, sys: SystemState) {
    cur.Some? && !cur.value.pinned && !HoldsAny(cur.value, sys.gateways)
  }

  predicate PinnedGateway(cur: Option<Peer>) {
    cur.Some? && cur.value.pinned
  }

  /** A peer that is not pinned loses the flag when it holds none of the new gateways. */
  function ReleaseLost(t: Txn, cur: Option<Peer>, sys: SystemState): Txn {
    if LosesGateway(cur, sys)
    then t.Do(Set(cur.value.Id(), Gateway(false))).Trigger(RemoveGatewayRoutes) else t
  }

  function MoveGateway(t: Txn, ps: seq<Peer>, sys: SystemState): Txn {
    var cur := FirstGateway(ps);
    if PinnedGateway(cur) then ReleaseLost(t, cur, sys) else ClaimGateway(ReleaseLost(t, cur, sys), ps, sys.gateways)
  }

  function Adjust(t: Txn, base: State, sys: SystemState): Txn {
    var ps := Values(base.peers);
    UpdateAll(MoveGateway(t.Act(ActAdjust(sys)), ps, sys), base, ps, sys).Do(SetSystem(sys))
  }

  // ----- incoming descriptors -----

  datatype Verdict = Broken | Ignored(reason: string) | Rejected(reason: string) | Admitted

  /** The checks in front of any write, in the source's order. */
  function Judge(base: State, d: Descriptor): Verdict {
    if d.p.None? then Broken
    else if !Contains(IPV6_ULA, d.p.value) then Ignored("primary IP is not in ULA subnet")
    else if d.pk == base.system.ourPk then Ignored("has our wg pk")
    else if d.vk in base.peers.at && d.vf < base.peers.at[d.vk].descriptor.vf then Ignored("replay")
    else if !(exists ip | ip in d.All() :: base.system.Local(ip)) then Rejected("no addresses local to us")
    else if !InLocalDomain(d.hostname, base.prefs) then Rejected("invalid domain")
    else if exists q | q in ConflictsForDescriptor(Values(base.peers), d) :: q.pinned then Rejected("conflict")
    else Admitted
  }

  function RemoveAllOf(t: Txn, ps: seq<Peer>): Txn {
    if ps == [] then t else RemovePeerAction(RemoveAllOf(t, ps[..|ps| - 1]), ps[|ps| - 1])
  }

  function AcceptNewPeer(t: Txn, base: State, d: Descriptor): Txn {
    var peer := MakePeer(d, !d.e && base.prefs.pinNewPeers);
    UpdatePeer(t.Act(ActAcceptNewPeer(d)).Do(PutPeer(d.vk, peer)), base, peer, d, base.system)
  }

  function UpdateDescriptor(t: Txn, base: State, peer: Peer, d: Descriptor): Txn {
    UpdatePeer(t.Act(ActUpdateDescriptor(peer.Id(), d)).Do(Set(peer.Id(), Desc(d))), base, peer, d, base.system)
  }

  function Admit(t: Txn, base: State, d: Descriptor): Txn {
    var t1 := RemoveAllOf(t, ConflictsForDescriptor(Values(base.peers), d));
    if d.vk in base.peers.at then UpdateDescriptor(t1, base, base.peers.at[d.vk], d) else AcceptNewPeer(t1, base, d)
  }

  function ProcessDescriptor(t: Txn, base: State, d: Descriptor): Txn {
    match Judge(base, d)
    case Broken => t.Fail(MissingAttribute)
    case Ignored(reason) => t.Act(ActIgnore(reason))
    case Rejected(reason) => t.Act(ActReject(reason))
    case Admitted => Admit(t, base, d)
  }

  // ----- the events -----

  function VerifyFound(t: Txn, base: State, vk: Key, found: Lookup): Txn {
    match found
    case Missing => t.Fail(NameNotFound)
    case Ambiguous => t.Fail(AmbiguousName)
    case Found(peer) =>
      if vk != peer.Id() then t.Fail(WrongKey)
      else EditPeerAction(EditPeerAction(t, base, vk, Verified(true)), base, vk, Pinned(true))
  }

  function RunVerify(t: Txn, base: State, vk: Key, hostname: string): Txn {
    VerifyFound(t, base, vk, WithHostname(Values(base.peers), hostname))
  }

  function RunRemove(t: Txn, base: State, q: Query): Txn {
    match LookUp(Values(base.peers), q)
    case Ambiguous => t.Fail(AmbiguousQuery)
    case Missing => t.Act(ActIgnore("no such peer"))
    case Found(peer) => RemovePeerAction(t, peer)
  }

  function RunAddrAdd(t: Txn, base: State, vk: Key, ip: Option<IP>): Txn {
    if vk !in base.peers.at then t.Act(ActIgnore("no such peer"))
    else if ip.None? then t.Act(ActAddrAdd(vk, ip)).Fail(BadValue)
    else t.Act(ActAddrAdd(vk, ip)).Do(Set(vk, Addr(ip.value, true))).Trigger(SyncPeer(base.peers.at[vk].Id()))
  }

  function RunAddrDel(t: Txn, base: State, vk: Key, ip: Option<IP>): Txn {
    if vk !in base.peers.at then t.Act(ActIgnore("no such peer"))
    else if ip.None? then t.Act(ActAddrDel(vk, ip)).Fail(BadValue)
    else
      t.Act(ActAddrDel(vk, ip)).Do(RemoveAddr(vk, ip.value))
       .Trigger(SyncPeer(base.peers.at[vk].Id())).Trigger(RemoveRoute(ip.value))
  }

  function RunRelease(t: Txn, base: State): Txn {
    match FirstGateway(Values(base.peers))
    case None => t.Act(ActIgnore("no current gateway peer"))
    case Some(peer) => EditPeerAction(t, base, peer.Id(), Gateway(false)).Trigger(GetNewSystemState)
  }

  /** What the user does by hand. */
  function RunUser(t: Txn, base: State, ev: Event): Txn {
    match ev
    case VerifyAndPin(vk, hostname) => RunVerify(t, base, vk, hostname)
    case UserRemovePeer(q) => RunRemove(t, base, q)
    case AddrAdd(vk, ip) => RunAddrAdd(t, base, vk, ip)
    case AddrDel(vk, ip) => RunAddrDel(t, base, vk, ip)
    case EditPeer(vk, f) => EditPeerAction(t, base, vk, f)
    case EditPref(op, pref, value) => EditPrefAction(t, op, pref, value)
    case ReleaseGateway => RunRelease(t, base)
    case _ => t
  }

  function Run(t: Txn, base: State, ev: Event): Txn {
    match ev
    case NewSystemState(sys) => Adjust(t, base, sys)
    case Incoming(d) => ProcessDescriptor(t, base, d)
    case _ => RunUser(t, base, ev)
  }

  // ----- commit -----

  datatype Outcome = Outcome(state: State, result: Result)

  /** Commit the copy if nothing failed and it passes the schema; otherwise drop it and the triggers. */
  function Finish(base: State, t: Txn): Outcome {
    if t.Failed() then Outcome(base, t.result.(triggers := []))
    else if !SchemaOk(t.next) then Outcome(base, t.result.(triggers := [], error := Some(ConflictingPeers)))
    else Outcome(t.next, t.result)
  }

  function Step(st: State, ev: Event): Outcome {
    Finish(st, Run(Begin(st, ev), st, ev))
  }

  function RunAll(st: State, evs: seq<Event>): State {
    if evs == [] then st else Step(RunAll(st, evs[..|evs| - 1]), evs[|evs| - 1]).state
  }
}
