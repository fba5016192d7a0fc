/**
 * Looking peers up by name, address and key (vula/peer.py): when the branches
 * that raise "BUG" can be reached.
 */
module OrganizeLookups {
  import opened Addresses
  import opened OrderedDict
  import opened Queryable
  import opened Peers
  import opened OrganizeModel
  import opened OrganizeEffects
  import opened OrganizeInvariant
  import opened OrganizeUniqueness

  ghost predicate DistinctPositions(ps: seq<Peer>) {
    forall i, j | 0 <= i < j < |ps| :: ps[i].Id() != ps[j].Id()
  }

  lemma {:induction false} EnabledDistinct(ps: seq<Peer>)
    requires DistinctPositions(ps)
    ensures DistinctPositions(EnabledOnly(ps))
  {
    if ps != [] {
      var rest := ps[1..];
      EnabledDistinct(rest);
      forall p | p in EnabledOnly(rest) ensures p.Id() != ps[0].Id() {
        var i :| 0 <= i < |rest| && rest[i] == p;
        assert ps[i + 1] == p;
      }
    }
  }

  lemma ValuesPositions(ps: PeerDict)
    requires Keyed(ps)
    ensures DistinctPositions(Values(ps))
  {
    forall i, j | 0 <= i < j < |Values(ps)| ensures Values(ps)[i].Id() != Values(ps)[j].Id() {
      assert ps.order[i] in ps.order && ps.order[j] in ps.order;
    }
  }

  /** Among records with distinct ids, a key has one hit exactly when no two of them hold it and none twice. */
  lemma SingleHit<K>(ps: seq<Peer>, attr: Peer -> Attr<K>, k: K)
    requires DistinctPositions(ps)
    ensures |Scan(ps, attr, k)| <= 1 <==>
            && (forall p | p in ps :: Count(attr(p), k) <= 1)
            && (forall p, q | p in ps && q in ps && p.Id() != q.Id() ::
                  Count(attr(p), k) == 0 || Count(attr(q), k) == 0)
  {
    ScanHeldOnce(ps, attr, k);
    if HeldOnce(ps, attr, k) {
      forall p, q | p in ps && q in ps && p.Id() != q.Id() ensures Count(attr(p), k) == 0 || Count(attr(q), k) == 0 {
        var i :| 0 <= i < |ps| && ps[i] == p;
        var j :| 0 <= j < |ps| && ps[j] == q;
        assert HeldOnce(ps, attr, k);
      }
    }
  }

  lemma EnabledMembers(ps: PeerDict, p: Peer)
    requires Keyed(ps)
    ensures p in EnabledOnly(Values(ps)) <==> p.Id() in ps.at && ps.at[p.Id()] == p && p.enabled
  {
    ValuesMembers(ps, p);
  }

  lemma EnabledPositions(ps: PeerDict)
    requires Keyed(ps)
    ensures DistinctPositions(EnabledOnly(Values(ps)))
  {
    ValuesPositions(ps);
    EnabledDistinct(Values(ps));
  }

  // ----- names -----

  lemma NicknameIsName(p: Peer, name: string)
    ensures Count(NicknameAttr(p), name) <= Count(NameAttr(p), name) <= 1
    ensures Count(NameAttr(p), name) > 0 <==> name in p.EnabledNames()
  {
  }

  lemma NamesHeldOnce(ps: PeerDict, name: string)
    requires Keyed(ps) && Unique(ps)
    ensures forall p, q | p in EnabledOnly(Values(ps)) && q in EnabledOnly(Values(ps)) && p.Id() != q.Id() ::
              name !in p.EnabledNames() || name !in q.EnabledNames()
  {
    forall p, q | p in EnabledOnly(Values(ps)) && q in EnabledOnly(Values(ps)) && p.Id() != q.Id()
      ensures name !in p.EnabledNames() || name !in q.EnabledNames() {
      EnabledMembers(ps, p);
      EnabledMembers(ps, q);
      assert Apart(ps.at[p.Id()], ps.at[q.Id()]);
    }
  }

  lemma NameHits(ps: PeerDict, name: string)
    requires Keyed(ps) && Unique(ps)
    ensures |Scan(EnabledOnly(Values(ps)), NicknameAttr, name)| <= 1
    ensures |Scan(EnabledOnly(Values(ps)), NameAttr, name)| <= 1
  {
    var on := EnabledOnly(Values(ps));
    EnabledPositions(ps);
    NamesHeldOnce(ps, name);
    forall p | p in on
      ensures Count(NicknameAttr(p), name) <= Count(NameAttr(p), name) <= 1
      ensures Count(NameAttr(p), name) > 0 <==> name in p.EnabledNames() {
      NicknameIsName(p, name);
    }
    SingleHit(on, NicknameAttr, name);
    SingleHit(on, NameAttr, name);
  }

  lemma NameNotOn(ps: seq<Peer>, p: Peer, name: string)
    requires Scan(ps, NicknameAttr, name) == [] && p in ps
    ensures name !in On(p.nicknames)
  {
    ScanMembers(ps, NicknameAttr, name, p);
  }

  lemma NameMissing(ps: PeerDict, name: string)
    requires Keyed(ps) && Scan(EnabledOnly(Values(ps)), NicknameAttr, name) == []
    ensures forall k | k in ps.at && ps.at[k].enabled :: name !in On(ps.at[k].nicknames)
  {
    forall k | k in ps.at && ps.at[k].enabled ensures name !in On(ps.at[k].nicknames) {
      EnabledMembers(ps, ps.at[k]);
      NameNotOn(EnabledOnly(Values(ps)), ps.at[k], name);
    }
  }

  lemma NameFound(ps: PeerDict, name: string, p: Peer)
    requires Keyed(ps) && p in Scan(EnabledOnly(Values(ps)), NicknameAttr, name)
    ensures p.Id() in ps.at && ps.at[p.Id()] == p && p.enabled && name in On(p.nicknames)
  {
    ScanMembers(EnabledOnly(Values(ps)), NicknameAttr, name, p);
    EnabledMembers(ps, p);
  }

  /** Where names are apart, a host name is resolved: to the one enabled peer that has it on, or to none. */
  lemma HostnameResolves(ps: PeerDict, name: string)
    requires Keyed(ps) && Unique(ps)
    ensures match WithHostname(Values(ps), name)
            case Ambiguous => false
            case Found(p) => p.Id() in ps.at && ps.at[p.Id()] == p && p.enabled && name in On(p.nicknames)
            case Missing => forall k | k in ps.at && ps.at[k].enabled :: name !in On(ps.at[k].nicknames)
  {
    var hits := Scan(EnabledOnly(Values(ps)), NicknameAttr, name);
    NameHits(ps, name);
    if hits == [] {
      NameMissing(ps, name);
    } else {
      NameFound(ps, name, hits[0]);
    }
  }

  /** No run whose hand edits take nothing that is held ever leads to two hosts with one name. */
  lemma RunsResolveHostnames(evs: seq<Event>, name: string)
    requires HarmlessRun(InitialState(), evs)
    ensures !WithHostname(Values(RunAll(InitialState(), evs).peers), name).Ambiguous?
  {
    RunsStayUnique(evs);
    RunsKeepInv(evs);
    HostnameResolves(RunAll(InitialState(), evs).peers, name);
  }

  // ----- addresses -----

  predicate HasPrimary(p: Peer, ip: IP) {
    p.descriptor.p == Some(ip)
  }

  lemma IpCount(p: Peer, ip: IP)
    ensures Count(IpAttr(p), ip) == (if HasPrimary(p, ip) then 1 else 0) + (if ip in p.EnabledAddrs() then 1 else 0)
  {
  }

  /** A peer's primary address is held twice: by itself in its tables too, or by another enabled peer. */
  ghost predicate PrimaryShared(ps: PeerDict, ip: IP) {
    exists a | a in ps.at && ps.at[a].enabled && HasPrimary(ps.at[a], ip) ::
      || ip in ps.at[a].EnabledAddrs()
      || exists b | b in ps.at && b != a && ps.at[b].enabled ::
        HasPrimary(ps.at[b], ip) || ip in ps.at[b].EnabledAddrs()
  }

  lemma TwiceIsAmbiguous(ps: PeerDict, a: Key, ip: IP)
    requires Keyed(ps) && a in ps.at && ps.at[a].enabled && Count(IpAttr(ps.at[a]), ip) > 1
    ensures WithIp(Values(ps), ip).Ambiguous?
  {
    EnabledPositions(ps);
    SingleHit(EnabledOnly(Values(ps)), IpAttr, ip);
    EnabledMembers(ps, ps.at[a]);
  }

  lemma PairIsAmbiguous(ps: PeerDict, a: Key, b: Key, ip: IP)
    requires Keyed(ps) && a in ps.at && b in ps.at && a != b && ps.at[a].enabled && ps.at[b].enabled
    requires Count(IpAttr(ps.at[a]), ip) > 0 && Count(IpAttr(ps.at[b]), ip) > 0
    ensures WithIp(Values(ps), ip).Ambiguous?
  {
    EnabledPositions(ps);
    SingleHit(EnabledOnly(Values(ps)), IpAttr, ip);
    EnabledMembers(ps, ps.at[a]);
    EnabledMembers(ps, ps.at[b]);
  }

  lemma SharedIsAmbiguous(ps: PeerDict, ip: IP)
    requires Keyed(ps) && PrimaryShared(ps, ip)
    ensures WithIp(Values(ps), ip).Ambiguous?
  {
    var a :| a in ps.at && ps.at[a].enabled && HasPrimary(ps.at[a], ip) && (
      || ip in ps.at[a].EnabledAddrs()
      || exists b | b in ps.at && b != a && ps.at[b].enabled ::
        HasPrimary(ps.at[b], ip) || ip in ps.at[b].EnabledAddrs());
    IpCount(ps.at[a], ip);
    if ip in ps.at[a].EnabledAddrs() {
      TwiceIsAmbiguous(ps, a, ip);
    } else {
      var b :| b in ps.at && b != a && ps.at[b].enabled && (HasPrimary(ps.at[b], ip) || ip in ps.at[b].EnabledAddrs());
      IpCount(ps.at[b], ip);
      PairIsAmbiguous(ps, a, b, ip);
    }
  }

  lemma PairShares(ps: PeerDict, p: Peer, q: Peer, ip: IP)
    requires Keyed(ps) && Unique(ps)
    requires p in EnabledOnly(Values(ps)) && q in EnabledOnly(Values(ps)) && p.Id() != q.Id()
    requires Count(IpAttr(p), ip) > 0 && Count(IpAttr(q), ip) > 0
    ensures PrimaryShared(ps, ip)
  {
    EnabledMembers(ps, p);
    EnabledMembers(ps, q);
    IpCount(p, ip);
    IpCount(q, ip);
    assert Apart(ps.at[p.Id()], ps.at[q.Id()]);
  }

  lemma SelfShares(ps: PeerDict, p: Peer, ip: IP)
    requires Keyed(ps) && p in EnabledOnly(Values(ps)) && Count(IpAttr(p), ip) > 1
    ensures PrimaryShared(ps, ip)
  {
    EnabledMembers(ps, p);
    IpCount(p, ip);
  }

  /** Two hits are one item that holds the key twice, or two items that hold it. */
  lemma TwoHits<K>(ps: seq<Peer>, attr: Peer -> Attr<K>, k: K) returns (p: Peer, q: Peer)
    requires DistinctPositions(ps) && |Scan(ps, attr, k)| > 1
    ensures p in ps && q in ps
    ensures (p == q && Count(attr(p), k) > 1) || (p.Id() != q.Id() && Count(attr(p), k) > 0 && Count(attr(q), k) > 0)
  {
    ScanHeldOnce(ps, attr, k);
    if i :| 0 <= i < |ps| && Count(attr(ps[i]), k) > 1 {
      p, q := ps[i], ps[i];
    } else {
      var i, j :| 0 <= i < j < |ps| && Count(attr(ps[i]), k) != 0 && Count(attr(ps[j]), k) != 0;
      p, q := ps[i], ps[j];
    }
  }

  lemma AmbiguousIsShared(ps: PeerDict, ip: IP)
    requires Keyed(ps) && Unique(ps) && WithIp(Values(ps), ip).Ambiguous?
    ensures PrimaryShared(ps, ip)
  {
    EnabledPositions(ps);
    var p, q := TwoHits(EnabledOnly(Values(ps)), IpAttr, ip);
    if p == q {
      SelfShares(ps, p, ip);
    } else {
      PairShares(ps, p, q, ip);
    }
  }

  /** Where addresses are apart, an address has two hits exactly when it is a primary address held twice. */
  lemma IpAmbiguousExactly(ps: PeerDict, ip: IP)
    requires Keyed(ps) && Unique(ps)
    ensures WithIp(Values(ps), ip).Ambiguous? <==> PrimaryShared(ps, ip)
  {
    if WithIp(Values(ps), ip).Ambiguous? {
      AmbiguousIsShared(ps, ip);
    } else if PrimaryShared(ps, ip) {
      SharedIsAmbiguous(ps, ip);
    }
  }

  // ----- queries -----

  ghost predicate Holds(p: Peer, ip: IP) {
    p.descriptor.p == Some(ip) || ip in p.EnabledAddrs()
  }

  ghost predicate NamedBy(ps: PeerDict, name: string, k: Key) {
    k in ps.at && ps.at[k].enabled && name in ps.at[k].EnabledNames()
  }

  ghost predicate HeldBy(ps: PeerDict, ip: IP, k: Key) {
    k in ps.at && ps.at[k].enabled && Holds(ps.at[k], ip)
  }

  /** No record has the key that is asked for. */
  ghost predicate KeyMisses(ps: PeerDict, q: Query) {
    q.asKey.Some? ==> q.asKey.value !in ps.at
  }

  /** No enabled record has the name that is asked for. */
  ghost predicate NameMisses(ps: PeerDict, q: Query) {
    forall k :: !NamedBy(ps, q.text, k)
  }

  /**
   * The query is for k: by its key; or, if no record has such a key, by a name of it while it
   * is enabled; or, if nobody has such a name either, by an address of it while it is enabled.
   */
  ghost predicate Asks(ps: PeerDict, q: Query, k: Key) {
    && k in ps.at
    && (|| q.asKey == Some(k)
        || (KeyMisses(ps, q) && NamedBy(ps, q.text, k))
        || (KeyMisses(ps, q) && NameMisses(ps, q) && q.asIp.Some? && HeldBy(ps, q.asIp.value, k)))
  }

  /** Asked for by an address it has as primary address and in its tables. */
  ghost predicate AsksTwice(ps: PeerDict, q: Query, k: Key)
    requires k in ps.at
  {
    && KeyMisses(ps, q) && NameMisses(ps, q) && q.asIp.Some?
    && ps.at[k].descriptor.p == Some(q.asIp.value) && q.asIp.value in ps.at[k].EnabledAddrs()
  }

  /** The query is for k alone. */
  ghost predicate AsksOnly(ps: PeerDict, q: Query, k: Key) {
    Asks(ps, q, k) && !AsksTwice(ps, q, k) && forall j | Asks(ps, q, j) :: j == k
  }

  lemma IdHits(ps: PeerDict, id: Key)
    requires Keyed(ps)
    ensures |Scan(Values(ps), IdAttr, id)| <= 1
  {
    ValuesPositions(ps);
    SingleHit(Values(ps), IdAttr, id);
  }

  lemma IdHit(ps: PeerDict, id: Key, p: Peer)
    requires Keyed(ps)
    ensures p in Scan(Values(ps), IdAttr, id) <==> id in ps.at && p == ps.at[id]
  {
    ScanMembers(Values(ps), IdAttr, id, p);
    ValuesMembers(ps, p);
  }

  lemma NameHit(ps: PeerDict, name: string, p: Peer)
    requires Keyed(ps)
    ensures p in Scan(EnabledOnly(Values(ps)), NameAttr, name) <==> NamedBy(ps, name, p.Id()) && p == ps.at[p.Id()]
  {
    NicknameIsName(p, name);
    ScanMembers(EnabledOnly(Values(ps)), NameAttr, name, p);
    EnabledMembers(ps, p);
  }

  lemma IpHit(ps: PeerDict, ip: IP, p: Peer)
    requires Keyed(ps)
    ensures p in Scan(EnabledOnly(Values(ps)), IpAttr, ip) <==> HeldBy(ps, ip, p.Id()) && p == ps.at[p.Id()]
  {
    ScanMembers(EnabledOnly(Values(ps)), IpAttr, ip, p);
    EnabledMembers(ps, p);
    IpCount(p, ip);
  }

  lemma IdMisses(ps: PeerDict, id: Key)
    requires Keyed(ps)
    ensures Scan(Values(ps), IdAttr, id) == [] <==> id !in ps.at
  {
    var hits := Scan(Values(ps), IdAttr, id);
    if id in ps.at {
      IdHit(ps, id, ps.at[id]);
    } else if hits != [] {
      IdHit(ps, id, hits[0]);
    }
  }

  lemma NobodyHit(ps: PeerDict, hits: seq<Peer>, name: string)
    requires Keyed(ps) && forall p :: p in hits <==> NamedBy(ps, name, p.Id()) && p == ps.at[p.Id()]
    ensures hits == [] <==> forall k :: !NamedBy(ps, name, k)
  {
    if hits != [] {
      assert hits[0] in hits;
    } else {
      forall k ensures !NamedBy(ps, name, k) {
        assert k in ps.at ==> ps.at[k] !in hits;
      }
    }
  }

  lemma NameHitsMiss(ps: PeerDict, q: Query)
    requires Keyed(ps)
    ensures Scan(EnabledOnly(Values(ps)), NameAttr, q.text) == [] <==> NameMisses(ps, q)
  {
    var hits := Scan(EnabledOnly(Values(ps)), NameAttr, q.text);
    forall p ensures p in hits <==> NamedBy(ps, q.text, p.Id()) && p == ps.at[p.Id()] {
      NameHit(ps, q.text, p);
    }
    NobodyHit(ps, hits, q.text);
  }

  /** A record is hit exactly if it is asked for. */
  lemma HitIsAsked(ps: PeerDict, q: Query, p: Peer)
    requires Keyed(ps)
    ensures p in QueryHits(Values(ps), q) <==> p.Id() in ps.at && p == ps.at[p.Id()] && Asks(ps, q, p.Id())
  {
    if q.asKey.Some? {
      IdHit(ps, q.asKey.value, p);
      IdMisses(ps, q.asKey.value);
    }
    NameHit(ps, q.text, p);
    NameHitsMiss(ps, q);
    if q.asIp.Some? {
      IpHit(ps, q.asIp.value, p);
    }
  }

  ghost predicate EnabledIn(ps: PeerDict, on: seq<Peer>) {
    forall p :: p in on <==> p.Id() in ps.at && ps.at[p.Id()] == p && p.enabled
  }

  lemma EnabledAreIn(ps: PeerDict)
    requires Keyed(ps)
    ensures EnabledIn(ps, EnabledOnly(Values(ps)))
  {
    forall p ensures p in EnabledOnly(Values(ps)) <==> p.Id() in ps.at && ps.at[p.Id()] == p && p.enabled {
      EnabledMembers(ps, p);
    }
  }

  lemma NamesApartClash(ps: PeerDict, on: seq<Peer>, name: string, j: Key, k: Key)
    requires Keyed(ps) && EnabledIn(ps, on)
    requires NamedBy(ps, name, j) && NamedBy(ps, name, k)
    ensures ps.at[j] in on && ps.at[k] in on && Count(NameAttr(ps.at[j]), name) > 0
            && Count(NameAttr(ps.at[k]), name) > 0
  {
    NicknameIsName(ps.at[j], name);
    NicknameIsName(ps.at[k], name);
  }

  lemma NamesApart(ps: PeerDict, on: seq<Peer>, name: string)
    requires Keyed(ps) && EnabledIn(ps, on)
    ensures (forall p, q | p in on && q in on && p.Id() != q.Id() ::
               Count(NameAttr(p), name) == 0 || Count(NameAttr(q), name) == 0)
       <==> forall j, k | NamedBy(ps, name, j) && NamedBy(ps, name, k) :: j == k
  {
    forall j, k | NamedBy(ps, name, j) && NamedBy(ps, name, k)
      ensures ps.at[j] in on && ps.at[k] in on && Count(NameAttr(ps.at[j]), name) > 0
              && Count(NameAttr(ps.at[k]), name) > 0 {
      NamesApartClash(ps, on, name, j, k);
    }
    forall p | p in on && Count(NameAttr(p), name) > 0 ensures NamedBy(ps, name, p.Id()) {
      NicknameIsName(p, name);
    }
  }

  lemma NamesSingle(ps: PeerDict, name: string)
    requires Keyed(ps)
    ensures |Scan(EnabledOnly(Values(ps)), NameAttr, name)| <= 1 <==>
              forall j, k | NamedBy(ps, name, j) && NamedBy(ps, name, k) :: j == k
  {
    var on := EnabledOnly(Values(ps));
    EnabledPositions(ps);
    EnabledAreIn(ps);
    SingleHit(on, NameAttr, name);
    NamesApart(ps, on, name);
    forall p | p in on ensures Count(NameAttr(p), name) <= 1 {
      NicknameIsName(p, name);
    }
  }

  lemma IpsApartClash(ps: PeerDict, on: seq<Peer>, ip: IP, j: Key, k: Key)
    requires Keyed(ps) && EnabledIn(ps, on)
    requires HeldBy(ps, ip, j) && HeldBy(ps, ip, k)
    ensures ps.at[j] in on && ps.at[k] in on && Count(IpAttr(ps.at[j]), ip) > 0 && Count(IpAttr(ps.at[k]), ip) > 0
  {
    IpCount(ps.at[j], ip);
    IpCount(ps.at[k], ip);
  }

  lemma IpsApart(ps: PeerDict, on: seq<Peer>, ip: IP)
    requires Keyed(ps) && EnabledIn(ps, on)
    ensures (forall p, q | p in on && q in on && p.Id() != q.Id() ::
               Count(IpAttr(p), ip) == 0 || Count(IpAttr(q), ip) == 0)
       <==> forall j, k | HeldBy(ps, ip, j) && HeldBy(ps, ip, k) :: j == k
  {
    forall j, k | HeldBy(ps, ip, j) && HeldBy(ps, ip, k)
      ensures ps.at[j] in on && ps.at[k] in on && Count(IpAttr(ps.at[j]), ip) > 0 && Count(IpAttr(ps.at[k]), ip) > 0 {
      IpsApartClash(ps, on, ip, j, k);
    }
    forall p | p in on && Count(IpAttr(p), ip) > 0 ensures HeldBy(ps, ip, p.Id()) {
      IpCount(p, ip);
    }
  }

  lemma IpsOnce(ps: PeerDict, on: seq<Peer>, ip: IP)
    requires Keyed(ps) && EnabledIn(ps, on)
    ensures (forall p | p in on :: Count(IpAttr(p), ip) <= 1)
       <==> forall k | HeldBy(ps, ip, k) :: !(HasPrimary(ps.at[k], ip) && ip in ps.at[k].EnabledAddrs())
  {
    forall p
      ensures Count(IpAttr(p), ip) == (if HasPrimary(p, ip) then 1 else 0) + (if ip in p.EnabledAddrs() then 1 else 0) {
      IpCount(p, ip);
    }
    forall k | HeldBy(ps, ip, k) ensures ps.at[k] in on && ps.at[k].Id() == k {
    }
  }

  lemma IpsSingle(ps: PeerDict, ip: IP)
    requires Keyed(ps)
    ensures |Scan(EnabledOnly(Values(ps)), IpAttr, ip)| <= 1 <==>
              && (forall j, k | HeldBy(ps, ip, j) && HeldBy(ps, ip, k) :: j == k)
              && (forall k | HeldBy(ps, ip, k) :: !(HasPrimary(ps.at[k], ip) && ip in ps.at[k].EnabledAddrs()))
  {
    var on := EnabledOnly(Values(ps));
    EnabledPositions(ps);
    EnabledAreIn(ps);
    SingleHit(on, IpAttr, ip);
    IpsApart(ps, on, ip);
    IpsOnce(ps, on, ip);
  }

  /** The query is for one record at most, and not twice for it. */
  ghost predicate AsksOnce(ps: PeerDict, q: Query) {
    && (forall j, k | Asks(ps, q, j) && Asks(ps, q, k) :: j == k)
    && (forall k | Asks(ps, q, k) :: !AsksTwice(ps, q, k))
  }

  lemma KeySingle(ps: PeerDict, q: Query)
    requires Keyed(ps) && !KeyMisses(ps, q)
    ensures |QueryHits(Values(ps), q)| <= 1 && AsksOnce(ps, q)
  {
    IdHits(ps, q.asKey.value);
    IdMisses(ps, q.asKey.value);
  }

  lemma NameQuery(ps: PeerDict, q: Query)
    requires Keyed(ps) && KeyMisses(ps, q) && !NameMisses(ps, q)
    ensures QueryHits(Values(ps), q) == Scan(EnabledOnly(Values(ps)), NameAttr, q.text)
  {
    if q.asKey.Some? {
      IdMisses(ps, q.asKey.value);
    }
    NameHitsMiss(ps, q);
  }

  lemma NameAsks(ps: PeerDict, q: Query)
    requires KeyMisses(ps, q) && !NameMisses(ps, q)
    ensures AsksOnce(ps, q) <==> forall j, k | NamedBy(ps, q.text, j) && NamedBy(ps, q.text, k) :: j == k
  {
    forall k ensures Asks(ps, q, k) <==> NamedBy(ps, q.text, k) {
    }
  }

  lemma NameSingle(ps: PeerDict, q: Query)
    requires Keyed(ps) && KeyMisses(ps, q) && !NameMisses(ps, q)
    ensures |QueryHits(Values(ps), q)| <= 1 <==> AsksOnce(ps, q)
  {
    NameQuery(ps, q);
    NameAsks(ps, q);
    NamesSingle(ps, q.text);
  }

  lemma IpQuery(ps: PeerDict, q: Query)
    requires Keyed(ps) && KeyMisses(ps, q) && NameMisses(ps, q)
    ensures QueryHits(Values(ps), q) ==
              if q.asIp.Some? then Scan(EnabledOnly(Values(ps)), IpAttr, q.asIp.value) else []
  {
    if q.asKey.Some? {
      IdMisses(ps, q.asKey.value);
    }
    NameHitsMiss(ps, q);
  }

  lemma IpAsks(ps: PeerDict, q: Query, ip: IP)
    requires KeyMisses(ps, q) && NameMisses(ps, q) && q.asIp == Some(ip)
    ensures AsksOnce(ps, q) <==>
              && (forall j, k | HeldBy(ps, ip, j) && HeldBy(ps, ip, k) :: j == k)
              && (forall k | HeldBy(ps, ip, k) :: !(HasPrimary(ps.at[k], ip) && ip in ps.at[k].EnabledAddrs()))
  {
    forall k ensures Asks(ps, q, k) <==> HeldBy(ps, ip, k) {
    }
  }

  lemma IpSingle(ps: PeerDict, q: Query)
    requires Keyed(ps) && KeyMisses(ps, q) && NameMisses(ps, q)
    ensures |QueryHits(Values(ps), q)| <= 1 <==> AsksOnce(ps, q)
  {
    IpQuery(ps, q);
    if q.asIp.Some? {
      IpAsks(ps, q, q.asIp.value);
      IpsSingle(ps, q.asIp.value);
    }
  }

  lemma QuerySingle(ps: PeerDict, q: Query)
    requires Keyed(ps)
    ensures |QueryHits(Values(ps), q)| <= 1 <==> AsksOnce(ps, q)
  {
    if !KeyMisses(ps, q) {
      KeySingle(ps, q);
    } else if !NameMisses(ps, q) {
      NameSingle(ps, q);
    } else {
      IpSingle(ps, q);
    }
  }

  /**
   * A query finds the one record it is for, misses if there is none, and fails if it is for
   * several or twice for one.
   */
  lemma LookUpExactly(ps: PeerDict, q: Query)
    requires Keyed(ps)
    ensures LookUp(Values(ps), q).Missing? <==> forall k :: !Asks(ps, q, k)
    ensures forall k | k in ps.at :: LookUp(Values(ps), q) == Found(ps.at[k]) <==> AsksOnly(ps, q, k)
    ensures LookUp(Values(ps), q).Found? ==> exists k :: AsksOnly(ps, q, k)
  {
    var hits := QueryHits(Values(ps), q);
    QuerySingle(ps, q);
    forall p ensures p in hits <==> p.Id() in ps.at && p == ps.at[p.Id()] && Asks(ps, q, p.Id()) {
      HitIsAsked(ps, q, p);
    }
    if hits != [] {
      assert hits[0] in hits;
    }
    forall k | Asks(ps, q, k) ensures ps.at[k] in hits {
    }
  }

  /** The only query whose assertion can fail is one by address, for a primary address held twice. */
  lemma QueryAmbiguousExactly(ps: PeerDict, q: Query)
    requires Keyed(ps) && Unique(ps)
    ensures LookUp(Values(ps), q).Ambiguous? <==>
              KeyMisses(ps, q) && NameMisses(ps, q) && q.asIp.Some? && PrimaryShared(ps, q.asIp.value)
  {
    if q.asKey.Some? {
      IdHits(ps, q.asKey.value);
      IdMisses(ps, q.asKey.value);
    }
    NameHits(ps, q.text);
    NameHitsMiss(ps, q);
    if q.asIp.Some? {
      IpAmbiguousExactly(ps, q.asIp.value);
    }
  }

  // ----- host names, without more -----

  /** An enabled peer that has the name on, under whatever petname. */
  ghost predicate NicknamedBy(ps: PeerDict, name: string, k: Key) {
    k in ps.at && ps.at[k].enabled && name in ps.at[k].nicknames && ps.at[k].nicknames[name]
  }

  /** vk alone is such a peer. */
  ghost predicate NicknameOf(ps: PeerDict, name: string, vk: Key) {
    NicknamedBy(ps, name, vk) && forall j | NicknamedBy(ps, name, j) :: j == vk
  }

  lemma NicknameCount(p: Peer, name: string)
    ensures Count(NicknameAttr(p), name) <= 1
    ensures Count(NicknameAttr(p), name) > 0 <==> name in p.nicknames && p.nicknames[name]
  {
  }

  lemma NicksApartClash(ps: PeerDict, on: seq<Peer>, name: string, j: Key, k: Key)
    requires Keyed(ps) && EnabledIn(ps, on)
    requires NicknamedBy(ps, name, j) && NicknamedBy(ps, name, k)
    ensures ps.at[j] in on && ps.at[k] in on && Count(NicknameAttr(ps.at[j]), name) > 0
            && Count(NicknameAttr(ps.at[k]), name) > 0
  {
    NicknameCount(ps.at[j], name);
    NicknameCount(ps.at[k], name);
  }

  lemma NicksApart(ps: PeerDict, on: seq<Peer>, name: string)
    requires Keyed(ps) && EnabledIn(ps, on)
    ensures (forall p, q | p in on && q in on && p.Id() != q.Id() ::
               Count(NicknameAttr(p), name) == 0 || Count(NicknameAttr(q), name) == 0)
       <==> forall j, k | NicknamedBy(ps, name, j) && NicknamedBy(ps, name, k) :: j == k
  {
    forall j, k | NicknamedBy(ps, name, j) && NicknamedBy(ps, name, k)
      ensures ps.at[j] in on && ps.at[k] in on && Count(NicknameAttr(ps.at[j]), name) > 0
              && Count(NicknameAttr(ps.at[k]), name) > 0 {
      NicksApartClash(ps, on, name, j, k);
    }
    forall p | p in on && Count(NicknameAttr(p), name) > 0 ensures NicknamedBy(ps, name, p.Id()) {
      NicknameCount(p, name);
    }
  }

  lemma NicksSingle(ps: PeerDict, name: string)
    requires Keyed(ps)
    ensures |Scan(EnabledOnly(Values(ps)), NicknameAttr, name)| <= 1 <==>
              forall j, k | NicknamedBy(ps, name, j) && NicknamedBy(ps, name, k) :: j == k
  {
    var on := EnabledOnly(Values(ps));
    EnabledPositions(ps);
    EnabledAreIn(ps);
    SingleHit(on, NicknameAttr, name);
    NicksApart(ps, on, name);
    forall p | p in on ensures Count(NicknameAttr(p), name) <= 1 {
      NicknameCount(p, name);
    }
  }

  lemma NickHit(ps: PeerDict, name: string, p: Peer)
    requires Keyed(ps)
    ensures p in Scan(EnabledOnly(Values(ps)), NicknameAttr, name)
            <==> NicknamedBy(ps, name, p.Id()) && p == ps.at[p.Id()]
  {
    NicknameCount(p, name);
    ScanMembers(EnabledOnly(Values(ps)), NicknameAttr, name, p);
    EnabledMembers(ps, p);
  }

  /** A host name finds the one enabled peer that has it on, if there is just one. */
  lemma HostnameExactly(ps: PeerDict, name: string, vk: Key)
    requires Keyed(ps)
    ensures var found := WithHostname(Values(ps), name);
            found.Found? && found.peer.Id() == vk <==> NicknameOf(ps, name, vk)
  {
    var hits := Scan(EnabledOnly(Values(ps)), NicknameAttr, name);
    NicksSingle(ps, name);
    forall p ensures p in hits <==> NicknamedBy(ps, name, p.Id()) && p == ps.at[p.Id()] {
      NickHit(ps, name, p);
    }
    if hits != [] {
      assert hits[0] in hits;
    }
    forall k | NicknamedBy(ps, name, k) ensures ps.at[k] in hits {
    }
  }
}
