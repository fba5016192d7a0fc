/** Descriptors, peers and the conflict search of vula/peer.py. */
module Peers {
  import opened Addresses
  import opened OrderedDict
  import opened Queryable

  datatype Key = Key(bytes: Bytes)

  /** What a host announces about itself. */
  datatype Descriptor = Descriptor(
    p: Option<IP>,
    v4a: Option<seq<IPv4>>,
    v6a: Option<seq<IPv6>>,
    pk: Key,
    c: Key,
    hostname: string,
    port: int,
    vk: Key,
    dt: int,
    vf: int,
    r: string,
    e: bool,
    s: Option<Key>)
  {
    function V4s(): seq<IPv4> {
      if v4a.Some? then v4a.value else []
    }

    function V6s(): seq<IPv6> {
      if v6a.Some? then v6a.value else []
    }

    function All(): seq<IP> {
      V6s() + V4s()
    }

    function Announced(): set<IP> {
      (set ip | ip in V4s()) + (set ip | ip in V6s())
    }
  }

  function On<K>(m: map<K, bool>): set<K> {
    set k | k in m && m[k]
  }

  /** The record kept for a host. */
  datatype Peer = Peer(
    descriptor: Descriptor,
    petname: string,
    nicknames: map<string, bool>,
    v4: map<IPv4, bool>,
    v6: map<IPv6, bool>,
    enabled: bool,
    verified: bool,
    pinned: bool,
    gateway: bool)
  {
    function Id(): Key {
      descriptor.vk
    }

    function EnabledNames(): set<string> {
      (if petname == "" then {} else {petname}) + On(nicknames)
    }

    /** Every address on record, switched on or not. */
    function Recorded(): set<IP> {
      v4.Keys + v6.Keys
    }

    /** The recorded addresses that are switched on. */
    function EnabledAddrs(): set<IP> {
      On(v4) + On(v6)
    }

    /** `enabled_ips`, as a bag: the primary address and the recorded ones that are on. */
    function EnabledIps(): multiset<IP> {
      (if descriptor.p.Some? then multiset{descriptor.p.value} else multiset{}) + multiset(EnabledAddrs())
    }
  }

  /** `make_peer` */
  function MakePeer(d: Descriptor, pinned: bool): Peer {
    Peer(d, "", map[d.hostname := true],
      map ip: IPv4 | ip in d.V4s() :: true,
      map ip: IPv6 | ip in d.V6s() :: true,
      true, false, pinned, false)
  }

  // ----- searching -----

  /** `limit(enabled=True)` */
  function EnabledOnly(ps: seq<Peer>): (r: seq<Peer>)
    ensures forall p | p in r :: p in ps && p.enabled
    ensures forall p | p in ps && p.enabled :: p in r
  {
    if ps == [] then []
    else (if ps[0].enabled then [ps[0]] else []) + EnabledOnly(ps[1..])
  }

  function NameAttr(p: Peer): Attr<string> {
    DictAttr(map n | n in p.EnabledNames() :: true)
  }

  function NicknameAttr(p: Peer): Attr<string> {
    DictAttr(p.nicknames)
  }

  function PkAttr(p: Peer): Attr<Key> {
    Scalar(p.descriptor.pk)
  }

  function V4Attr(p: Peer): Attr<IPv4> {
    DictAttr(p.v4)
  }

  function V6Attr(p: Peer): Attr<IPv6> {
    DictAttr(p.v6)
  }

  function IpAttr(p: Peer): Attr<IP> {
    ListAttr(p.EnabledIps())
  }

  function IdAttr(p: Peer): Attr<Key> {
    Scalar(p.Id())
  }

  /** `sum((by(...).get(ip, []) for ip in ips), [])` */
  function ScanAll<K>(ps: seq<Peer>, attr: Peer -> Attr<K>, ks: seq<K>): seq<Peer> {
    if ks == [] then [] else Scan(ps, attr, ks[0]) + ScanAll(ps, attr, ks[1..])
  }

  lemma {:induction false} ScanAllMembers<K>(ps: seq<Peer>, attr: Peer -> Attr<K>, ks: seq<K>, p: Peer)
    ensures p in ScanAll(ps, attr, ks) <==> p in ps && exists k | k in ks :: Count(attr(p), k) > 0
  {
    if ks != [] {
      ScanMembers(ps, attr, ks[0], p);
      ScanAllMembers(ps, attr, ks[1..], p);
    }
  }

  /** The hits of the four indexes, in the order the source concatenates them. */
  function Candidates(ps: seq<Peer>, d: Descriptor): seq<Peer> {
    var on := EnabledOnly(ps);
    Scan(on, NameAttr, d.hostname) + Scan(on, PkAttr, d.pk) + ScanAll(on, V4Attr, d.V4s())
    + ScanAll(on, V6Attr, d.V6s())
  }

  /** `{c.id: c for c in candidates if c.id != id}` */
  function Collect(cands: seq<Peer>, id: Key): Dict<Key, Peer> {
    if cands == [] then Empty()
    else
      var last := cands[|cands| - 1];
      var sofar := Collect(cands[..|cands| - 1], id);
      if last.Id() != id then Put(sofar, last.Id(), last) else sofar
  }

  function ConflictsForDescriptor(ps: seq<Peer>, d: Descriptor): seq<Peer> {
    Values(Collect(Candidates(ps, d), d.vk))
  }

  /** The pairwise notion: p holds the name, the key or an address that d claims. */
  predicate Clash(p: Peer, d: Descriptor) {
    && p.Id() != d.vk
    && (|| d.hostname in p.EnabledNames()
        || p.descriptor.pk == d.pk
        || d.Announced() * p.EnabledAddrs() != {})
  }

  /** A shared address is shared within its own version's table. */
  lemma AddressClash(p: Peer, d: Descriptor)
    ensures d.Announced() * p.EnabledAddrs() != {}
       <==> || (exists ip | ip in d.V4s() :: Count(V4Attr(p), ip) > 0)
            || (exists ip | ip in d.V6s() :: Count(V6Attr(p), ip) > 0)
  {
    if ip :| ip in d.V4s() && Count(V4Attr(p), ip) > 0 {
      assert ip in d.Announced() * p.EnabledAddrs();
    }
    if ip :| ip in d.V6s() && Count(V6Attr(p), ip) > 0 {
      assert ip in d.Announced() * p.EnabledAddrs();
    }
    if d.Announced() * p.EnabledAddrs() != {} {
      var ip :| ip in d.Announced() * p.EnabledAddrs();
      if ip.V4? {
        assert ip in d.V4s() && Count(V4Attr(p), ip) > 0;
      } else {
        assert ip in d.V6s() && Count(V6Attr(p), ip) > 0;
      }
    }
  }

  lemma CandidatesExact(ps: seq<Peer>, d: Descriptor, p: Peer)
    requires p.Id() != d.vk
    ensures p in Candidates(ps, d) <==> p in ps && p.enabled && Clash(p, d)
  {
    var on := EnabledOnly(ps);
    ScanMembers(on, NameAttr, d.hostname, p);
    ScanMembers(on, PkAttr, d.pk, p);
    ScanAllMembers(on, V4Attr, d.V4s(), p);
    ScanAllMembers(on, V6Attr, d.V6s(), p);
    AddressClash(p, d);
  }

  ghost predicate DistinctIds(ps: seq<Peer>) {
    forall p, q | p in ps && q in ps && p.Id() == q.Id() :: p == q
  }

  lemma {:induction false} CollectExact(cands: seq<Peer>, id: Key)
    requires DistinctIds(cands)
    ensures forall k | k in Collect(cands, id).at ::
              Collect(cands, id).at[k] in cands && Collect(cands, id).at[k].Id() == k && k != id
    ensures forall p | p in cands && p.Id() != id ::
              p.Id() in Collect(cands, id).at && Collect(cands, id).at[p.Id()] == p
  {
    if cands != [] {
      var last := |cands| - 1;
      assert cands == cands[..last] + [cands[last]];
      CollectExact(cands[..last], id);
    }
  }

  lemma CandidatesSubset(ps: seq<Peer>, d: Descriptor, p: Peer)
    requires p in Candidates(ps, d)
    ensures p in ps
  {
    var on := EnabledOnly(ps);
    ScanMembers(on, NameAttr, d.hostname, p);
    ScanMembers(on, PkAttr, d.pk, p);
    ScanAllMembers(on, V4Attr, d.V4s(), p);
    ScanAllMembers(on, V6Attr, d.V6s(), p);
  }

  /**
   * The index-based search returns, each once, exactly the enabled peers that
   * clash with the descriptor.
   */
  lemma ConflictsExact(ps: seq<Peer>, d: Descriptor)
    requires DistinctIds(ps)
    ensures forall p :: p in ConflictsForDescriptor(ps, d) <==> p in ps && p.enabled && Clash(p, d)
    ensures forall i, j | 0 <= i < j < |ConflictsForDescriptor(ps, d)| ::
              ConflictsForDescriptor(ps, d)[i].Id() != ConflictsForDescriptor(ps, d)[j].Id()
  {
    var cands := Candidates(ps, d);
    var found := Collect(cands, d.vk);
    forall p | p in cands ensures p in ps {
      CandidatesSubset(ps, d, p);
    }
    CollectExact(cands, d.vk);
    forall p ensures p in ConflictsForDescriptor(ps, d) <==> p in ps && p.enabled && Clash(p, d) {
      if p.Id() != d.vk {
        CandidatesExact(ps, d, p);
        if p in cands {
          assert p.Id() in found.order;
          var i :| 0 <= i < |found.order| && found.order[i] == p.Id();
          assert Values(found)[i] == p;
        }
      }
    }
  }

  method CollectOthers(cands: seq<Peer>, id: Key) returns (res: Dict<Key, Peer>)
    ensures res == Collect(cands, id)
  {
    res := Empty();
    for i := 0 to |cands|
      invariant res == Collect(cands[..i], id)
    {
      assert cands[..i + 1][..i] == cands[..i];
      if cands[i].Id() != id {
        res := Put(res, cands[i].Id(), cands[i]);
      }
    }
    assert cands[..|cands|] == cands;
  }

  method LookUpAll<K(==, !new)>(ps: seq<Peer>, index: map<K, seq<Peer>>, attr: Peer -> Attr<K>, ks: seq<K>)
    returns (hits: seq<Peer>)
    requires Indexes(index, ps, attr)
    ensures hits == ScanAll(ps, attr, ks)
  {
    hits := [];
    for i := |ks| downto 0
      invariant hits == ScanAll(ps, attr, ks[i..])
    {
      hits := Get(index, ks[i]) + hits;
    }
  }

  /**
   * The search as the source runs it: build each index over the enabled peers,
   * look the descriptor's claims up, keep one peer an id.
   */
  method SearchConflicts(ps: seq<Peer>, d: Descriptor) returns (found: seq<Peer>)
    ensures found == ConflictsForDescriptor(ps, d)
  {
    var on := EnabledOnly(ps);
    var byName := By(on, NameAttr);
    var byPk := By(on, PkAttr);
    var byV4 := By(on, V4Attr);
    var byV6 := By(on, V6Attr);
    var v4Hits := LookUpAll(on, byV4, V4Attr, d.V4s());
    var v6Hits := LookUpAll(on, byV6, V6Attr, d.V6s());
    assert Get(byName, d.hostname) == Scan(on, NameAttr, d.hostname);
    assert Get(byPk, d.pk) == Scan(on, PkAttr, d.pk);
    var res := CollectOthers(Get(byName, d.hostname) + Get(byPk, d.pk) + v4Hits + v6Hits, d.vk);
    found := Values(res);
  }

  // ----- single look-ups -----

  datatype Lookup = Found(peer: Peer) | Missing | Ambiguous

  function Single(hits: seq<Peer>): Lookup {
    if |hits| > 1 then Ambiguous else if |hits| < 1 then Missing else Found(hits[0])
  }

  /** Ambiguous stands for the branch that raises "BUG: multiple hosts with the same name". */
  function WithHostname(ps: seq<Peer>, name: string): Lookup {
    Single(Scan(EnabledOnly(ps), NicknameAttr, name))
  }

  /** Ambiguous stands for the branch that raises "BUG: multiple hosts with the same IP". */
  function WithIp(ps: seq<Peer>, ip: IP): Lookup {
    Single(Scan(EnabledOnly(ps), IpAttr, ip))
  }

  /** A query text, together with the key or the address it is the text of, if any. */
  datatype Query = Query(text: string, asKey: Option<Key>, asIp: Option<IP>)

  function QueryHits(ps: seq<Peer>, q: Query): seq<Peer> {
    var byId := if q.asKey.Some? then Scan(ps, IdAttr, q.asKey.value) else [];
    var byName := Scan(EnabledOnly(ps), NameAttr, q.text);
    var byIp := if q.asIp.Some? then Scan(EnabledOnly(ps), IpAttr, q.asIp.value) else [];
    if byId != [] then byId else if byName != [] then byName else byIp
  }

  /** Peer by verify key, then by name, then by address; Ambiguous is the failed assertion. */
  function LookUp(ps: seq<Peer>, q: Query): Lookup {
    Single(QueryHits(ps, q))
  }
}
