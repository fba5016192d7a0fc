/**
 * What the system should be configured to for a peer: its routes, its WireGuard
 * configuration and its endpoint (vula/peer.py, vula/common.py).
 */
module Desired {
  import opened Addresses
  import opened OrderedDict
  import opened Peers
  import opened WireGuard

  /** The part of a peer the system is configured from; ips is `enabled_ips`, in order. */
  datatype Host = Host(pk: Key, c: Key, port: int, enabled: bool, gateway: bool, ips: seq<IP>)

  predicate LinkLocal(ip: IP) {
    Contains(if ip.V4? then IPV4_LL else IPV6_LL, ip)
  }

  // ----- sort_LL_first -----

  /** Link-local before others, and among equals version 6 before version 4. */
  function Rank(ip: IP): (r: nat)
    ensures r < 4
  {
    (if LinkLocal(ip) then 0 else 2) + (if ip.V6? then 0 else 1)
  }

  /** In 169.254.0.0/16 or fe80::/10. */
  predicate OnLink(ip: IP) {
    if ip.V4? then Contains(Net(V4([169, 254, 0, 0]), 16), ip)
    else Contains(Net(V6([0xfe, 0x80, 0, 0, 0, 0, 0, 0, 0, 0, 0, 0, 0, 0, 0, 0]), 10), ip)
  }

  /** Link-local goes before others; of two that are or are not, version 6 goes before version 4. */
  predicate Better(a: IP, b: IP) {
    (OnLink(a) && !OnLink(b)) || (OnLink(a) == OnLink(b) && a.V6? && b.V4?)
  }

  lemma LinkLocalIsOnLink(ip: IP)
    ensures LinkLocal(ip) <==> OnLink(ip)
  {
  }

  lemma RankIsBetter(a: IP, b: IP)
    ensures Rank(a) < Rank(b) <==> Better(a, b)
  {
    LinkLocalIsOnLink(a);
    LinkLocalIsOnLink(b);
  }

  /** The items of one rank, in order. */
  function OfRank<T>(xs: seq<T>, rank: T -> nat, r: nat): seq<T> {
    if xs == [] then [] else (if rank(xs[0]) == r then [xs[0]] else []) + OfRank(xs[1..], rank, r)
  }

  function ByRank<T>(xs: seq<T>, rank: T -> nat): seq<T> {
    OfRank(xs, rank, 0) + OfRank(xs, rank, 1) + OfRank(xs, rank, 2) + OfRank(xs, rank, 3)
  }

  function SortLLFirst(ips: seq<IP>): seq<IP> {
    ByRank(ips, Rank)
  }

  lemma {:induction false} OfRankMembers<T>(xs: seq<T>, rank: T -> nat, r: nat)
    ensures forall x | x in OfRank(xs, rank, r) :: x in xs && rank(x) == r
  {
    if xs != [] {
      OfRankMembers(xs[1..], rank, r);
    }
  }

  lemma {:induction false} OfRankCounts<T>(xs: seq<T>, rank: T -> nat, r: nat, x: T)
    ensures multiset(OfRank(xs, rank, r))[x] == if rank(x) == r then multiset(xs)[x] else 0
  {
    if xs != [] {
      OfRankCounts(xs[1..], rank, r, x);
      assert xs == [xs[0]] + xs[1..];
    }
  }

  lemma {:induction false} OfRankConcat<T>(xs: seq<T>, ys: seq<T>, rank: T -> nat, r: nat)
    ensures OfRank(xs + ys, rank, r) == OfRank(xs, rank, r) + OfRank(ys, rank, r)
  {
    if xs == [] {
      assert xs + ys == ys;
    } else {
      OfRankConcat(xs[1..], ys, rank, r);
      assert (xs + ys)[0] == xs[0] && (xs + ys)[1..] == xs[1..] + ys;
      var first := if rank(xs[0]) == r then [xs[0]] else [];
      assert first + (OfRank(xs[1..], rank, r) + OfRank(ys, rank, r))
             == first + OfRank(xs[1..], rank, r) + OfRank(ys, rank, r);
    }
  }

  lemma {:induction false} OfRankTwice<T>(xs: seq<T>, rank: T -> nat, r: nat, s: nat)
    ensures OfRank(OfRank(xs, rank, r), rank, s) == if r == s then OfRank(xs, rank, r) else []
  {
    if xs != [] {
      OfRankTwice(xs[1..], rank, r, s);
      var rest := OfRank(xs[1..], rank, r);
      if rank(xs[0]) == r {
        assert OfRank(xs, rank, r) == [xs[0]] + rest && ([xs[0]] + rest)[1..] == rest;
      } else {
        assert OfRank(xs, rank, r) == rest;
      }
    }
  }

  lemma ByRankCounts<T>(xs: seq<T>, rank: T -> nat, x: T)
    requires rank(x) < 4
    ensures multiset(ByRank(xs, rank))[x] == multiset(xs)[x]
  {
    OfRankCounts(xs, rank, 0, x);
    OfRankCounts(xs, rank, 1, x);
    OfRankCounts(xs, rank, 2, x);
    OfRankCounts(xs, rank, 3, x);
  }

  ghost predicate Ordered<T>(xs: seq<T>, rank: T -> nat) {
    forall i, j | 0 <= i < j < |xs| :: rank(xs[i]) <= rank(xs[j])
  }

  lemma OrderedConcat<T>(xs: seq<T>, ys: seq<T>, rank: T -> nat, r: nat)
    requires Ordered(xs, rank) && (forall x | x in xs :: rank(x) < r) && forall y | y in ys :: rank(y) == r
    ensures Ordered(xs + ys, rank) && forall z | z in xs + ys :: rank(z) < r + 1
  {
    var zs := xs + ys;
    forall i, j | 0 <= i < j < |zs| ensures rank(zs[i]) <= rank(zs[j]) {
      if j >= |xs| {
        assert zs[j] in ys;
        assert if i < |xs| then zs[i] in xs else zs[i] in ys;
      }
    }
  }

  lemma ByRankOrdered<T>(xs: seq<T>, rank: T -> nat)
    ensures Ordered(ByRank(xs, rank), rank)
  {
    OfRankMembers(xs, rank, 0);
    OfRankMembers(xs, rank, 1);
    OfRankMembers(xs, rank, 2);
    OfRankMembers(xs, rank, 3);
    var a, b, c, d := OfRank(xs, rank, 0), OfRank(xs, rank, 1), OfRank(xs, rank, 2), OfRank(xs, rank, 3);
    OrderedConcat([], a, rank, 0);
    assert [] + a == a;
    OrderedConcat(a, b, rank, 1);
    OrderedConcat(a + b, c, rank, 2);
    OrderedConcat(a + b + c, d, rank, 3);
  }

  lemma ByRankStable<T>(xs: seq<T>, rank: T -> nat, r: nat)
    requires r < 4
    ensures OfRank(ByRank(xs, rank), rank, r) == OfRank(xs, rank, r)
  {
    var a, b, c, d := OfRank(xs, rank, 0), OfRank(xs, rank, 1), OfRank(xs, rank, 2), OfRank(xs, rank, 3);
    OfRankConcat(a + b + c, d, rank, r);
    OfRankConcat(a + b, c, rank, r);
    OfRankConcat(a, b, rank, r);
    OfRankTwice(xs, rank, 0, r);
    OfRankTwice(xs, rank, 1, r);
    OfRankTwice(xs, rank, 2, r);
    OfRankTwice(xs, rank, 3, r);
  }

  /**
   * The result has the same addresses as often, no better one behind another, and keeps the
   * order among equals, which are those of one rank.
   */
  lemma SortLLFirstSorts(ips: seq<IP>)
    ensures forall ip: IP :: multiset(SortLLFirst(ips))[ip] == multiset(ips)[ip]
    ensures forall i, j | 0 <= i < j < |SortLLFirst(ips)| :: !Better(SortLLFirst(ips)[j], SortLLFirst(ips)[i])
    ensures forall a: IP, b: IP :: Rank(a) == Rank(b) <==> !Better(a, b) && !Better(b, a)
    ensures forall r | 0 <= r < 4 :: OfRank(SortLLFirst(ips), Rank, r) == OfRank(ips, Rank, r)
  {
    forall a: IP, b: IP ensures Rank(a) < Rank(b) <==> Better(a, b) {
      RankIsBetter(a, b);
    }
    forall ip: IP ensures multiset(SortLLFirst(ips))[ip] == multiset(ips)[ip] {
      ByRankCounts(ips, Rank, ip);
    }
    ByRankOrdered(ips, Rank);
    forall r | 0 <= r < 4 ensures OfRank(SortLLFirst(ips), Rank, r) == OfRank(ips, Rank, r) {
      ByRankStable(ips, Rank, r);
    }
  }

  // ----- endpoint, routes, allowed addresses -----

  function OutsideUla(ips: seq<IP>): (r: seq<IP>)
    ensures forall ip :: ip in r <==> ip in ips && !Contains(VULA_ULA_SUBNET, ip)
  {
    if ips == [] then [] else (if Contains(VULA_ULA_SUBNET, ips[0]) then [] else [ips[0]]) + OutsideUla(ips[1..])
  }

  function EndpointAddress(h: Host): IP {
    var ips := SortLLFirst(OutsideUla(h.ips));
    if ips != [] then ips[0] else V4([0, 0, 0, 0])
  }

  lemma SortedMembers(ips: seq<IP>, ip: IP)
    ensures ip in SortLLFirst(ips) <==> ip in ips
  {
    ByRankCounts(ips, Rank, ip);
    assert ip in multiset(SortLLFirst(ips)) <==> ip in SortLLFirst(ips);
    assert ip in multiset(ips) <==> ip in ips;
  }

  lemma FirstIsBest(ips: seq<IP>, ip: IP)
    requires ip in ips
    ensures SortLLFirst(ips) != [] && Rank(SortLLFirst(ips)[0]) <= Rank(ip)
  {
    SortedMembers(ips, ip);
    var i :| 0 <= i < |SortLLFirst(ips)| && SortLLFirst(ips)[i] == ip;
    ByRankOrdered(ips, Rank);
  }

  /** Outside fdff:ffff:ffdf::/48. */
  predicate Reachable(ip: IP) {
    !Contains(Net(V6([0xfd, 0xff, 0xff, 0xff, 0xff, 0xdf, 0, 0, 0, 0, 0, 0, 0, 0, 0, 0]), 48), ip)
  }

  /** 0.0.0.0 if no address is reachable; otherwise the first of the best reachable ones. */
  ghost predicate IsEndpoint(ips: seq<IP>, e: IP) {
    if forall ip | ip in ips :: !Reachable(ip) then e == V4([0, 0, 0, 0])
    else
      exists i | 0 <= i < |ips| ::
        && ips[i] == e && Reachable(e)
        && (forall j | 0 <= j < |ips| && Reachable(ips[j]) :: !Better(ips[j], e))
        && (forall j | 0 <= j < i && Reachable(ips[j]) :: Better(e, ips[j]))
  }

  lemma {:induction false} FirstOfRank<T>(xs: seq<T>, rank: T -> nat, r: nat) returns (i: nat)
    requires OfRank(xs, rank, r) != []
    ensures i < |xs| && xs[i] == OfRank(xs, rank, r)[0] && rank(xs[i]) == r
    ensures forall j | 0 <= j < i :: rank(xs[j]) != r
  {
    if rank(xs[0]) == r {
      i := 0;
    } else {
      i := FirstOfRank(xs[1..], rank, r);
      i := i + 1;
    }
  }

  /** The first of the sorted list is the first of its rank in the list. */
  lemma SortedFirst(ips: seq<IP>) returns (i: nat)
    requires ips != []
    ensures SortLLFirst(ips) != [] && i < |ips| && ips[i] == SortLLFirst(ips)[0]
    ensures forall j | 0 <= j < |ips| :: Rank(ips[i]) <= Rank(ips[j])
    ensures forall j | 0 <= j < i :: Rank(ips[i]) < Rank(ips[j])
  {
    FirstIsBest(ips, ips[0]);
    var e := SortLLFirst(ips)[0];
    ByRankStable(ips, Rank, Rank(e));
    i := FirstOfRank(ips, Rank, Rank(e));
    forall j | 0 <= j < |ips| ensures Rank(e) <= Rank(ips[j]) {
      FirstIsBest(ips, ips[j]);
    }
    SortedMembers(ips, e);
  }

  /** k is where the i-th address outside the vula network stands, and those before it stand before. */
  predicate StandsAt(ips: seq<IP>, outside: seq<IP>, i: nat, k: nat) {
    && i < |outside| && k < |ips| && ips[k] == outside[i]
    && forall j | 0 <= j < k && !Contains(VULA_ULA_SUBNET, ips[j]) :: ips[j] in outside[..i]
  }

  lemma StandsAfterOther(ips: seq<IP>, outside: seq<IP>, i: nat, k: nat)
    requires ips != [] && Contains(VULA_ULA_SUBNET, ips[0]) && StandsAt(ips[1..], outside, i, k)
    ensures StandsAt(ips, outside, i, k + 1)
  {
    forall j | 0 <= j < k + 1 && !Contains(VULA_ULA_SUBNET, ips[j]) ensures ips[j] in outside[..i] {
      assert ips[j] == ips[1..][j - 1];
    }
  }

  lemma StandsAfterOne(ips: seq<IP>, outside: seq<IP>, i: nat, k: nat)
    requires ips != [] && StandsAt(ips[1..], outside, i, k)
    ensures StandsAt(ips, [ips[0]] + outside, i + 1, k + 1)
  {
    assert ([ips[0]] + outside)[..i + 1] == [ips[0]] + outside[..i];
    forall j | 0 <= j < k + 1 && !Contains(VULA_ULA_SUBNET, ips[j]) ensures ips[j] in [ips[0]] + outside[..i] {
      if j > 0 {
        assert ips[j] == ips[1..][j - 1];
      }
    }
  }

  lemma {:induction false} OutsidePosition(ips: seq<IP>, i: nat) returns (k: nat)
    requires i < |OutsideUla(ips)|
    ensures StandsAt(ips, OutsideUla(ips), i, k)
  {
    if Contains(VULA_ULA_SUBNET, ips[0]) {
      k := OutsidePosition(ips[1..], i);
      assert OutsideUla(ips) == OutsideUla(ips[1..]);
      StandsAfterOther(ips, OutsideUla(ips), i, k);
      k := k + 1;
    } else if i == 0 {
      k := 0;
    } else {
      k := OutsidePosition(ips[1..], i - 1);
      assert OutsideUla(ips) == [ips[0]] + OutsideUla(ips[1..]);
      StandsAfterOne(ips, OutsideUla(ips[1..]), i - 1, k);
      k := k + 1;
    }
  }

  lemma ReachableIsOutside(ip: IP)
    ensures Reachable(ip) <==> !Contains(VULA_ULA_SUBNET, ip)
  {
  }

  lemma EndpointAmong(ips: seq<IP>)
    requires OutsideUla(ips) != []
    ensures IsEndpoint(ips, SortLLFirst(OutsideUla(ips))[0])
  {
    var outside := OutsideUla(ips);
    var i := SortedFirst(outside);
    var k := OutsidePosition(ips, i);
    var e := ips[k];
    forall ip: IP ensures Reachable(ip) <==> !Contains(VULA_ULA_SUBNET, ip) {
      ReachableIsOutside(ip);
    }
    assert e in outside && Reachable(e);
    forall j | 0 <= j < |ips| && Reachable(ips[j]) ensures !Better(ips[j], e) {
      assert ips[j] in outside;
      RankIsBetter(ips[j], e);
    }
    forall j | 0 <= j < k && Reachable(ips[j]) ensures Better(e, ips[j]) {
      assert ips[j] in outside[..i];
      RankIsBetter(e, ips[j]);
    }
  }

  lemma EndpointIsBest(h: Host)
    ensures IsEndpoint(h.ips, EndpointAddress(h))
  {
    var outside := OutsideUla(h.ips);
    forall ip: IP ensures Reachable(ip) <==> !Contains(VULA_ULA_SUBNET, ip) {
      ReachableIsOutside(ip);
    }
    if outside != [] {
      assert outside[0] in outside;
      EndpointAmong(h.ips);
    } else {
      assert SortLLFirst([]) == [];
    }
  }

  function Routable(ips: seq<IP>): (r: seq<IP>)
    ensures forall ip :: ip in r <==> ip in ips && !(ip.V6? && LinkLocal(ip))
    ensures NoRepeats(ips) ==> NoRepeats(r)
  {
    if ips == [] then []
    else
      assert NoRepeats(ips) ==> NoRepeats(ips[1..]) && ips[0] !in ips[1..];
      (if ips[0].V6? && LinkLocal(ips[0]) then [] else [ips[0]]) + Routable(ips[1..])
  }

  /** The network of one address. */
  function HostNet(ip: IP): Net {
    Net(ip, 8 * |ip.octets|)
  }

  function Routes(h: Host): (r: seq<Net>)
    ensures |r| == |Routable(h.ips)|
    ensures forall i | 0 <= i < |r| :: r[i] == HostNet(Routable(h.ips)[i])
  {
    seq(|Routable(h.ips)|, i requires 0 <= i < |Routable(h.ips)| => HostNet(Routable(h.ips)[i]))
  }

  const ALL_V4: Net := Net(V4([0, 0, 0, 0]), 0)
  const ALL_V6: Net := Net(V6(ZERO16), 0)

  function Allowed(h: Host): seq<Net> {
    Routes(h) + if h.gateway then [ALL_V4, ALL_V6] else []
  }

  /** A peer is routed to at every enabled address but link-local version 6 ones, as a network of that address alone. */
  predicate RoutedAt(h: Host, n: Net) {
    n.address in h.ips && !(n.address.V6? && OnLink(n.address)) && n.prefix == if n.address.V4? then 32 else 128
  }

  lemma RoutesMembers(h: Host, n: Net)
    ensures n in Routes(h) <==> RoutedAt(h, n)
  {
    var ips := Routable(h.ips);
    LinkLocalIsOnLink(n.address);
    if n in Routes(h) {
      var i :| 0 <= i < |ips| && HostNet(ips[i]) == n;
      assert ips[i] in ips;
    }
    if n == HostNet(n.address) && n.address in ips {
      var i :| 0 <= i < |ips| && ips[i] == n.address;
      assert Routes(h)[i] == n;
    }
  }

  function WgValues(h: Host, psk: Key -> Key): (r: map<Name, Value>)
    ensures r.Keys == {PublicKey, EndpointAddr, EndpointPort, AllowedIps, PresharedKey}
    ensures Proper(r)
  {
    map[PublicKey := KeyIs(h.pk), EndpointAddr := AddrIs(EndpointAddress(h)), EndpointPort := Number(h.port),
        AllowedIps := Nets(Allowed(h)), PresharedKey := KeyIs(psk(h.c))]
  }

  const WG_NAMES: seq<Name> := [PublicKey, EndpointAddr, EndpointPort, AllowedIps, PresharedKey]

  lemma WgNamesOnce()
    ensures NoRepeats(WG_NAMES)
    ensures forall n :: n in WG_NAMES <==> n in {PublicKey, EndpointAddr, EndpointPort, AllowedIps, PresharedKey}
  {
  }

  /** `wg_config`; psk is the preshared key derived from the peer's CTIDH key. */
  function WgConfig(h: Host, psk: Key -> Key): (r: Config)
    ensures Proper(r.at) && !Removes(r.at)
  {
    WgNamesOnce();
    Entries(WG_NAMES, WgValues(h, psk))
  }
}
