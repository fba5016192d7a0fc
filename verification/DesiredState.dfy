/**
 * When a committed state gives the reconciler something it can settle on: no
 * allowed address is wanted twice, by one enabled peer or by two.
 */
module DesiredState {
  import opened Addresses
  import opened OrderedDict
  import opened Queryable
  import opened Peers
  import opened OrganizeModel
  import opened OrganizeEffects
  import opened OrganizeInvariant
  import opened OrganizeUniqueness
  import opened OrganizeLookups
  import W = WireGuard
  import opened Desired
  import R = Reconciler

  /** h is what the system is configured from for the record p, its addresses in some order. */
  predicate Views(h: Host, p: Peer) {
    && h.pk == p.descriptor.pk && h.c == p.descriptor.c && h.port == p.descriptor.port
    && h.enabled == p.enabled && h.gateway == p.gateway
    && multiset(h.ips) == p.EnabledIps()
  }

  ghost predicate ViewsAll(hosts: seq<Host>, ps: PeerDict) {
    && |hosts| == |ps.order|
    && forall i | 0 <= i < |hosts| :: Views(hosts[i], ps.at[ps.order[i]])
  }

  predicate CanRoute(ip: IP) {
    !(ip.V6? && LinkLocal(ip))
  }

  lemma ViewedIp(h: Host, p: Peer, ip: IP)
    requires Views(h, p)
    ensures multiset(h.ips)[ip] == (if HasPrimary(p, ip) then 1 else 0) + (if ip in p.EnabledAddrs() then 1 else 0)
    ensures ip in h.ips <==> HasPrimary(p, ip) || ip in p.EnabledAddrs()
  {
    IpCount(p, ip);
    assert ip in multiset(h.ips) <==> ip in h.ips;
  }

  lemma {:induction false} RoutableCount(ips: seq<IP>, ip: IP)
    ensures multiset(Routable(ips))[ip] == if CanRoute(ip) then multiset(ips)[ip] else 0
  {
    if ips != [] {
      RoutableCount(ips[1..], ip);
      assert ips == [ips[0]] + ips[1..];
    }
  }

  lemma {:induction false} CountedOnce<T(!new)>(s: seq<T>)
    ensures NoRepeats(s) <==> forall x :: multiset(s)[x] <= 1
  {
    if s != [] {
      var init, last := s[..|s| - 1], s[|s| - 1];
      CountedOnce(init);
      assert s == init + [last];
      NoRepeatsSnoc(init, last);
      assert last in init <==> last in multiset(init);
      if NoRepeats(s) {
        forall x ensures multiset(s)[x] <= 1 {
          assert multiset(s)[x] == multiset(init)[x] + multiset([last])[x];
        }
      }
      if forall x :: multiset(s)[x] <= 1 {
        forall x ensures multiset(init)[x] <= 1 {
          assert multiset(s)[x] == multiset(init)[x] + multiset([last])[x];
        }
        assert multiset(s)[last] == multiset(init)[last] + multiset([last])[last];
      }
    }
  }

  lemma RoutesOnce(h: Host)
    ensures NoRepeats(Routes(h)) <==> NoRepeats(Routable(h.ips))
  {
    var ips := Routable(h.ips);
    if NoRepeats(Routes(h)) {
      forall i, j | 0 <= i < j < |ips| ensures ips[i] != ips[j] {
        assert Routes(h)[i] == HostNet(ips[i]) && Routes(h)[j] == HostNet(ips[j]);
      }
    }
  }

  lemma AllowedOnce(h: Host)
    ensures NoRepeats(Allowed(h)) <==> NoRepeats(Routes(h))
  {
    forall n | n in Routes(h) ensures n.prefix > 0 {
      RoutesMembers(h, n);
    }
    if h.gateway {
      NoRepeatsSnoc(Routes(h), ALL_V4);
      NoRepeatsSnoc(Routes(h) + [ALL_V4], ALL_V6);
      assert Routes(h) + [ALL_V4] + [ALL_V6] == Allowed(h);
    } else {
      assert Allowed(h) == Routes(h);
    }
  }

  /**
   * A peer's list repeats nothing exactly when no address it can be routed at is both its
   * primary and in its tables.
   */
  lemma ListsOnce(h: Host, p: Peer)
    requires Views(h, p)
    ensures NoRepeats(Allowed(h)) <==> forall ip: IP | CanRoute(ip) :: !(HasPrimary(p, ip) && ip in p.EnabledAddrs())
  {
    AllowedOnce(h);
    RoutesOnce(h);
    CountedOnce(Routable(h.ips));
    forall ip: IP
      ensures multiset(Routable(h.ips))[ip] <= 1 <==> !CanRoute(ip) || !(HasPrimary(p, ip) && ip in p.EnabledAddrs()) {
      RoutableCount(h.ips, ip);
      ViewedIp(h, p, ip);
    }
  }

  lemma ApartIs(g: Host, h: Host)
    ensures R.Apart(g, h)
       <==> !(g.gateway && h.gateway) && forall ip: IP | CanRoute(ip) :: !(ip in g.ips && ip in h.ips)
  {
    assert g.gateway && h.gateway ==> ALL_V4 in Allowed(g) && ALL_V4 in Allowed(h);
    forall ip: IP | CanRoute(ip)
      ensures ip in g.ips && ip in h.ips ==> HostNet(ip) in Allowed(g) && HostNet(ip) in Allowed(h) {
      RoutesMembers(g, HostNet(ip));
      RoutesMembers(h, HostNet(ip));
    }
    if !R.Apart(g, h) {
      var n :| n in Allowed(g) && n in Allowed(h);
      RoutesMembers(g, n);
      RoutesMembers(h, n);
    }
  }

  /** Two enabled peers collide at an address they can be routed at only as primary addresses do. */
  lemma PairCollides(g: Host, h: Host, p: Peer, q: Peer, ip: IP)
    requires Views(g, p) && Views(h, q) && Apart(p, q)
    ensures ip in g.ips && ip in h.ips <==>
              || (HasPrimary(p, ip) && (HasPrimary(q, ip) || ip in q.EnabledAddrs()))
              || (HasPrimary(q, ip) && ip in p.EnabledAddrs())
  {
    ViewedIp(g, p, ip);
    ViewedIp(h, q, ip);
  }

  ghost predicate NothingShared(ps: PeerDict) {
    forall ip: IP | CanRoute(ip) :: !PrimaryShared(ps, ip)
  }

  lemma OrderPosition(ps: PeerDict, k: Key) returns (i: nat)
    requires k in ps.at
    ensures i < |ps.order| && ps.order[i] == k
  {
    i :| 0 <= i < |ps.order| && ps.order[i] == k;
  }

  lemma SeparateOne(ps: PeerDict, h: Host, k: Key)
    requires NothingShared(ps) && k in ps.at && ps.at[k].enabled && Views(h, ps.at[k])
    ensures NoRepeats(Allowed(h))
  {
    ListsOnce(h, ps.at[k]);
    forall ip: IP | CanRoute(ip) ensures !(HasPrimary(ps.at[k], ip) && ip in ps.at[k].EnabledAddrs()) {
      assert !PrimaryShared(ps, ip);
    }
  }

  lemma SeparateTwo(ps: PeerDict, g: Host, h: Host, a: Key, b: Key)
    requires Unique(ps) && OneGateway(ps) && NothingShared(ps)
    requires a in ps.at && b in ps.at && a != b && ps.at[a].enabled && ps.at[b].enabled
    requires Views(g, ps.at[a]) && Views(h, ps.at[b])
    ensures g.pk != h.pk && R.Apart(g, h)
  {
    assert Apart(ps.at[a], ps.at[b]);
    ApartIs(g, h);
    forall ip: IP | CanRoute(ip) ensures !(ip in g.ips && ip in h.ips) {
      PairCollides(g, h, ps.at[a], ps.at[b], ip);
      assert !PrimaryShared(ps, ip);
    }
  }

  /**
   * A committed state in which names, keys and addresses are apart gives the
   * reconciler separate peers, provided no primary address that can be routed is
   * held twice.
   */
  lemma StateIsSeparate(ps: PeerDict, hosts: seq<Host>, psk: Key -> Key)
    requires Unique(ps) && OneGateway(ps) && ViewsAll(hosts, ps)
    requires NothingShared(ps)
    requires forall c :: psk(c) != W.NO_PSK
    ensures R.Separate(hosts, psk)
  {
    forall i | 0 <= i < |hosts| && hosts[i].enabled ensures NoRepeats(Allowed(hosts[i])) {
      assert ps.order[i] in ps.order;
      SeparateOne(ps, hosts[i], ps.order[i]);
    }
    forall i, j | 0 <= i < j < |hosts| && hosts[i].enabled && hosts[j].enabled
      ensures hosts[i].pk != hosts[j].pk && R.Apart(hosts[i], hosts[j]) {
      assert ps.order[i] in ps.order && ps.order[j] in ps.order && ps.order[i] != ps.order[j];
      SeparateTwo(ps, hosts[i], hosts[j], ps.order[i], ps.order[j]);
    }
  }

  lemma SharedByOne(ps: PeerDict, h: Host, k: Key, ip: IP)
    requires k in ps.at && Views(h, ps.at[k]) && CanRoute(ip)
    requires HasPrimary(ps.at[k], ip) && ip in ps.at[k].EnabledAddrs()
    ensures !NoRepeats(Allowed(h))
  {
    ListsOnce(h, ps.at[k]);
  }

  lemma SharedByTwo(ps: PeerDict, g: Host, h: Host, a: Key, b: Key, ip: IP)
    requires a in ps.at && b in ps.at && Views(g, ps.at[a]) && Views(h, ps.at[b]) && CanRoute(ip)
    requires HasPrimary(ps.at[a], ip) && (HasPrimary(ps.at[b], ip) || ip in ps.at[b].EnabledAddrs())
    ensures !R.Apart(g, h) && !R.Apart(h, g)
  {
    ViewedIp(g, ps.at[a], ip);
    ViewedIp(h, ps.at[b], ip);
    ApartIs(g, h);
    ApartIs(h, g);
  }

  lemma NotSeparateAlone(ps: PeerDict, hosts: seq<Host>, psk: Key -> Key, a: Key, ip: IP)
    requires ViewsAll(hosts, ps) && a in ps.at && ps.at[a].enabled && CanRoute(ip)
    requires HasPrimary(ps.at[a], ip) && ip in ps.at[a].EnabledAddrs()
    ensures !R.Separate(hosts, psk)
  {
    var i := OrderPosition(ps, a);
    SharedByOne(ps, hosts[i], a, ip);
  }

  lemma NotSeparatePair(hosts: seq<Host>, psk: Key -> Key, i: nat, j: nat)
    requires i < |hosts| && j < |hosts| && i != j && hosts[i].enabled && hosts[j].enabled
    requires !R.Apart(hosts[i], hosts[j]) && !R.Apart(hosts[j], hosts[i])
    ensures !R.Separate(hosts, psk)
  {
    assert i < j || j < i;
  }

  lemma NotSeparateTogether(ps: PeerDict, hosts: seq<Host>, psk: Key -> Key, a: Key, b: Key, ip: IP)
    requires ViewsAll(hosts, ps) && a in ps.at && b in ps.at && a != b && ps.at[a].enabled && ps.at[b].enabled
             && CanRoute(ip)
    requires HasPrimary(ps.at[a], ip) && (HasPrimary(ps.at[b], ip) || ip in ps.at[b].EnabledAddrs())
    ensures !R.Separate(hosts, psk)
  {
    var i := OrderPosition(ps, a);
    var j := OrderPosition(ps, b);
    SharedByTwo(ps, hosts[i], hosts[j], a, b, ip);
    NotSeparatePair(hosts, psk, i, j);
  }

  lemma SharedIsNotSeparate(ps: PeerDict, hosts: seq<Host>, psk: Key -> Key, ip: IP)
    requires ViewsAll(hosts, ps) && CanRoute(ip) && PrimaryShared(ps, ip)
    ensures !R.Separate(hosts, psk)
  {
    var a :| a in ps.at && ps.at[a].enabled && HasPrimary(ps.at[a], ip) && (
      || ip in ps.at[a].EnabledAddrs()
      || exists b | b in ps.at && b != a && ps.at[b].enabled ::
        HasPrimary(ps.at[b], ip) || ip in ps.at[b].EnabledAddrs());
    if ip in ps.at[a].EnabledAddrs() {
      NotSeparateAlone(ps, hosts, psk, a, ip);
    } else {
      var b :| b in ps.at && b != a && ps.at[b].enabled && (HasPrimary(ps.at[b], ip) || ip in ps.at[b].EnabledAddrs());
      NotSeparateTogether(ps, hosts, psk, a, b, ip);
    }
  }

  /** And only then: a routable primary address that is held twice is wanted twice. */
  lemma SeparateNeedsNothingShared(ps: PeerDict, hosts: seq<Host>, psk: Key -> Key)
    requires ViewsAll(hosts, ps) && R.Separate(hosts, psk)
    ensures NothingShared(ps)
  {
    forall ip: IP | CanRoute(ip) ensures !PrimaryShared(ps, ip) {
      if PrimaryShared(ps, ip) {
        SharedIsNotSeparate(ps, hosts, psk, ip);
      }
    }
  }
}
