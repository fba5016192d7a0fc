/** From the events to the kernel: what every harmless run asks for, one pass brings about. */
module EndToEnd {
  import opened Addresses
  import opened OrderedDict
  import opened Peers
  import opened OrganizeModel
  import opened OrganizeEffects
  import opened OrganizeInvariant
  import opened OrganizeUniqueness
  import opened DesiredState
  import W = WireGuard
  import D = Desired
  import R = Reconciler

  /** hosts is what the run leaves for the system, and no routable primary address in it is held twice. */
  ghost predicate LeftBy(evs: seq<Event>, hosts: seq<D.Host>) {
    var ps := RunAll(InitialState(), evs).peers;
    HarmlessRun(InitialState(), evs) && ViewsAll(hosts, ps) && NothingShared(ps)
  }

  lemma LeftSeparate(evs: seq<Event>, hosts: seq<D.Host>, psk: Key -> Key)
    requires LeftBy(evs, hosts) && forall c :: psk(c) != W.NO_PSK
    ensures R.Separate(hosts, psk)
  {
    RunsKeepInv(evs);
    RunsStayUnique(evs);
    StateIsSeparate(RunAll(InitialState(), evs).peers, hosts, psk);
  }

  // ----- what that is for the peers on record -----

  /** The peer is routed at this network, or it is the gateway and the network is everything. */
  predicate RoutesTo(p: Peer, n: Net) {
    || (&& n.address in p.EnabledIps() && !(n.address.V6? && D.OnLink(n.address))
        && n.prefix == if n.address.V4? then 32 else 128)
    || (p.gateway && n in [Net(V4([0, 0, 0, 0]), 0), Net(V6(ZERO16), 0)])
  }

  /**
   * WireGuard has the peer's key, with the preshared key of its descriptor, at its port of one
   * of its enabled addresses or 0.0.0.0, for exactly the networks that go to it.
   */
  ghost predicate Connected(k: W.Kernel, p: Peer, psk: Key -> Key) {
    && p.descriptor.pk in k.at
    && var w := k.at[p.descriptor.pk];
    && w.psk == psk(p.descriptor.c)
    && w.endpoint.Some? && w.endpoint.value.1 == p.descriptor.port
    && (w.endpoint.value.0 in p.EnabledIps() || w.endpoint.value.0 == V4([0, 0, 0, 0]))
    && forall n :: n in w.allowed <==> RoutesTo(p, n)
  }

  /** The enabled peers are connected, and nobody else has a key in WireGuard. */
  ghost predicate AllConnected(k: W.Kernel, ps: PeerDict, psk: Key -> Key) {
    && (forall vk | vk in ps.at && ps.at[vk].enabled :: Connected(k, ps.at[vk], psk))
    && forall pk | pk in k.at :: exists vk | vk in ps.at :: ps.at[vk].enabled && ps.at[vk].descriptor.pk == pk
  }

  lemma ViewIsConnected(k: W.Kernel, h: D.Host, p: Peer, psk: Key -> Key)
    requires R.RunsAs(k, h, psk) && Views(h, p)
    ensures Connected(k, p, psk)
  {
    forall ip: IP ensures ip in h.ips <==> ip in p.EnabledIps() {
      assert ip in multiset(h.ips) <==> ip in h.ips;
    }
    forall n ensures R.Serves(h, n) <==> RoutesTo(p, n) {
    }
  }

  lemma HostOf(hosts: seq<D.Host>, ps: PeerDict, vk: Key) returns (h: D.Host)
    requires ViewsAll(hosts, ps) && vk in ps.at
    ensures h in hosts && Views(h, ps.at[vk])
  {
    var i :| 0 <= i < |ps.order| && ps.order[i] == vk;
    h := hosts[i];
    assert Views(hosts[i], ps.at[ps.order[i]]);
  }

  lemma PeerOf(hosts: seq<D.Host>, ps: PeerDict, h: D.Host) returns (vk: Key)
    requires ViewsAll(hosts, ps) && h in hosts
    ensures vk in ps.at && Views(h, ps.at[vk])
  {
    var i :| 0 <= i < |hosts| && hosts[i] == h;
    vk := ps.order[i];
    assert vk in ps.order && Views(hosts[i], ps.at[ps.order[i]]);
  }

  lemma PeerConnected(k: W.Kernel, hosts: seq<D.Host>, ps: PeerDict, psk: Key -> Key, vk: Key)
    requires R.AllRun(k, hosts, psk) && ViewsAll(hosts, ps) && vk in ps.at && ps.at[vk].enabled
    ensures Connected(k, ps.at[vk], psk)
  {
    var h := HostOf(hosts, ps, vk);
    ViewIsConnected(k, h, ps.at[vk], psk);
  }

  lemma KeyIsKnown(k: W.Kernel, hosts: seq<D.Host>, ps: PeerDict, psk: Key -> Key, pk: Key) returns (vk: Key)
    requires R.AllRun(k, hosts, psk) && ViewsAll(hosts, ps) && pk in k.at
    ensures vk in ps.at && ps.at[vk].enabled && ps.at[vk].descriptor.pk == pk
  {
    var h :| h in hosts && h.enabled && h.pk == pk;
    vk := PeerOf(hosts, ps, h);
  }

  lemma RunIsConnected(k: W.Kernel, hosts: seq<D.Host>, ps: PeerDict, psk: Key -> Key)
    requires R.AllRun(k, hosts, psk) && ViewsAll(hosts, ps)
    ensures AllConnected(k, ps, psk)
  {
    forall vk | vk in ps.at && ps.at[vk].enabled ensures Connected(k, ps.at[vk], psk) {
      PeerConnected(k, hosts, ps, psk, vk);
    }
    forall pk | pk in k.at ensures exists vk | vk in ps.at :: ps.at[vk].enabled && ps.at[vk].descriptor.pk == pk {
      var vk := KeyIsKnown(k, hosts, ps, psk, pk);
    }
  }

  /**
   * Whatever a harmless run from the empty state was and whatever the kernel holds: one
   * pass configures exactly the enabled peers the run left, and brings the routes in
   * line unless a default route sits in the vula table; after that a second pass
   * changes and reports nothing.
   */
  method SettleAfter(evs: seq<Event>, hosts: seq<D.Host>, psk: Key -> Key, sys: R.Sys)
    returns (first: R.Outcome, second: R.Outcome)
    requires LeftBy(evs, hosts) && forall c :: psk(c) != W.NO_PSK
    requires W.KernelOk(sys.wgi.kernel)
    modifies sys`routes, sys.wgi
    ensures R.WgSynced(sys.wgi.kernel, hosts, psk) && R.AllRun(sys.wgi.kernel, hosts, psk)
    ensures AllConnected(sys.wgi.kernel, RunAll(InitialState(), evs).peers, psk)
    ensures first.Failed? <==> R.Undeletable(old(sys.routes))
    ensures !R.Undeletable(old(sys.routes)) ==>
              && R.Synced(sys.wgi.kernel, sys.routes, hosts, psk) && R.AllRouted(sys.routes, hosts)
              && second == R.Lines([])
    ensures R.SameElsewhere(old(sys.routes), sys.routes)
  {
    LeftSeparate(evs, hosts, psk);
    first := sys.Sync(hosts, psk);
    second := sys.Sync(hosts, psk);
    RunIsConnected(sys.wgi.kernel, hosts, RunAll(InitialState(), evs).peers, psk);
  }

  // ----- the default route -----

  /** A route without a destination in the vula table. */
  const DEFAULT_ROUTE: R.Route := R.Route(R.VULA_TABLE, None, 0)

  /** With a default route in the vula table, nobody known and nothing configured, a pass raises and the route stays. */
  method DefaultRouteStays(psk: Key -> Key) returns (r: R.Outcome, left: set<R.Route>)
    ensures r.Failed? && DEFAULT_ROUTE in left && !R.RoutesSynced(left, [])
  {
    var wgi := new W.Interface(Empty());
    var sys := new R.Sys(wgi, {DEFAULT_ROUTE});
    assert R.Undeletable({DEFAULT_ROUTE}) by {
      assert DEFAULT_ROUTE in {DEFAULT_ROUTE};
    }
    r := sys.Sync([], psk);
    left := sys.routes;
    assert R.Foreign(DEFAULT_ROUTE);
  }
}
