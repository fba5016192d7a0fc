/**
 * Driving the kernel's routes and WireGuard peers to what the enabled peers ask
 * for (vula/sys_pyroute2.py, `sync` in vula/organize.py), step by step and with
 * a cached peer list that lags behind the kernel.
 */
module Reconciler {
  import opened Addresses
  import opened OrderedDict
  import opened Nets
  import opened Peers
  import opened Text
  import opened WireGuard
  import opened Desired

  /** A kernel route; a default route has no destination. */
  datatype Route = Route(table: int, dst: Option<Net>, scope: int)

  const VULA_TABLE := 666
  const MAIN_TABLE := 254
  const SCOPE_LINK := 253

  /** 0.0.0.0/1, 128.0.0.0/1, ::/1 and 8000::/1: together everything, but more specific than a default route. */
  const GATEWAY_ROUTES: seq<Net> :=
    [Net(V4([0, 0, 0, 0]), 1), Net(V4([128, 0, 0, 0]), 1), Net(V6(ZERO16), 1),
     Net(V6([128, 0, 0, 0, 0, 0, 0, 0, 0, 0, 0, 0, 0, 0, 0, 0]), 1)]

  lemma HalvesV4Texts()
    ensures ShowNet(Net(V4([0, 0, 0, 0]), 1)) == "0.0.0.0/1" && ShowNet(Net(V4([128, 0, 0, 0]), 1)) == "128.0.0.0/1"
  {
    ShownQuads(0, 0, 0, 0, 1, "0", "0", "0", "0", "1");
    assert Decimal(12) == "12";
    ShownQuads(128, 0, 0, 0, 1, "128", "0", "0", "0", "1");
  }

  lemma LowHalfText()
    ensures ShowNet(Net(V6(ZERO16), 1)) == "::/1"
  {
    ZeroText(1);
    assert "::/" + "1" == "::/1";
  }

  lemma HighOctets(o: Bytes)
    requires o == [128, 0, 0, 0, 0, 0, 0, 0, 0, 0, 0, 0, 0, 0, 0, 0]
    ensures |o| == 16 && o[0] == 128 && forall i | 1 <= i < 16 :: o[i] == 0
  {
    assert o[1] == o[2] == o[3] == o[4] == o[5] == 0;
    assert o[6] == o[7] == o[8] == o[9] == o[10] == 0;
    assert o[11] == o[12] == o[13] == o[14] == o[15] == 0;
  }

  lemma HalvesV6Texts(high: Bytes)
    requires high == [128, 0, 0, 0, 0, 0, 0, 0, 0, 0, 0, 0, 0, 0, 0, 0]
    ensures ShowNet(Net(V6(ZERO16), 1)) == "::/1" && ShowNet(Net(V6(high), 1)) == "8000::/1"
  {
    LowHalfText();
    HighOctets(high);
    HighText(high);
  }

  /** The four, as they are written in vula/constants.py. */
  lemma GatewayTexts()
    ensures |GATEWAY_ROUTES| == 4
    ensures ShowNet(GATEWAY_ROUTES[0]) == "0.0.0.0/1" && ShowNet(GATEWAY_ROUTES[1]) == "128.0.0.0/1"
    ensures ShowNet(GATEWAY_ROUTES[2]) == "::/1" && ShowNet(GATEWAY_ROUTES[3]) == "8000::/1"
  {
    HalvesV4Texts();
    HalvesV6Texts(GATEWAY_ROUTES[3].address.octets);
  }

  /** What is reported of one sync; nothing is reported where nothing was done. */
  datatype Report =
    | WgLines(lines: seq<Line>)
    | WgRemoved(pk: Key)
    | RouteAdded(dst: Net, table: int)
    | RouteDeleted(dst: Net, table: int)
    | Raised

  datatype Outcome = Lines(lines: seq<Report>) | Failed(lines: seq<Report>)

  // ----- routes -----

  predicate Has(routes: set<Route>, table: int, dst: Net) {
    exists r | r in routes :: r.table == table && r.dst == Some(dst)
  }

  /** A default route in the vula table: nothing the program sets, and nothing it can remove. */
  ghost predicate Undeletable(routes: set<Route>) {
    exists r | r in routes :: r.table == VULA_TABLE && r.dst.None?
  }

  /** The routes after making sure of dests. */
  function WithRoutes(routes: set<Route>, dests: seq<Net>, table: int): set<Route> {
    if dests == [] then routes
    else
      var sofar := WithRoutes(routes, dests[..|dests| - 1], table);
      var dest := dests[|dests| - 1];
      if Has(sofar, table, dest) then sofar else sofar + {Route(table, Some(dest), SCOPE_LINK)}
  }

  lemma HasGrows(routes: set<Route>, later: set<Route>)
    requires routes <= later
    ensures forall table, d :: Has(routes, table, d) ==> Has(later, table, d)
  {
    forall table, d | Has(routes, table, d) ensures Has(later, table, d) {
      var r :| r in routes && r.table == table && r.dst == Some(d);
      assert r in later;
    }
  }

  /** Nothing is lost, only missing routes to dests are added, and afterwards all of them are there. */
  lemma {:induction false} WithRoutesExactly(routes: set<Route>, dests: seq<Net>, table: int)
    ensures var later := WithRoutes(routes, dests, table);
            && routes <= later
            && (forall r | r in later && r !in routes ::
                  && r.table == table && r.dst.Some? && r.dst.value in dests && !Has(routes, table, r.dst.value)
                  && r.scope == 253)
            && (forall d | d in dests :: Has(later, table, d))
  {
    if dests != [] {
      var init := dests[..|dests| - 1];
      var dest := dests[|dests| - 1];
      var sofar := WithRoutes(routes, init, table);
      var later := WithRoutes(routes, dests, table);
      WithRoutesExactly(routes, init, table);
      HasGrows(routes, sofar);
      HasGrows(sofar, later);
      assert Has(later, table, dest) by {
        assert Route(table, Some(dest), SCOPE_LINK) in later || Has(sofar, table, dest);
      }
      assert dests == init + [dest];
    }
  }

  lemma {:induction false} WithRoutesSame(routes: set<Route>, dests: seq<Net>, table: int)
    requires forall d | d in dests :: Has(routes, table, d)
    ensures WithRoutes(routes, dests, table) == routes
  {
    if dests != [] {
      WithRoutesSame(routes, dests[..|dests| - 1], table);
    }
  }

  /** The routes after the unexpected ones are gone. */
  function Pruned(routes: set<Route>, expected: set<Net>, gateway: bool): set<Route> {
    set r | r in routes
      && (r.table == VULA_TABLE ==> r.dst.Some? && r.dst.value in expected)
      && (r.table == MAIN_TABLE && !gateway ==> !(r.dst.Some? && r.dst.value in GATEWAY_ROUTES))
  }

  /** What is left when the pruning is interrupted, at least. */
  function Kept(routes: set<Route>, expected: set<Net>): set<Route> {
    set r | r in routes && (r.table == VULA_TABLE && r.dst.Some? ==> r.dst.value in expected)
  }

  function Expected(hosts: seq<Host>): set<Net> {
    set h, d | h in hosts && h.enabled && d in Routes(h) :: d
  }

  function EnabledKeys(hosts: seq<Host>): set<Key> {
    set h | h in hosts && h.enabled :: h.pk
  }

  predicate HasGateway(hosts: seq<Host>) {
    exists h | h in hosts :: h.enabled && h.gateway
  }

  // ----- the goal -----

  ghost predicate Apart(g: Host, h: Host) {
    forall n | n in Allowed(g) :: n !in Allowed(h)
  }

  /** No two enabled peers want the same key or the same allowed address, and none wants one twice. */
  ghost predicate Separate(hosts: seq<Host>, psk: Key -> Key) {
    && (forall i | 0 <= i < |hosts| && hosts[i].enabled :: NoRepeats(Allowed(hosts[i])) && psk(hosts[i].c) != NO_PSK)
    && (forall i, j | 0 <= i < j < |hosts| && hosts[i].enabled && hosts[j].enabled ::
          hosts[i].pk != hosts[j].pk && Apart(hosts[i], hosts[j]))
  }

  /** The first i peers, where enabled, are configured as asked for. */
  ghost predicate InPlace(k: Kernel, hosts: seq<Host>, psk: Key -> Key, i: nat) {
    forall j | 0 <= j < i <= |hosts| && hosts[j].enabled :: Agreed(k, WgConfig(hosts[j], psk).at)
  }

  ghost predicate WgSynced(k: Kernel, hosts: seq<Host>, psk: Key -> Key) {
    k.at.Keys == EnabledKeys(hosts) && InPlace(k, hosts, psk, |hosts|)
  }

  /** What is routed at the host, and everything through it if it is the gateway. */
  ghost predicate Serves(h: Host, n: Net) {
    RoutedAt(h, n) || (h.gateway && n in [Net(V4([0, 0, 0, 0]), 0), Net(V6(ZERO16), 0)])
  }

  /**
   * WireGuard reaches the host at its endpoint, with its preshared key, for exactly the
   * networks it serves, each once.
   */
  ghost predicate RunsAs(k: Kernel, h: Host, psk: Key -> Key) {
    && h.pk in k.at
    && k.at[h.pk].psk == psk(h.c)
    && k.at[h.pk].endpoint.Some? && IsEndpoint(h.ips, k.at[h.pk].endpoint.value.0)
    && k.at[h.pk].endpoint.value.1 == h.port
    && NoRepeats(k.at[h.pk].allowed) && forall n :: n in k.at[h.pk].allowed <==> Serves(h, n)
  }

  /** WireGuard has the enabled hosts, as they are to run, and nobody else. */
  ghost predicate AllRun(k: Kernel, hosts: seq<Host>, psk: Key -> Key) {
    && (forall h | h in hosts && h.enabled :: RunsAs(k, h, psk))
    && forall pk | pk in k.at :: exists h | h in hosts :: h.enabled && h.pk == pk
  }

  /**
   * The vula table, 666, routes exactly where enabled hosts are, and the main table, 254, has the four
   * halves of everything exactly if an enabled host is the gateway.
   */
  ghost predicate AllRouted(routes: set<Route>, hosts: seq<Host>) {
    && (forall r | r in routes && r.table == 666 :: r.dst.Some?)
    && (forall d :: Has(routes, 666, d) <==> exists h | h in hosts :: h.enabled && RoutedAt(h, d))
    && (forall d | d in GATEWAY_ROUTES ::
          Has(routes, 254, d) <==> exists h | h in hosts :: h.enabled && h.gateway)
  }

  ghost predicate RoutesSynced(routes: set<Route>, hosts: seq<Host>) {
    && !Undeletable(routes)
    && (forall d :: Has(routes, VULA_TABLE, d) <==> d in Expected(hosts))
    && (forall d | d in GATEWAY_ROUTES :: Has(routes, MAIN_TABLE, d) <==> HasGateway(hosts))
  }

  ghost predicate Synced(k: Kernel, routes: set<Route>, hosts: seq<Host>, psk: Key -> Key) {
    WgSynced(k, hosts, psk) && RoutesSynced(routes, hosts)
  }

  // ----- what the goal means -----

  lemma AllowedMembers(h: Host, n: Net)
    ensures n in Allowed(h) <==> Serves(h, n)
  {
    RoutesMembers(h, n);
  }

  lemma AgreedEndpoint(k: Kernel, h: Host, psk: Key -> Key)
    requires Agreed(k, WgConfig(h, psk).at)
    ensures h.pk in k.at && k.at[h.pk].endpoint == Some((EndpointAddress(h), h.port))
  {
    var m, r := WgConfig(h, psk).at, Reported(h.pk, k.at[h.pk]);
    assert r[EndpointAddr] == m[EndpointAddr] && r[EndpointPort] == m[EndpointPort];
  }

  lemma AgreedPsk(k: Kernel, h: Host, psk: Key -> Key)
    requires Agreed(k, WgConfig(h, psk).at)
    ensures h.pk in k.at && k.at[h.pk].psk == psk(h.c)
  {
    assert Reported(h.pk, k.at[h.pk])[PresharedKey] == WgConfig(h, psk).at[PresharedKey];
  }

  lemma AgreedAllowed(k: Kernel, g: Host, psk: Key -> Key)
    requires Agreed(k, WgConfig(g, psk).at)
    ensures g.pk in k.at && k.at[g.pk].allowed == Allowed(g)
  {
    assert Reported(g.pk, k.at[g.pk])[AllowedIps] == WgConfig(g, psk).at[AllowedIps];
  }

  lemma AgreedRuns(k: Kernel, h: Host, psk: Key -> Key)
    requires KernelOk(k) && Agreed(k, WgConfig(h, psk).at)
    ensures RunsAs(k, h, psk)
  {
    AgreedEndpoint(k, h, psk);
    AgreedPsk(k, h, psk);
    AgreedAllowed(k, h, psk);
    EndpointIsBest(h);
    forall n ensures n in Allowed(h) <==> Serves(h, n) {
      AllowedMembers(h, n);
    }
  }

  lemma SyncedRun(k: Kernel, hosts: seq<Host>, psk: Key -> Key, h: Host)
    requires KernelOk(k) && WgSynced(k, hosts, psk) && h in hosts && h.enabled
    ensures RunsAs(k, h, psk)
  {
    var j :| 0 <= j < |hosts| && hosts[j] == h;
    AgreedRuns(k, hosts[j], psk);
  }

  lemma SyncedRuns(k: Kernel, hosts: seq<Host>, psk: Key -> Key)
    requires KernelOk(k) && WgSynced(k, hosts, psk)
    ensures AllRun(k, hosts, psk)
  {
    forall h | h in hosts && h.enabled ensures RunsAs(k, h, psk) {
      SyncedRun(k, hosts, psk, h);
    }
    forall pk | pk in k.at ensures exists h | h in hosts :: h.enabled && h.pk == pk {
      assert pk in EnabledKeys(hosts);
    }
  }

  lemma ExpectedMembers(hosts: seq<Host>, d: Net)
    ensures d in Expected(hosts) <==> exists h | h in hosts :: h.enabled && RoutedAt(h, d)
  {
    forall h | h in hosts ensures d in Routes(h) <==> RoutedAt(h, d) {
      RoutesMembers(h, d);
    }
  }

  lemma SyncedRouted(routes: set<Route>, hosts: seq<Host>)
    requires RoutesSynced(routes, hosts)
    ensures AllRouted(routes, hosts)
  {
    forall d ensures d in Expected(hosts) <==> exists h | h in hosts :: h.enabled && RoutedAt(h, d) {
      ExpectedMembers(hosts, d);
    }
    forall r | r in routes && r.table == VULA_TABLE ensures r.dst.Some? {
      assert !(r.table == VULA_TABLE && r.dst.None?);
    }
  }

  // ----- progress of one pass -----

  function CachedKeys(peers: seq<(Key, WgPeer)>): set<Key> {
    set p | p in peers :: p.0
  }

  /** After the first i peers: theirs is in place, and every stranger in the kernel is in the cached list. */
  ghost predicate WgProgress(k: Kernel, cached: seq<(Key, WgPeer)>, hosts: seq<Host>, psk: Key -> Key, i: nat) {
    && KernelOk(k)
    && InPlace(k, hosts, psk, i)
    && k.at.Keys <= EnabledKeys(hosts) + CachedKeys(cached)
  }

  ghost predicate RoutesProgress(routes: set<Route>, hosts: seq<Host>, i: nat) {
    && (forall j, d | 0 <= j < i <= |hosts| && hosts[j].enabled && d in Routes(hosts[j]) :: Has(routes, VULA_TABLE, d))
    && (forall j, d | 0 <= j < i <= |hosts| && hosts[j].enabled && hosts[j].gateway && d in GATEWAY_ROUTES ::
          Has(routes, MAIN_TABLE, d))
  }

  lemma SnapshotKeys(k: Kernel)
    ensures CachedKeys(Snapshot(k)) == k.at.Keys
  {
    var s := Snapshot(k);
    forall pk | pk in k.at ensures pk in CachedKeys(s) {
      var i :| 0 <= i < |k.order| && k.order[i] == pk;
      assert s[i] in s && s[i].0 == pk;
    }
    forall p | p in s ensures p.0 in k.at {
      var i :| 0 <= i < |s| && s[i] == p;
      assert k.order[i] in k.order;
    }
  }

  lemma GivenElsewhere(k: Kernel, m: map<Name, Value>, pk: Key)
    requires Proper(m) && !Removes(m) && AllowedIps in m && pk in k.at && pk != m[PublicKey].key
    requires forall n | n in k.at[pk].allowed :: n !in m[AllowedIps].nets
    ensures pk in Wanted(k, m).at && Wanted(k, m).at[pk] == k.at[pk]
  {
    ListedNoRepeats(m[AllowedIps].nets);
    LosingNothing(k.at[pk].allowed, Listed(m[AllowedIps].nets));
  }

  lemma SameAgrees(k: Kernel, l: Kernel, g: Host, psk: Key -> Key)
    requires Agreed(k, WgConfig(g, psk).at) && g.pk in k.at && g.pk in l.at && l.at[g.pk] == k.at[g.pk]
    ensures Agreed(l, WgConfig(g, psk).at)
  {
  }

  /** Configuring one peer leaves another alone when they want nothing in common. */
  lemma ConfiguringKeeps(k: Kernel, g: Host, h: Host, psk: Key -> Key)
    requires Agreed(k, WgConfig(g, psk).at) && g.pk != h.pk && Apart(g, h)
    ensures Agreed(Wanted(k, WgConfig(h, psk).at), WgConfig(g, psk).at)
  {
    AgreedAllowed(k, g, psk);
    GivenElsewhere(k, WgConfig(h, psk).at, g.pk);
    SameAgrees(k, Wanted(k, WgConfig(h, psk).at), g, psk);
  }

  lemma ConfigMeetable(k: Kernel, h: Host, psk: Key -> Key)
    requires NoRepeats(Allowed(h)) && psk(h.c) != NO_PSK
    ensures Meetable(WgConfig(h, psk).at) && EndpointWhole(Known(k, h.pk), WgConfig(h, psk).at)
  {
  }

  lemma ConfiguringAgrees(k: Kernel, h: Host, psk: Key -> Key)
    requires KernelOk(k) && NoRepeats(Allowed(h)) && psk(h.c) != NO_PSK
    ensures Agreed(Wanted(k, WgConfig(h, psk).at), WgConfig(h, psk).at)
  {
    ConfigMeetable(k, h, psk);
    AppliedAgrees(k, WgConfig(h, psk).at);
  }

  lemma WantedKeys(k: Kernel, h: Host, psk: Key -> Key)
    ensures Wanted(k, WgConfig(h, psk).at).at.Keys == k.at.Keys + {h.pk}
  {
  }

  lemma WantedOk(k: Kernel, m: map<Name, Value>)
    requires KernelOk(k) && Proper(m) && !Removes(m)
    ensures KernelOk(Wanted(k, m))
  {
    var p := Overlay(Known(k, m[PublicKey].key), m);
    if AllowedIps in m {
      ListedNoRepeats(m[AllowedIps].nets);
    }
    GiveKeepsOk(k, m[PublicKey].key, p);
  }

  lemma StillAgreed(k: Kernel, hosts: seq<Host>, psk: Key -> Key, i: nat, j: nat)
    requires Separate(hosts, psk) && j <= i < |hosts| && hosts[i].enabled && hosts[j].enabled
    requires KernelOk(k) && (j < i ==> Agreed(k, WgConfig(hosts[j], psk).at))
    ensures Agreed(Wanted(k, WgConfig(hosts[i], psk).at), WgConfig(hosts[j], psk).at)
  {
    if j < i {
      ConfiguringKeeps(k, hosts[j], hosts[i], psk);
    } else {
      ConfiguringAgrees(k, hosts[i], psk);
    }
  }

  lemma NewKeysCached(k: Kernel, hosts: seq<Host>, psk: Key -> Key, h: Host)
    requires h in hosts && h.enabled
    ensures Wanted(k, WgConfig(h, psk).at).at.Keys <= EnabledKeys(hosts) + CachedKeys(Snapshot(k))
  {
    WantedKeys(k, h, psk);
    SnapshotKeys(k);
    assert h.pk in EnabledKeys(hosts);
  }

  lemma WgStep(k: Kernel, cached: seq<(Key, WgPeer)>, hosts: seq<Host>, psk: Key -> Key, i: nat, after: Kernel)
    requires Separate(hosts, psk) && i < |hosts| && hosts[i].enabled
    requires WgProgress(k, cached, hosts, psk, i)
    requires after == Wanted(k, WgConfig(hosts[i], psk).at)
    ensures WgProgress(after, Snapshot(k), hosts, psk, i + 1)
  {
    forall j | 0 <= j < i + 1 && hosts[j].enabled ensures Agreed(after, WgConfig(hosts[j], psk).at) {
      StillAgreed(k, hosts, psk, i, j);
    }
    WantedOk(k, WgConfig(hosts[i], psk).at);
    NewKeysCached(k, hosts, psk, hosts[i]);
  }

  // ----- removing peers -----

  function Removal(pk: Key): (r: Config)
    ensures Proper(r.at) && Removes(r.at) && r.at.Keys == {PublicKey, Remove} && r.at[PublicKey].key == pk
  {
    Entries([PublicKey, Remove], map[PublicKey := KeyIs(pk), Remove := Flag(true)])
  }

  /** Only the strangers among these keys are gone. */
  ghost predicate Purged(before: Kernel, after: Kernel, enabled: set<Key>, gone: set<Key>) {
    && after.at.Keys == before.at.Keys - (gone - enabled)
    && forall pk | pk in after.at :: after.at[pk] == before.at[pk]
  }

  lemma CachedUpToNext(list: seq<(Key, WgPeer)>, i: nat)
    requires i < |list|
    ensures CachedKeys(list[..i + 1]) == CachedKeys(list[..i]) + {list[i].0}
    ensures list[i].0 in CachedKeys(list)
  {
    assert list[..i + 1] == list[..i] + [list[i]];
    assert list[i] in list;
  }

  lemma PurgeOne(before: Kernel, k: Kernel, enabled: set<Key>, gone: set<Key>, pk: Key)
    requires Purged(before, k, enabled, gone) && KernelOk(k)
    ensures pk in enabled ==> Purged(before, k, enabled, gone + {pk})
    ensures pk !in enabled ==> Purged(before, Wanted(k, Removal(pk).at), enabled, gone + {pk})
    ensures KernelOk(Wanted(k, Removal(pk).at))
  {
  }

  lemma PurgedProgress(before: Kernel, after: Kernel, cached: seq<(Key, WgPeer)>, later: seq<(Key, WgPeer)>,
                       hosts: seq<Host>, psk: Key -> Key, i: nat)
    requires i <= |hosts| && WgProgress(before, cached, hosts, psk, i) && KernelOk(after)
    requires Purged(before, after, EnabledKeys(hosts), CachedKeys(cached))
    ensures WgProgress(after, later, hosts, psk, i) && after.at.Keys <= EnabledKeys(hosts)
  {
    forall j | 0 <= j < i && hosts[j].enabled ensures Agreed(after, WgConfig(hosts[j], psk).at) {
      assert hosts[j].pk in EnabledKeys(hosts);
      assert Agreed(before, WgConfig(hosts[j], psk).at);
    }
  }

  // ----- routes, step by step -----

  /** Nothing that is needed so far is pruned. */
  lemma PrunedProgress(routes: set<Route>, hosts: seq<Host>, i: nat)
    requires i <= |hosts| && RoutesProgress(routes, hosts, i)
    ensures RoutesProgress(Pruned(routes, Expected(hosts), HasGateway(hosts)), hosts, i)
  {
    var after := Pruned(routes, Expected(hosts), HasGateway(hosts));
    forall j, d | 0 <= j < i && hosts[j].enabled && d in Routes(hosts[j]) ensures Has(after, VULA_TABLE, d) {
      assert hosts[j] in hosts && d in Expected(hosts) && Has(routes, VULA_TABLE, d);
      var r :| r in routes && r.table == VULA_TABLE && r.dst == Some(d);
      assert r in after;
    }
    forall j, d | 0 <= j < i && hosts[j].enabled && hosts[j].gateway && d in GATEWAY_ROUTES
      ensures Has(after, MAIN_TABLE, d) {
      assert hosts[j] in hosts && HasGateway(hosts) && Has(routes, MAIN_TABLE, d);
      var r :| r in routes && r.table == MAIN_TABLE && r.dst == Some(d);
      assert r in after;
    }
  }

  /** Once everybody is configured and the unexpected is gone, the routes are as they should be. */
  lemma PrunedIsSynced(routes: set<Route>, hosts: seq<Host>)
    requires RoutesProgress(routes, hosts, |hosts|)
    ensures RoutesSynced(Pruned(routes, Expected(hosts), HasGateway(hosts)), hosts)
  {
    var after := Pruned(routes, Expected(hosts), HasGateway(hosts));
    PrunedProgress(routes, hosts, |hosts|);
    forall d ensures Has(after, VULA_TABLE, d) <==> d in Expected(hosts) {
      if d in Expected(hosts) {
        var h :| h in hosts && h.enabled && d in Routes(h);
        var j :| 0 <= j < |hosts| && hosts[j] == h;
        assert Has(after, VULA_TABLE, d);
      }
    }
    forall d | d in GATEWAY_ROUTES ensures Has(after, MAIN_TABLE, d) <==> HasGateway(hosts) {
      if HasGateway(hosts) {
        var h :| h in hosts && h.enabled && h.gateway;
        var j :| 0 <= j < |hosts| && hosts[j] == h;
        assert Has(after, MAIN_TABLE, d);
      }
    }
  }

  lemma DeletableAll(routes: set<Route>, r: Route)
    requires !Undeletable(routes) && r in routes && r.table == VULA_TABLE
    ensures r.dst.Some?
  {
  }

  /** Where routes are as they should be, there is nothing unexpected. */
  lemma SyncedIsPruned(routes: set<Route>, hosts: seq<Host>)
    requires RoutesSynced(routes, hosts)
    ensures Pruned(routes, Expected(hosts), HasGateway(hosts)) == routes
  {
    forall r | r in routes ensures r in Pruned(routes, Expected(hosts), HasGateway(hosts)) {
      if r.table == VULA_TABLE {
        DeletableAll(routes, r);
        assert Has(routes, VULA_TABLE, r.dst.value);
      }
      if r.table == MAIN_TABLE && r.dst.Some? {
        assert Has(routes, MAIN_TABLE, r.dst.value);
      }
    }
  }

  lemma SyncedHas(routes: set<Route>, hosts: seq<Host>, h: Host)
    requires RoutesSynced(routes, hosts) && h in hosts && h.enabled
    ensures forall d | d in Routes(h) :: Has(routes, VULA_TABLE, d)
    ensures h.gateway ==> forall d | d in GATEWAY_ROUTES :: Has(routes, MAIN_TABLE, d)
  {
    forall d | d in Routes(h) ensures Has(routes, VULA_TABLE, d) {
      assert d in Expected(hosts);
    }
  }

  lemma PrunedIsKept(routes: set<Route>, expected: set<Net>, gateway: bool)
    ensures Pruned(routes, expected, gateway) <= Kept(routes, expected) <= routes
  {
  }

  lemma ProgressGrows(routes: set<Route>, later: set<Route>, hosts: seq<Host>, i: nat)
    requires routes <= later && RoutesProgress(routes, hosts, i)
    ensures RoutesProgress(later, hosts, i)
  {
    HasGrows(routes, later);
  }

  // ----- what the removals rest on -----

  predicate GatewayRoute(r: Route) {
    r.table == MAIN_TABLE && r.dst.Some? && r.dst.value in GATEWAY_ROUTES
  }

  function Dropped(dump: seq<Route>, expected: set<Net>): set<Route> {
    set r | r in dump && r.table == VULA_TABLE && r.dst.Some? && r.dst.value !in expected
  }

  lemma DroppedAll(routes: set<Route>, dump: seq<Route>, expected: set<Net>)
    requires forall x :: x in dump <==> x in routes
    ensures routes - Dropped(dump, expected) == Kept(routes, expected)
  {
  }

  lemma PrunedInTwo(routes: set<Route>, expected: set<Net>, gateway: bool)
    requires !Undeletable(routes)
    ensures Pruned(routes, expected, gateway) ==
              if gateway then Kept(routes, expected) else set r | r in Kept(routes, expected) && !GatewayRoute(r)
  {
    forall r | r in routes && r.table == VULA_TABLE ensures r.dst.Some? {
      assert !(r.table == VULA_TABLE && r.dst.None?);
    }
  }

  // ----- what the pass rests on -----

  function WithHost(routes: set<Route>, h: Host): set<Route> {
    var r1 := WithRoutes(routes, Routes(h), VULA_TABLE);
    if h.gateway then WithRoutes(r1, GATEWAY_ROUTES, MAIN_TABLE) else r1
  }

  ghost predicate HasAll(routes: set<Route>, h: Host) {
    && (forall d | d in Routes(h) :: Has(routes, VULA_TABLE, d))
    && (h.gateway ==> forall d | d in GATEWAY_ROUTES :: Has(routes, MAIN_TABLE, d))
  }

  /** Routes that are not the program's: other tables, other destinations, and default routes. */
  predicate Foreign(r: Route) {
    r.dst.None? || (r.table != VULA_TABLE && !GatewayRoute(r))
  }

  ghost predicate SameElsewhere(before: set<Route>, after: set<Route>) {
    forall r | Foreign(r) :: r in before <==> r in after
  }

  lemma UndeletableElsewhere(before: set<Route>, after: set<Route>)
    requires SameElsewhere(before, after)
    ensures Undeletable(before) <==> Undeletable(after)
  {
    if r :| r in before && r.table == VULA_TABLE && r.dst.None? {
      assert Foreign(r);
    }
    if r :| r in after && r.table == VULA_TABLE && r.dst.None? {
      assert Foreign(r);
    }
  }

  lemma RemovedElsewhere(before: set<Route>, after: set<Route>, hosts: seq<Host>)
    requires
      || (Kept(before, Expected(hosts)) <= after <= before)
      || (!Undeletable(before) && after == Pruned(before, Expected(hosts), HasGateway(hosts)))
    ensures SameElsewhere(before, after)
  {
    forall r | Foreign(r) ensures r in before <==> r in after {
      if r in before && r.dst.None? && !Undeletable(before) {
        assert r.table != VULA_TABLE;
      }
    }
  }

  lemma WithHostElsewhere(routes: set<Route>, h: Host)
    ensures routes <= WithHost(routes, h) && SameElsewhere(routes, WithHost(routes, h))
    ensures HasAll(WithHost(routes, h), h)
  {
    var r1 := WithRoutes(routes, Routes(h), VULA_TABLE);
    WithRoutesExactly(routes, Routes(h), VULA_TABLE);
    if h.gateway {
      WithRoutesExactly(r1, GATEWAY_ROUTES, MAIN_TABLE);
      HasGrows(r1, WithHost(routes, h));
    }
  }

  lemma HostRoutesProgress(routes: set<Route>, hosts: seq<Host>, i: nat)
    requires i < |hosts| && hosts[i].enabled && RoutesProgress(routes, hosts, i)
    ensures RoutesProgress(WithHost(routes, hosts[i]), hosts, i + 1)
    ensures SameElsewhere(routes, WithHost(routes, hosts[i]))
  {
    WithHostElsewhere(routes, hosts[i]);
    ProgressGrows(routes, WithHost(routes, hosts[i]), hosts, i);
  }

  lemma HostRoutesQuiet(routes: set<Route>, hosts: seq<Host>, i: nat)
    requires i < |hosts| && hosts[i].enabled
    ensures RoutesSynced(routes, hosts) ==> HasAll(routes, hosts[i]) && WithHost(routes, hosts[i]) == routes
  {
    if RoutesSynced(routes, hosts) {
      SyncedHas(routes, hosts, hosts[i]);
      WithRoutesSame(routes, Routes(hosts[i]), VULA_TABLE);
      if hosts[i].gateway {
        WithRoutesSame(routes, GATEWAY_ROUTES, MAIN_TABLE);
      }
    }
  }

  /** A peer's configuration names both halves of its endpoint. */
  lemma ConfigIsWhole(k: Kernel, h: Host, psk: Key -> Key)
    ensures !WireGuard.Report(k, WgConfig(h, psk)).KeyError?
  {
  }

  /** Where nothing is said nothing was to be changed. */
  lemma QuietIsAgreed(k: Kernel, config: Config)
    requires KernelOk(k) && Proper(config.at) && !Removes(config.at)
    ensures WireGuard.Report(k, config) == Done([]) ==> Wanted(k, config.at) == k
  {
    if WireGuard.Report(k, config) == Done([]) {
      AgreedIsWanted(k, config.at);
    }
  }

  /** Peers and routes may be missing, the others are as they were. */
  ghost predicate OnlyLost(before: Kernel, after: Kernel, r0: set<Route>, r1: set<Route>) {
    && after.at.Keys <= before.at.Keys && (forall pk | pk in after.at :: after.at[pk] == before.at[pk])
    && r1 <= r0
  }

  /** The host ran as asked for and was routed to, and everything through it if it is the gateway. */
  ghost predicate WasServed(k: Kernel, routes: set<Route>, h: Host, psk: Key -> Key) {
    && RunsAs(k, h, psk)
    && (forall d | RoutedAt(h, d) :: Has(routes, VULA_TABLE, d))
    && (h.gateway ==> forall d | d in GATEWAY_ROUTES :: Has(routes, MAIN_TABLE, d))
  }

  lemma ServedBefore(before: Kernel, after: Kernel, r0: set<Route>, r1: set<Route>, hosts: seq<Host>, psk: Key -> Key,
                     h: Host)
    requires OnlyLost(before, after, r0, r1) && AllRun(after, hosts, psk) && AllRouted(r1, hosts)
    requires h in hosts && h.enabled
    ensures WasServed(before, r0, h, psk)
  {
    HasGrows(r1, r0);
    assert RunsAs(after, h, psk);
    forall d | RoutedAt(h, d) ensures Has(r0, VULA_TABLE, d) {
      assert Has(r1, VULA_TABLE, d);
    }
    forall d | h.gateway && d in GATEWAY_ROUTES ensures Has(r0, MAIN_TABLE, d) {
      assert Has(r1, MAIN_TABLE, d);
    }
  }

  lemma EnabledIsQuiet(k: Kernel, hosts: seq<Host>, i: nat, psk: Key -> Key)
    requires i < |hosts| && hosts[i].enabled && KernelOk(k)
    ensures WgSynced(k, hosts, psk) ==>
              && Wanted(k, WgConfig(hosts[i], psk).at) == k
              && WireGuard.Report(k, WgConfig(hosts[i], psk)) == Done([])
              && CachedKeys(Snapshot(k)) <= EnabledKeys(hosts)
  {
    if WgSynced(k, hosts, psk) {
      AgreedIsWanted(k, WgConfig(hosts[i], psk).at);
      SnapshotKeys(k);
    }
  }

  lemma DisabledProgress(before: Kernel, after: Kernel, cached: seq<(Key, WgPeer)>, later: seq<(Key, WgPeer)>,
                         r0: set<Route>, r1: set<Route>, hosts: seq<Host>, psk: Key -> Key, i: nat)
    requires i < |hosts| && !hosts[i].enabled
    requires WgProgress(before, cached, hosts, psk, i) && RoutesProgress(r0, hosts, i)
    requires KernelOk(after) && Purged(before, after, EnabledKeys(hosts), CachedKeys(cached))
    requires r1 == Pruned(r0, Expected(hosts), HasGateway(hosts)) || Kept(r0, Expected(hosts)) <= r1
    ensures WgProgress(after, later, hosts, psk, i + 1) && RoutesProgress(r1, hosts, i + 1)
  {
    PurgedProgress(before, after, cached, later, hosts, psk, i);
    PrunedProgress(r0, hosts, i);
    PrunedIsKept(r0, Expected(hosts), HasGateway(hosts));
    ProgressGrows(Pruned(r0, Expected(hosts), HasGateway(hosts)), r1, hosts, i);
  }

  lemma NothingAndNothing(xs: seq<Report>, ys: seq<Report>)
    ensures xs == [] && ys == [] ==> Lines(xs + ys) == Lines([])
  {
    if xs == [] && ys == [] {
      assert xs + ys == [];
    }
  }

  lemma AgreedIsPresent(k: Kernel, h: Host, psk: Key -> Key)
    requires Agreed(k, WgConfig(h, psk).at)
    ensures h.pk in k.at
  {
  }

  lemma EnabledArePresent(k: Kernel, hosts: seq<Host>, psk: Key -> Key)
    requires InPlace(k, hosts, psk, |hosts|)
    ensures EnabledKeys(hosts) <= k.at.Keys
  {
    forall pk | pk in EnabledKeys(hosts) ensures pk in k.at {
      var h :| h in hosts && h.enabled && h.pk == pk;
      var j :| 0 <= j < |hosts| && hosts[j] == h;
      AgreedIsPresent(k, hosts[j], psk);
    }
  }

  lemma PassIsSynced(before: Kernel, after: Kernel, cached: seq<(Key, WgPeer)>, later: seq<(Key, WgPeer)>,
                     hosts: seq<Host>, psk: Key -> Key)
    requires WgProgress(before, cached, hosts, psk, |hosts|)
    requires KernelOk(after) && Purged(before, after, EnabledKeys(hosts), CachedKeys(cached))
    ensures WgSynced(after, hosts, psk)
  {
    PurgedProgress(before, after, cached, later, hosts, psk, |hosts|);
    EnabledArePresent(after, hosts, psk);
  }

  ghost predicate AllServed(k: Kernel, routes: set<Route>, hosts: seq<Host>, psk: Key -> Key) {
    forall h | h in hosts && h.enabled :: WasServed(k, routes, h, psk)
  }

  /** What a pass comes to, said of the kernel's entries; and, where nothing is reported, of those before it. */
  lemma PassMeans(before: Kernel, after: Kernel, r0: set<Route>, r1: set<Route>, hosts: seq<Host>, psk: Key -> Key,
                  finished: bool, quiet: bool)
    requires KernelOk(after) && WgSynced(after, hosts, psk)
    requires (finished ==> RoutesSynced(r1, hosts)) && (quiet ==> finished && OnlyLost(before, after, r0, r1))
    ensures AllRun(after, hosts, psk)
    ensures finished ==> AllRouted(r1, hosts)
    ensures quiet ==> AllServed(before, r0, hosts, psk)
  {
    SyncedRuns(after, hosts, psk);
    if finished {
      SyncedRouted(r1, hosts);
    }
    if quiet {
      forall h | h in hosts && h.enabled ensures WasServed(before, r0, h, psk) {
        ServedBefore(before, after, r0, r1, hosts, psk, h);
      }
    }
  }

  // ----- the system object -----

  class Sys {
    const wgi: Interface
    var routes: set<Route>

    constructor (wgi: Interface, routes: set<Route>)
      ensures this.wgi == wgi && this.routes == routes
    {
      this.wgi := wgi;
      this.routes := routes;
    }

    /** A dump of the routes, in the kernel's order. */
    method GetRoutes() returns (dump: seq<Route>)
      ensures NoRepeats(dump) && forall r :: r in dump <==> r in routes
    {
      dump := [];
      var todo := routes;
      while todo != {}
        invariant todo <= routes && NoRepeats(dump)
        invariant forall r :: r in dump <==> r in routes && r !in todo
        decreases todo
      {
        var r :| r in todo;
        NoRepeatsSnoc(dump, r);
        dump := dump + [r];
        todo := todo - {r};
      }
    }

    method SyncRoutes(dests: seq<Net>, table: int) returns (lines: seq<Report>)
      modifies this`routes
      ensures routes == WithRoutes(old(routes), dests, table)
      ensures lines == [] <==> forall d | d in dests :: Has(old(routes), table, d)
      ensures lines == [] ==> routes == old(routes)
      ensures forall l | l in lines :: l.RouteAdded? && l.table == table && Route(table, Some(l.dst), 253) in routes
      ensures forall l | l in lines :: Route(table, Some(l.dst), 253) !in old(routes)
    {
      lines := [];
      ghost var before := routes;
      for i := 0 to |dests|
        invariant routes == WithRoutes(before, dests[..i], table)
        invariant forall l | l in lines :: l.RouteAdded? && l.table == table && Route(table, Some(l.dst), 253) in routes
        invariant forall l | l in lines :: Route(table, Some(l.dst), 253) !in before
        invariant lines == [] <==> forall d | d in dests[..i] :: Has(before, table, d)
        invariant lines == [] ==> routes == before
      {
        assert dests[..i + 1][..i] == dests[..i] && dests[..i + 1] == dests[..i] + [dests[i]];
        WithRoutesExactly(before, dests[..i], table);
        HasGrows(before, routes);
        if !Has(routes, table, dests[i]) {
          assert Route(table, Some(dests[i]), SCOPE_LINK) !in routes;
          routes := routes + {Route(table, Some(dests[i]), SCOPE_LINK)};
          lines := lines + [RouteAdded(dests[i], table)];
        }
      }
      assert dests[..|dests|] == dests;
    }

    method RemoveStranger(pk: Key) returns (lines: seq<Report>)
      requires KernelOk(wgi.kernel)
      modifies wgi
      ensures wgi.kernel == Wanted(old(wgi.kernel), Removal(pk).at) && KernelOk(wgi.kernel)
      ensures |lines| == 2 && lines[0].WgLines? && lines[1] == WgRemoved(pk)
    {
      var r := wgi.ApplyPeerConfig(Removal(pk), false);
      lines := [WgLines(if r.Done? then r.lines else []), WgRemoved(pk)];
    }

    /** Removes the cached peers that are not enabled; the cache is refreshed while this goes on. */
    method DropStrangers(enabled: set<Key>) returns (lines: seq<Report>)
      requires KernelOk(wgi.kernel)
      modifies wgi
      ensures Purged(old(wgi.kernel), wgi.kernel, enabled, CachedKeys(old(wgi.peers))) && KernelOk(wgi.kernel)
      ensures CachedKeys(old(wgi.peers)) <= enabled ==> lines == []
      ensures lines == [] ==> wgi.kernel == old(wgi.kernel) && wgi.peers == old(wgi.peers)
    {
      lines := [];
      var list := wgi.peers;
      ghost var before := wgi.kernel;
      for i := 0 to |list|
        invariant KernelOk(wgi.kernel) && Purged(before, wgi.kernel, enabled, CachedKeys(list[..i]))
        invariant CachedKeys(list) <= enabled ==> lines == []
        invariant lines == [] ==> wgi.kernel == before && wgi.peers == list
      {
        var pk := list[i].0;
        CachedUpToNext(list, i);
        PurgeOne(before, wgi.kernel, enabled, CachedKeys(list[..i]), pk);
        if pk !in enabled {
          var gone := RemoveStranger(pk);
          lines := lines + gone;
        }
      }
      assert list[..|list|] == list;
    }

    /** Removes unexpected routes of the vula table; a route without a destination raises. */
    method DropStaleRoutes(dump: seq<Route>, expected: set<Net>) returns (r: Outcome)
      requires NoRepeats(dump) && forall x :: x in dump <==> x in routes
      modifies this`routes
      ensures r.Failed? <==> Undeletable(old(routes))
      ensures r.Lines? ==> routes == Kept(old(routes), expected)
      ensures Kept(old(routes), expected) <= routes <= old(routes)
      ensures r.Lines? ==> (r.lines == [] <==> routes == old(routes))
      ensures forall l | l in r.lines :: l.RouteDeleted? && l.table == 666 && l.dst !in expected
    {
      var lines: seq<Report> := [];
      ghost var before := routes;
      for i := 0 to |dump|
        invariant routes == before - Dropped(dump[..i], expected)
        invariant forall j | 0 <= j < i :: dump[j].table == VULA_TABLE ==> dump[j].dst.Some?
        invariant lines == [] <==> Dropped(dump[..i], expected) == {}
        invariant forall l | l in lines :: l.RouteDeleted? && l.table == 666 && l.dst !in expected
      {
        assert dump[..i + 1] == dump[..i] + [dump[i]];
        if dump[i].table == VULA_TABLE {
          if dump[i].dst.None? {
            assert dump[i] in before;
            return Failed(lines);
          }
          if dump[i].dst.value !in expected {
            assert dump[i] in Dropped(dump[..i + 1], expected);
            assert Dropped(dump[..i + 1], expected) == Dropped(dump[..i], expected) + {dump[i]};
            routes := routes - {dump[i]};
            lines := lines + [RouteDeleted(dump[i].dst.value, VULA_TABLE)];
          } else {
            assert Dropped(dump[..i + 1], expected) == Dropped(dump[..i], expected);
          }
        } else {
          assert Dropped(dump[..i + 1], expected) == Dropped(dump[..i], expected);
        }
      }
      assert dump[..|dump|] == dump;
      DroppedAll(before, dump, expected);
      r := Lines(lines);
    }

    /** Removes the half-default routes of the main table. */
    method DropGatewayRoutes(dump: seq<Route>) returns (lines: seq<Report>)
      requires forall x | x in routes && x.table == MAIN_TABLE :: x in dump
      modifies this`routes
      ensures routes == set x | x in old(routes) && !GatewayRoute(x)
      ensures (forall x | x in dump :: !GatewayRoute(x)) ==> lines == []
      ensures lines == [] ==> routes == old(routes)
      ensures forall l | l in lines :: l.RouteDeleted? && l.table == 254 && l.dst in GATEWAY_ROUTES
    {
      lines := [];
      ghost var before := routes;
      for i := 0 to |dump|
        invariant forall x :: x in routes <==> x in before && !(GatewayRoute(x) && x in dump[..i])
        invariant (forall x | x in dump :: !GatewayRoute(x)) ==> lines == []
        invariant lines == [] ==> routes == before
        invariant forall l | l in lines :: l.RouteDeleted? && l.table == 254 && l.dst in GATEWAY_ROUTES
      {
        assert dump[..i + 1] == dump[..i] + [dump[i]];
        if GatewayRoute(dump[i]) {
          routes := routes - {dump[i]};
          lines := lines + [RouteDeleted(dump[i].dst.value, MAIN_TABLE)];
        }
      }
      assert dump[..|dump|] == dump;
    }

    /** Removes peers and routes nobody enabled asks for. */
    method RemoveUnknown(hosts: seq<Host>) returns (r: Outcome)
      requires KernelOk(wgi.kernel)
      modifies this`routes, wgi
      ensures Purged(old(wgi.kernel), wgi.kernel, EnabledKeys(hosts), CachedKeys(old(wgi.peers)))
              && KernelOk(wgi.kernel)
      ensures r.Failed? <==> Undeletable(old(routes))
      ensures r.Lines? ==> routes == Pruned(old(routes), Expected(hosts), HasGateway(hosts))
      ensures r.Failed? ==> Kept(old(routes), Expected(hosts)) <= routes <= old(routes)
      ensures r.Lines? && routes == old(routes) && CachedKeys(old(wgi.peers)) <= EnabledKeys(hosts) ==>
                r.lines == []
      ensures r == Lines([]) ==>
                wgi.kernel == old(wgi.kernel) && wgi.peers == old(wgi.peers) && routes == old(routes)
    {
      var strangers := DropStrangers(EnabledKeys(hosts));
      var dump := GetRoutes();
      ghost var before := routes;
      var stale := DropStaleRoutes(dump, Expected(hosts));
      if stale.Failed? {
        return Failed(strangers + stale.lines);
      }
      var gw: seq<Report> := [];
      if !HasGateway(hosts) {
        gw := DropGatewayRoutes(dump);
      }
      PrunedInTwo(before, Expected(hosts), HasGateway(hosts));
      r := Lines(strangers + stale.lines + gw);
    }

    /** An enabled peer's configuration and routes; a disabled one's are left to the removal of everything unknown. */
    method SyncPeer(hosts: seq<Host>, i: nat, psk: Key -> Key) returns (r: Outcome)
      requires Separate(hosts, psk) && i < |hosts|
      requires WgProgress(wgi.kernel, wgi.peers, hosts, psk, i) && RoutesProgress(routes, hosts, i)
      modifies this`routes, wgi
      ensures WgProgress(wgi.kernel, wgi.peers, hosts, psk, i + 1) && RoutesProgress(routes, hosts, i + 1)
      ensures SameElsewhere(old(routes), routes)
      ensures Synced(old(wgi.kernel), old(routes), hosts, psk) && CachedKeys(old(wgi.peers)) <= EnabledKeys(hosts) ==>
                && r == Lines([]) && wgi.kernel == old(wgi.kernel) && routes == old(routes)
                && CachedKeys(wgi.peers) <= EnabledKeys(hosts)
      ensures hosts[i].enabled ==> RunsAs(wgi.kernel, hosts[i], psk) && r.Lines?
      ensures r == Lines([]) ==> OnlyLost(old(wgi.kernel), wgi.kernel, old(routes), routes)
      ensures r == Lines([]) && hosts[i].enabled ==> wgi.kernel == old(wgi.kernel) && routes == old(routes)
    {
      if hosts[i].enabled {
        r := SyncEnabled(hosts, i, psk);
        AgreedRuns(wgi.kernel, hosts[i], psk);
      } else {
        ghost var before, cached, routesBefore := wgi.kernel, wgi.peers, routes;
        r := RemoveUnknown(hosts);
        DisabledProgress(before, wgi.kernel, cached, wgi.peers, routesBefore, routes, hosts, psk, i);
        RemovedElsewhere(routesBefore, routes, hosts);
        if Synced(before, routesBefore, hosts, psk) {
          SyncedIsPruned(routesBefore, hosts);
        }
        if r.Lines? {
          r := Lines([]);
        }
      }
    }

    method SyncEnabled(hosts: seq<Host>, i: nat, psk: Key -> Key) returns (r: Outcome)
      requires Separate(hosts, psk) && i < |hosts| && hosts[i].enabled
      requires WgProgress(wgi.kernel, wgi.peers, hosts, psk, i) && RoutesProgress(routes, hosts, i)
      modifies this`routes, wgi
      ensures WgProgress(wgi.kernel, wgi.peers, hosts, psk, i + 1) && RoutesProgress(routes, hosts, i + 1)
      ensures SameElsewhere(old(routes), routes)
      ensures Synced(old(wgi.kernel), old(routes), hosts, psk) && CachedKeys(old(wgi.peers)) <= EnabledKeys(hosts) ==>
                && r == Lines([]) && wgi.kernel == old(wgi.kernel) && routes == old(routes)
                && CachedKeys(wgi.peers) <= EnabledKeys(hosts)
      ensures r.Lines?
      ensures r == Lines([]) ==> wgi.kernel == old(wgi.kernel) && routes == old(routes)
    {
      ghost var routesBefore := routes;
      var lines := ConfigureHost(hosts, i, psk);
      var more := SyncHostRoutes(hosts[i]);
      HostRoutesProgress(routesBefore, hosts, i);
      HostRoutesQuiet(routesBefore, hosts, i);
      NothingAndNothing(lines, more);
      r := Lines(lines + more);
    }

    method ConfigureHost(hosts: seq<Host>, i: nat, psk: Key -> Key) returns (lines: seq<Report>)
      requires Separate(hosts, psk) && i < |hosts| && hosts[i].enabled
      requires WgProgress(wgi.kernel, wgi.peers, hosts, psk, i)
      modifies wgi
      ensures WgProgress(wgi.kernel, wgi.peers, hosts, psk, i + 1)
      ensures WgSynced(old(wgi.kernel), hosts, psk) ==>
                lines == [] && wgi.kernel == old(wgi.kernel) && CachedKeys(wgi.peers) <= EnabledKeys(hosts)
      ensures lines == [] ==> wgi.kernel == old(wgi.kernel)
    {
      var config := WgConfig(hosts[i], psk);
      WgStep(wgi.kernel, wgi.peers, hosts, psk, i, Wanted(wgi.kernel, config.at));
      EnabledIsQuiet(wgi.kernel, hosts, i, psk);
      ConfigIsWhole(wgi.kernel, hosts[i], psk);
      QuietIsAgreed(wgi.kernel, config);
      var applied := wgi.ApplyPeerConfig(config, false);
      lines := if applied.KeyError? || applied.lines == [] then [] else [WgLines(applied.lines)];
    }

    method SyncHostRoutes(h: Host) returns (lines: seq<Report>)
      modifies this`routes
      ensures routes == WithHost(old(routes), h)
      ensures HasAll(old(routes), h) ==> lines == []
      ensures lines == [] ==> routes == old(routes)
    {
      lines := SyncRoutes(Routes(h), VULA_TABLE);
      WithRoutesExactly(old(routes), Routes(h), VULA_TABLE);
      HasGrows(old(routes), routes);
      if h.gateway {
        var more := SyncRoutes(GATEWAY_ROUTES, MAIN_TABLE);
        lines := lines + more;
      }
    }

    /**
     * One pass over all peers, then the removal of everything unknown. Whatever the
     * kernel held: WireGuard ends with exactly the enabled peers, configured as asked
     * for; unless a default route sits in the vula table, which raises, so do the
     * routes; no other route is touched; and a pass over a synced system does and
     * reports nothing.
     */
    method Sync(hosts: seq<Host>, psk: Key -> Key) returns (r: Outcome)
      requires Separate(hosts, psk) && KernelOk(wgi.kernel)
      modifies this`routes, wgi
      ensures KernelOk(wgi.kernel) && WgSynced(wgi.kernel, hosts, psk) && AllRun(wgi.kernel, hosts, psk)
      ensures r.Failed? <==> Undeletable(old(routes))
      ensures r.Lines? ==> RoutesSynced(routes, hosts) && AllRouted(routes, hosts)
      ensures SameElsewhere(old(routes), routes)
      ensures Synced(old(wgi.kernel), old(routes), hosts, psk) ==>
                r == Lines([]) && wgi.kernel == old(wgi.kernel) && routes == old(routes)
      ensures r == Lines([]) ==> AllServed(old(wgi.kernel), old(routes), hosts, psk)
      ensures r == Lines([]) && (forall h | h in hosts :: h.enabled) ==>
                wgi.kernel == old(wgi.kernel) && routes == old(routes)
    {
      var lines: seq<Report> := [];
      ghost var k0, r0 := wgi.kernel, routes;
      wgi.Query(true);
      SnapshotKeys(wgi.kernel);
      for i := 0 to |hosts|
        invariant WgProgress(wgi.kernel, wgi.peers, hosts, psk, i) && RoutesProgress(routes, hosts, i)
        invariant SameElsewhere(r0, routes)
        invariant Synced(k0, r0, hosts, psk) ==>
                    && lines == [] && wgi.kernel == k0 && routes == r0
                    && CachedKeys(wgi.peers) <= EnabledKeys(hosts)
        invariant lines == [] ==> OnlyLost(k0, wgi.kernel, r0, routes)
        invariant lines == [] && (forall h | h in hosts :: h.enabled) ==> wgi.kernel == k0 && routes == r0
      {
        var one := SyncPeer(hosts, i, psk);
        lines := lines + if one.Failed? then [Raised] else one.lines;
      }
      ghost var k1, c1, r1 := wgi.kernel, wgi.peers, routes;
      var last := RemoveUnknown(hosts);
      PassIsSynced(k1, wgi.kernel, c1, wgi.peers, hosts, psk);
      PrunedIsSynced(r1, hosts);
      RemovedElsewhere(r1, routes, hosts);
      UndeletableElsewhere(r0, r1);
      if Synced(k0, r0, hosts, psk) {
        SyncedIsPruned(r0, hosts);
      }
      PassMeans(k0, wgi.kernel, r0, routes, hosts, psk, last.Lines?, last.Lines? && lines + last.lines == []);
      r := if last.Failed? then last else Lines(lines + last.lines);
    }
  }
}
