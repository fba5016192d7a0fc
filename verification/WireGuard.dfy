/**
 * Configuring WireGuard peers by difference (vula/wg.py): the dictionary that is
 * sent holds only what changed, and the kernel keeps what is not sent.
 */
module WireGuard {
  import opened Addresses
  import opened OrderedDict
  import opened Peers

  datatype Name = PublicKey | Remove | EndpointAddr | EndpointPort | AllowedIps | PresharedKey | Keepalive

  datatype Value = KeyIs(key: Key) | Flag(on: bool) | AddrIs(ip: IP) | Number(n: int) | Nets(nets: seq<Net>)

  /** A configuration as the source passes it around: a dictionary. */
  type Config = Dict<Name, Value>

  predicate Fits(n: Name, v: Value) {
    match n
    case PublicKey => v.KeyIs?
    case Remove => v.Flag?
    case EndpointAddr => v.AddrIs?
    case EndpointPort => v.Number?
    case AllowedIps => v.Nets?
    case PresharedKey => v.KeyIs?
    case Keepalive => v.Number?
  }

  /** It names its peer, and every value has the type its name asks for. */
  predicate Proper(m: map<Name, Value>) {
    PublicKey in m && forall n | n in m :: Fits(n, m[n])
  }

  // ----- the kernel -----

  /** An all-zero preshared key is none. */
  const NO_PSK: Key := Key(ZERO16 + ZERO16)

  datatype WgPeer = WgPeer(psk: Key, endpoint: Option<(IP, int)>, keepalive: int, allowed: seq<Net>)

  const BLANK: WgPeer := WgPeer(NO_PSK, None, 0, [])

  type Kernel = Dict<Key, WgPeer>

  /** A list as the kernel keeps it: each entry once, at its last position. */
  function Listed<T(==)>(s: seq<T>): seq<T> {
    if s == [] then [] else Without(Listed(s[..|s| - 1]), s[|s| - 1]) + [s[|s| - 1]]
  }

  function Losing<T(==)>(s: seq<T>, gone: seq<T>): seq<T> {
    if s == [] then [] else (if s[0] in gone then [] else [s[0]]) + Losing(s[1..], gone)
  }

  /** An allowed address belongs to one peer: giving it to vk takes it from the others. */
  function Give(k: Kernel, pk: Key, p: WgPeer): Kernel {
    Put(Entries(k.order, map j | j in k.at :: k.at[j].(allowed := Losing(k.at[j].allowed, p.allowed))), pk, p)
  }

  function Known(k: Kernel, pk: Key): WgPeer {
    if pk in k.at then k.at[pk] else BLANK
  }

  /**
   * `set`: what is absent is kept, except that absent allowed addresses are cleared and an
   * endpoint needs both halves.
   */
  function Updated(p: WgPeer, m: map<Name, Value>): WgPeer
    requires Proper(m)
  {
    WgPeer(
      if PresharedKey in m then m[PresharedKey].key else p.psk,
      if EndpointAddr in m && EndpointPort in m then Some((m[EndpointAddr].ip, m[EndpointPort].n)) else p.endpoint,
      if Keepalive in m then m[Keepalive].n else p.keepalive,
      if AllowedIps in m then Listed(m[AllowedIps].nets) else [])
  }

  predicate Removes(m: map<Name, Value>) {
    Remove in m && m[Remove] == Flag(true)
  }

  function KernelSet(k: Kernel, m: map<Name, Value>): Kernel
    requires Proper(m)
  {
    var pk := m[PublicKey].key;
    if Removes(m) then (if pk in k.at then Drop(k, pk) else k)
    else Give(k, pk, Updated(Known(k, pk), m))
  }

  /** `query` reports a peer under the same names; a missing preshared key or endpoint is not reported. */
  function Reported(pk: Key, p: WgPeer): map<Name, Value> {
    map[PublicKey := KeyIs(pk), Remove := Flag(false), AllowedIps := Nets(p.allowed), Keepalive := Number(p.keepalive)]
    + (if p.psk == NO_PSK then map[] else map[PresharedKey := KeyIs(p.psk)])
    + (if p.endpoint.None? then map[]
       else map[EndpointAddr := AddrIs(p.endpoint.value.0), EndpointPort := Number(p.endpoint.value.1)])
  }

  /** Every allowed address is listed once, under one peer. */
  ghost predicate KernelOk(k: Kernel) {
    && (forall a | a in k.at :: NoRepeats(k.at[a].allowed))
    && (forall a, b, n | a in k.at && b in k.at && a != b && n in k.at[a].allowed :: n !in k.at[b].allowed)
  }

  // ----- lists -----

  lemma {:induction false} ListedNoRepeats<T>(s: seq<T>)
    ensures NoRepeats(Listed(s))
    ensures forall x :: x in Listed(s) <==> x in s
  {
    if s != [] {
      var last := |s| - 1;
      ListedNoRepeats(s[..last]);
      NoRepeatsSnoc(Without(Listed(s[..last]), s[last]), s[last]);
      assert s == s[..last] + [s[last]];
    }
  }

  lemma {:induction false} ListedAlready<T>(s: seq<T>)
    requires NoRepeats(s)
    ensures Listed(s) == s
  {
    if s != [] {
      var last := |s| - 1;
      assert s == s[..last] + [s[last]];
      NoRepeatsSnoc(s[..last], s[last]);
      ListedAlready(s[..last]);
      WithoutAbsent(s[..last], s[last]);
    }
  }

  /** A list is kept as it is exactly when it repeats nothing. */
  lemma ListedSame<T>(s: seq<T>)
    ensures Listed(s) == s <==> NoRepeats(s)
  {
    ListedNoRepeats(s);
    if NoRepeats(s) {
      ListedAlready(s);
    }
  }

  lemma {:induction false} LosingMembers<T>(s: seq<T>, gone: seq<T>)
    ensures forall x :: x in Losing(s, gone) <==> x in s && x !in gone
    ensures NoRepeats(s) ==> NoRepeats(Losing(s, gone))
  {
    if s != [] {
      LosingMembers(s[1..], gone);
      if NoRepeats(s) {
        forall i, j | 0 <= i < j < |s[1..]| ensures s[1..][i] != s[1..][j] {
        }
        assert s[0] !in Losing(s[1..], gone);
      }
    }
  }

  lemma {:induction false} LosingNothing<T>(s: seq<T>, gone: seq<T>)
    requires forall x | x in s :: x !in gone
    ensures Losing(s, gone) == s
  {
    if s != [] {
      LosingNothing(s[1..], gone);
    }
  }

  lemma GiveKeepsOk(k: Kernel, pk: Key, p: WgPeer)
    requires KernelOk(k) && NoRepeats(p.allowed)
    ensures KernelOk(Give(k, pk, p))
  {
    forall a | a in k.at
      ensures forall x :: x in Losing(k.at[a].allowed, p.allowed) <==> x in k.at[a].allowed && x !in p.allowed
      ensures NoRepeats(Losing(k.at[a].allowed, p.allowed)) {
      LosingMembers(k.at[a].allowed, p.allowed);
    }
  }

  /** Whatever is sent, every allowed address stays with one peer. */
  lemma KernelStaysOk(k: Kernel, m: map<Name, Value>)
    requires KernelOk(k) && Proper(m)
    ensures KernelOk(KernelSet(k, m))
  {
    if !Removes(m) {
      var p := Updated(Known(k, m[PublicKey].key), m);
      if AllowedIps in m {
        ListedNoRepeats(m[AllowedIps].nets);
      }
      GiveKeepsOk(k, m[PublicKey].key, p);
    }
  }

  lemma GiveSame(k: Kernel, pk: Key)
    requires KernelOk(k) && pk in k.at
    ensures Give(k, pk, k.at[pk]) == k
  {
    var r := Give(k, pk, k.at[pk]);
    forall j | j in k.at ensures r.at[j] == k.at[j] {
      if j != pk {
        LosingNothing(k.at[j].allowed, k.at[pk].allowed);
      }
    }
    assert r.at == k.at;
  }

  /**
   * Why the difference alone is not enough: allowed addresses that are not sent are lost,
   * and half an endpoint is not taken.
   */
  lemma SendingLessLoses(k: Kernel, m: map<Name, Value>)
    requires Proper(m) && !Removes(m) && m[PublicKey].key in k.at
    ensures var pk := m[PublicKey].key;
            && (AllowedIps !in m ==> KernelSet(k, m).at[pk].allowed == [])
            && ((EndpointAddr in m) != (EndpointPort in m) ==> KernelSet(k, m).at[pk].endpoint == k.at[pk].endpoint)
            && (PresharedKey !in m ==> KernelSet(k, m).at[pk].psk == k.at[pk].psk)
  {
  }

  /** An allowed address that is given to one peer is taken from every other. */
  lemma GivenIsTaken(k: Kernel, m: map<Name, Value>, n: Net, j: Key)
    requires Proper(m) && !Removes(m) && AllowedIps in m && n in m[AllowedIps].nets
    requires j in k.at && j != m[PublicKey].key
    ensures j in KernelSet(k, m).at && n !in KernelSet(k, m).at[j].allowed
    ensures n in KernelSet(k, m).at[m[PublicKey].key].allowed
  {
    ListedNoRepeats(m[AllowedIps].nets);
    LosingMembers(k.at[j].allowed, Listed(m[AllowedIps].nets));
  }

  // ----- what a configuration asks for -----

  /** The peer with every key the configuration names, and everything else as it was. */
  function Overlay(p: WgPeer, m: map<Name, Value>): WgPeer
    requires Proper(m)
  {
    var addr :=
      if EndpointAddr in m then Some(m[EndpointAddr].ip)
      else if p.endpoint.Some? then Some(p.endpoint.value.0) else None;
    var port :=
      if EndpointPort in m then Some(m[EndpointPort].n)
      else if p.endpoint.Some? then Some(p.endpoint.value.1) else None;
    WgPeer(
      if PresharedKey in m then m[PresharedKey].key else p.psk,
      if addr.Some? && port.Some? then Some((addr.value, port.value)) else p.endpoint,
      if Keepalive in m then m[Keepalive].n else p.keepalive,
      if AllowedIps in m then Listed(m[AllowedIps].nets) else p.allowed)
  }

  /** Half an endpoint for a peer that has none: the missing half is looked up and not found. */
  predicate HalfEndpoint(k: Kernel, m: map<Name, Value>)
    requires Proper(m)
  {
    var pk := m[PublicKey].key;
    pk in k.at && k.at[pk].endpoint.None? && (EndpointAddr in m) != (EndpointPort in m)
  }

  /** The kernel as the configuration asks for it. */
  function Wanted(k: Kernel, m: map<Name, Value>): Kernel
    requires Proper(m)
  {
    var pk := m[PublicKey].key;
    if Removes(m) then (if pk in k.at then Drop(k, pk) else k)
    else Give(k, pk, Overlay(Known(k, pk), m))
  }

  /** Everything the configuration names is reported with that value already. */
  predicate Agreed(k: Kernel, m: map<Name, Value>)
    requires Proper(m)
  {
    var pk := m[PublicKey].key;
    && pk in k.at && !Removes(m)
    && forall n | n in m :: n in Reported(pk, k.at[pk]) && Reported(pk, k.at[pk])[n] == m[n]
  }

  // ----- the difference -----

  predicate Unchanged(cur: map<Name, Value>, n: Name, v: Value) {
    n != AllowedIps && n != PublicKey && n in cur && cur[n] == v
  }

  /** What is left of m once the unchanged keys are deleted. */
  function Diff(cur: map<Name, Value>, m: map<Name, Value>): map<Name, Value> {
    map n | n in m && !Unchanged(cur, n, m[n]) :: m[n]
  }

  /** The allowed addresses are always sent along. */
  function WithAllowed(p: WgPeer, m: map<Name, Value>): map<Name, Value> {
    if !Removes(m) && AllowedIps !in m then m[AllowedIps := Nets(p.allowed)] else m
  }

  /** Both halves of an endpoint are sent if one is. */
  function WithEndpoint(p: WgPeer, m: map<Name, Value>): map<Name, Value>
    requires p.endpoint.Some? || (EndpointAddr in m <==> EndpointPort in m)
  {
    if EndpointAddr in m && EndpointPort !in m then m[EndpointPort := Number(p.endpoint.value.1)]
    else if EndpointPort in m && EndpointAddr !in m then m[EndpointAddr := AddrIs(p.endpoint.value.0)]
    else m
  }

  function Sent(pk: Key, p: WgPeer, m: map<Name, Value>): map<Name, Value>
    requires p.endpoint.Some? || (EndpointAddr in m <==> EndpointPort in m)
  {
    assert p.endpoint.None? ==> EndpointAddr !in Reported(pk, p) && EndpointPort !in Reported(pk, p);
    WithEndpoint(p, Diff(Reported(pk, p), WithAllowed(p, m)))
  }

  lemma SentProper(pk: Key, p: WgPeer, m: map<Name, Value>)
    requires Proper(m)
    requires p.endpoint.Some? || (EndpointAddr in m <==> EndpointPort in m)
    ensures Proper(Sent(pk, p, m)) && Sent(pk, p, m)[PublicKey] == m[PublicKey]
    ensures Removes(Sent(pk, p, m)) <==> Removes(m)
  {
  }

  lemma SentEndpoint(pk: Key, p: WgPeer, m: map<Name, Value>)
    requires Proper(m) && p.endpoint.Some?
    ensures var s := Sent(pk, p, m);
            EndpointAddr in s && EndpointPort in s <==>
              (EndpointAddr in m && m[EndpointAddr].ip != p.endpoint.value.0)
              || (EndpointPort in m && m[EndpointPort].n != p.endpoint.value.1)
    ensures EndpointAddr in Sent(pk, p, m) ==>
              Sent(pk, p, m)[EndpointAddr]
              == AddrIs(if EndpointAddr in m then m[EndpointAddr].ip else p.endpoint.value.0)
    ensures EndpointPort in Sent(pk, p, m) ==>
              Sent(pk, p, m)[EndpointPort]
              == Number(if EndpointPort in m then m[EndpointPort].n else p.endpoint.value.1)
  {
  }

  lemma SentSimple(pk: Key, p: WgPeer, m: map<Name, Value>)
    requires Proper(m) && !Removes(m)
    requires p.endpoint.Some? || (EndpointAddr in m <==> EndpointPort in m)
    ensures var s := Sent(pk, p, m);
            && (PresharedKey in s <==> PresharedKey in m && (m[PresharedKey].key != p.psk || p.psk == NO_PSK))
            && (PresharedKey in s ==> s[PresharedKey] == m[PresharedKey])
            && (Keepalive in s <==> Keepalive in m && m[Keepalive].n != p.keepalive)
            && (Keepalive in s ==> s[Keepalive] == m[Keepalive])
            && AllowedIps in s && s[AllowedIps] == (if AllowedIps in m then m[AllowedIps] else Nets(p.allowed))
  {
  }

  lemma SentNewEndpoint(pk: Key, p: WgPeer, m: map<Name, Value>)
    requires Proper(m) && p.endpoint.None? && (EndpointAddr in m <==> EndpointPort in m)
    ensures var s := Sent(pk, p, m);
            && (EndpointAddr in s <==> EndpointAddr in m) && (EndpointPort in s <==> EndpointPort in m)
            && (EndpointAddr in m ==> s[EndpointAddr] == m[EndpointAddr] && s[EndpointPort] == m[EndpointPort])
  {
  }

  /** Sending the difference to the kernel makes of the peer what the whole configuration asks for. */
  lemma DiffIsOverlay(pk: Key, p: WgPeer, m: map<Name, Value>)
    requires Proper(m) && !Removes(m) && NoRepeats(p.allowed)
    requires p.endpoint.Some? || (EndpointAddr in m <==> EndpointPort in m)
    ensures Proper(Sent(pk, p, m)) && Updated(p, Sent(pk, p, m)) == Overlay(p, m)
  {
    SentProper(pk, p, m);
    SentSimple(pk, p, m);
    ListedSame(p.allowed);
    if p.endpoint.Some? {
      SentEndpoint(pk, p, m);
    } else {
      SentNewEndpoint(pk, p, m);
    }
  }

  /** Only the two keys that are always sent are left, and the allowed addresses are the current ones. */
  predicate Idle(p: WgPeer, s: map<Name, Value>) {
    |s| == 2 && AllowedIps in s && s[AllowedIps] == Nets(p.allowed)
  }

  lemma TwoKeys(s: map<Name, Value>)
    requires PublicKey in s && AllowedIps in s
    ensures |s| == 2 <==> s.Keys == {PublicKey, AllowedIps}
  {
    assert {PublicKey, AllowedIps} <= s.Keys;
    if |s| == 2 {
      var rest := s.Keys - {PublicKey, AllowedIps};
      assert s.Keys == rest + {PublicKey, AllowedIps};
      assert |s.Keys| == |rest| + |{PublicKey, AllowedIps}|;
    }
    assert |s.Keys| == |s|;
  }

  lemma RemovalIsNotIdle(pk: Key, p: WgPeer, m: map<Name, Value>)
    requires Proper(m) && Removes(m)
    requires p.endpoint.Some? || (EndpointAddr in m <==> EndpointPort in m)
    ensures !Idle(p, Sent(pk, p, m))
  {
    var s := Sent(pk, p, m);
    if AllowedIps in s {
      SentProper(pk, p, m);
      TwoKeys(s);
      assert Remove in s;
    }
  }

  lemma AgreedLeavesTwo(pk: Key, p: WgPeer, m: map<Name, Value>)
    requires Proper(m) && !Removes(m) && m[PublicKey].key == pk
    requires p.endpoint.Some? || (EndpointAddr in m <==> EndpointPort in m)
    requires forall n | n in m :: n in Reported(pk, p) && Reported(pk, p)[n] == m[n]
    ensures Sent(pk, p, m).Keys == {PublicKey, AllowedIps} && Sent(pk, p, m)[AllowedIps] == Nets(p.allowed)
  {
    SentSimple(pk, p, m);
    assert Diff(Reported(pk, p), WithAllowed(p, m)).Keys == {PublicKey, AllowedIps};
  }

  lemma AgreedIsIdle(pk: Key, p: WgPeer, m: map<Name, Value>)
    requires Proper(m) && !Removes(m) && m[PublicKey].key == pk
    requires p.endpoint.Some? || (EndpointAddr in m <==> EndpointPort in m)
    requires forall n | n in m :: n in Reported(pk, p) && Reported(pk, p)[n] == m[n]
    ensures Idle(p, Sent(pk, p, m))
  {
    AgreedLeavesTwo(pk, p, m);
    TwoKeys(Sent(pk, p, m));
  }

  lemma IdleKey(pk: Key, p: WgPeer, m: map<Name, Value>, n: Name)
    requires Proper(m) && !Removes(m) && m[PublicKey].key == pk && n in m
    requires p.endpoint.Some? || (EndpointAddr in m <==> EndpointPort in m)
    requires Sent(pk, p, m).Keys == {PublicKey, AllowedIps} && Sent(pk, p, m)[AllowedIps] == Nets(p.allowed)
    ensures n in Reported(pk, p) && Reported(pk, p)[n] == m[n]
  {
    if n != PublicKey && n != AllowedIps {
      assert n !in Sent(pk, p, m);
    }
  }

  /** Nothing is left to send exactly when the kernel reports everything as asked for. */
  lemma IdleIffAgreed(k: Kernel, m: map<Name, Value>)
    requires Proper(m) && !Removes(m) && m[PublicKey].key in k.at && !HalfEndpoint(k, m)
    ensures var pk := m[PublicKey].key; Idle(k.at[pk], Sent(pk, k.at[pk], m)) <==> Agreed(k, m)
  {
    var pk := m[PublicKey].key;
    var p := k.at[pk];
    if Agreed(k, m) {
      AgreedIsIdle(pk, p, m);
    }
    if Idle(p, Sent(pk, p, m)) {
      SentProper(pk, p, m);
      TwoKeys(Sent(pk, p, m));
      forall n | n in m ensures n in Reported(pk, p) && Reported(pk, p)[n] == m[n] {
        IdleKey(pk, p, m, n);
      }
    }
  }

  lemma AgreedOverlay(pk: Key, p: WgPeer, m: map<Name, Value>)
    requires Proper(m) && NoRepeats(p.allowed)
    requires forall n | n in m :: n in Reported(pk, p) && Reported(pk, p)[n] == m[n]
    ensures Overlay(p, m) == p
  {
    ListedSame(p.allowed);
  }

  /** Where everything agrees, what is asked for is what is there. */
  lemma AgreedIsWanted(k: Kernel, m: map<Name, Value>)
    requires Proper(m) && KernelOk(k) && Agreed(k, m)
    ensures Wanted(k, m) == k
  {
    var pk := m[PublicKey].key;
    AgreedOverlay(pk, k.at[pk], m);
    GiveSame(k, pk);
  }

  /** Sending the difference turns the kernel into what is wanted. */
  lemma SentIsWanted(k: Kernel, m: map<Name, Value>)
    requires Proper(m) && KernelOk(k) && m[PublicKey].key in k.at && !HalfEndpoint(k, m)
    ensures var pk := m[PublicKey].key;
            Proper(Sent(pk, k.at[pk], m)) && KernelSet(k, Sent(pk, k.at[pk], m)) == Wanted(k, m)
  {
    var pk := m[PublicKey].key;
    SentProper(pk, k.at[pk], m);
    if !Removes(m) {
      DiffIsOverlay(pk, k.at[pk], m);
    }
  }

  /** A peer the kernel does not know gets the whole configuration. */
  lemma NewIsWanted(k: Kernel, m: map<Name, Value>)
    requires Proper(m) && m[PublicKey].key !in k.at
    ensures KernelSet(k, m) == Wanted(k, m)
  {
  }

  /** The configuration can be met: the kernel will report it back as it is. */
  ghost predicate Meetable(m: map<Name, Value>)
    requires Proper(m)
  {
    && (AllowedIps in m ==> NoRepeats(m[AllowedIps].nets))
    && (PresharedKey in m ==> m[PresharedKey].key != NO_PSK)
    && (Remove in m ==> m[Remove] == Flag(false))
  }

  /** The endpoint is given whole, not at all, or by half to a peer that has one. */
  predicate EndpointWhole(p: WgPeer, m: map<Name, Value>) {
    (EndpointAddr in m <==> EndpointPort in m) || p.endpoint.Some?
  }

  lemma OverlayReported(pk: Key, p: WgPeer, m: map<Name, Value>)
    requires Proper(m) && m[PublicKey].key == pk && Meetable(m) && EndpointWhole(p, m)
    ensures var r := Reported(pk, Overlay(p, m)); forall n | n in m :: n in r && r[n] == m[n]
  {
    if AllowedIps in m {
      ListedSame(m[AllowedIps].nets);
    }
  }

  lemma HalfIsNotReported(pk: Key, p: WgPeer, m: map<Name, Value>)
    requires Proper(m)
    ensures !EndpointWhole(p, m) ==>
              EndpointAddr !in Reported(pk, Overlay(p, m)) && EndpointPort !in Reported(pk, Overlay(p, m))
  {
  }

  lemma ListMet(pk: Key, p: WgPeer, m: map<Name, Value>)
    requires Proper(m) && AllowedIps in m && Reported(pk, Overlay(p, m))[AllowedIps] == m[AllowedIps]
    ensures NoRepeats(m[AllowedIps].nets)
  {
    ListedSame(m[AllowedIps].nets);
  }

  lemma PskMet(pk: Key, p: WgPeer, m: map<Name, Value>)
    requires Proper(m) && PresharedKey in m && PresharedKey in Reported(pk, Overlay(p, m))
    ensures m[PresharedKey].key != NO_PSK
  {
  }

  lemma OverlayMeets(pk: Key, p: WgPeer, m: map<Name, Value>)
    requires Proper(m)
    requires var r := Reported(pk, Overlay(p, m)); forall n | n in m :: n in r && r[n] == m[n]
    ensures Meetable(m) && EndpointWhole(p, m)
  {
    HalfIsNotReported(pk, p, m);
    if AllowedIps in m {
      ListMet(pk, p, m);
    }
    if PresharedKey in m {
      PskMet(pk, p, m);
    }
    if Remove in m {
      assert Reported(pk, Overlay(p, m))[Remove] == m[Remove];
    }
  }

  /**
   * Once applied, a configuration is reported as asked for, so that applying it again
   * sends nothing, exactly if its allowed addresses repeat nothing, its preshared key
   * is not all zero, and it does not give half an endpoint to a peer that has none.
   */
  lemma AppliedAgrees(k: Kernel, m: map<Name, Value>)
    requires Proper(m) && !Removes(m)
    ensures Agreed(Wanted(k, m), m) <==> Meetable(m) && EndpointWhole(Known(k, m[PublicKey].key), m)
  {
    var pk := m[PublicKey].key;
    assert Wanted(k, m).at[pk] == Overlay(Known(k, pk), m);
    if Meetable(m) && EndpointWhole(Known(k, pk), m) {
      OverlayReported(pk, Known(k, pk), m);
    }
    if Agreed(Wanted(k, m), m) {
      OverlayMeets(pk, Known(k, pk), m);
    }
  }

  // ----- the interface object -----

  datatype Line =
    | CannotRemove(pk: Key)
    | Removing(pk: Key)
    | Differs(name: Name)
    | Reconfigure(pk: Key)
    | ConfigureNew(pk: Key)
    | WgSet(pk: Key)

  datatype Applied = Done(lines: seq<Line>) | KeyError

  /** One line for every key, in order, that is not yet as it should be. */
  function Notes(cur: map<Name, Value>, m: map<Name, Value>, keys: seq<Name>): seq<Line>
    requires forall n | n in keys :: n in m
  {
    if keys == [] then []
    else
      var key := keys[|keys| - 1];
      Notes(cur, m, keys[..|keys| - 1])
      + if (key in cur && cur[key] == m[key]) || key == Remove then [] else [Differs(key)]
  }

  function DiffSoFar(cur: map<Name, Value>, m: map<Name, Value>, keys: seq<Name>): map<Name, Value> {
    map n | n in m && !(n in keys && Unchanged(cur, n, m[n])) :: m[n]
  }

  lemma OneKeyMore(cur: map<Name, Value>, m: map<Name, Value>, keys: seq<Name>, i: nat)
    requires i < |keys| && keys[i] in m && NoRepeats(keys)
    ensures var before, after := DiffSoFar(cur, m, keys[..i]), DiffSoFar(cur, m, keys[..i + 1]);
            after == if Unchanged(cur, keys[i], m[keys[i]]) then before - {keys[i]} else before
  {
    assert keys[..i + 1] == keys[..i] + [keys[i]];
  }

  lemma DiffComplete(cur: map<Name, Value>, config: Config)
    ensures DiffSoFar(cur, config.at, config.order) == Diff(cur, config.at)
  {
  }

  /** The peer list as the kernel reports it. */
  function Snapshot(k: Kernel): seq<(Key, WgPeer)> {
    seq(|k.order|, i requires 0 <= i < |k.order| => assert k.order[i] in k.order; (k.order[i], k.at[k.order[i]]))
  }

  /** What `_peers_by_pubkey` finds in the cached list. */
  function Cached(peers: seq<(Key, WgPeer)>, pk: Key): Option<WgPeer> {
    if peers == [] then None
    else if peers[|peers| - 1].0 == pk then Some(peers[|peers| - 1].1)
    else Cached(peers[..|peers| - 1], pk)
  }

  lemma {:induction false} CachedUpTo(k: Kernel, pk: Key, i: nat)
    requires i <= |k.order|
    ensures Cached(Snapshot(k)[..i], pk) == if pk in k.order[..i] then Some(k.at[pk]) else None
  {
    if i > 0 {
      CachedUpTo(k, pk, i - 1);
      assert Snapshot(k)[..i][..i - 1] == Snapshot(k)[..i - 1];
      assert k.order[..i] == k.order[..i - 1] + [k.order[i - 1]];
      assert k.order[i - 1] in k.order;
    }
  }

  lemma CachedSnapshot(k: Kernel, pk: Key)
    ensures Cached(Snapshot(k), pk) == if pk in k.at then Some(k.at[pk]) else None
  {
    CachedUpTo(k, pk, |k.order|);
    assert Snapshot(k)[..|k.order|] == Snapshot(k) && k.order[..|k.order|] == k.order;
  }

  /** What `apply_peerconfig` says; nothing exactly when everything agrees. */
  function Report(k: Kernel, config: Config): Applied
    requires Proper(config.at)
  {
    var pk := config.at[PublicKey].key;
    if pk !in k.at then Done(if Removes(config.at) then [CannotRemove(pk)] else [ConfigureNew(pk), WgSet(pk)])
    else if HalfEndpoint(k, config.at) then KeyError
    else if Agreed(k, config.at) then Done([])
    else
      Done((if Removes(config.at) then [Removing(pk)] else [])
           + Notes(Reported(pk, k.at[pk]), config.at, config.order) + [Reconfigure(pk), WgSet(pk)])
  }

  lemma {:induction false} NotesDiffer(cur: map<Name, Value>, m: map<Name, Value>, keys: seq<Name>)
    requires forall n | n in keys :: n in m
    ensures forall l | l in Notes(cur, m, keys) :: l.Differs?
  {
    if keys != [] {
      NotesDiffer(cur, m, keys[..|keys| - 1]);
    }
  }

  /** What a line says is so, and everything there is to say is said. */
  lemma ReportExactly(k: Kernel, config: Config)
    requires Proper(config.at) && Report(k, config).Done?
    ensures var pk, lines := config.at[PublicKey].key, Report(k, config).lines;
            && (CannotRemove(pk) in lines <==> Removes(config.at) && pk !in k.at)
            && (Removing(pk) in lines <==> Removes(config.at) && pk in k.at)
            && (ConfigureNew(pk) in lines <==> !Removes(config.at) && pk !in k.at)
            && (Reconfigure(pk) in lines <==> pk in k.at && !Agreed(k, config.at))
            && (WgSet(pk) in lines <==> ConfigureNew(pk) in lines || Reconfigure(pk) in lines)
  {
    var pk := config.at[PublicKey].key;
    if pk in k.at {
      NotesDiffer(Reported(pk, k.at[pk]), config.at, config.order);
    }
  }

  lemma {:induction false} NotesFrame(cur: map<Name, Value>, m: map<Name, Value>, w: map<Name, Value>, keys: seq<Name>)
    requires forall n | n in keys :: n in m && n in w && m[n] == w[n]
    ensures Notes(cur, m, keys) == Notes(cur, w, keys)
  {
    if keys != [] {
      NotesFrame(cur, m, w, keys[..|keys| - 1]);
    }
  }

  lemma OneNoteLess(cur: map<Name, Value>, m: map<Name, Value>, keys: seq<Name>, key: Name)
    requires forall n | n in keys :: n in m
    requires key in m && key in cur && cur[key] == m[key]
    ensures Notes(cur, m, keys + [key]) == Notes(cur, m, keys)
  {
    assert (keys + [key])[..|keys|] == keys;
  }

  /** The allowed addresses that are filled in are the current ones: nothing to note. */
  lemma FullNotes(pk: Key, p: WgPeer, config: Config, full: Config)
    requires full ==
             if !Removes(config.at) && AllowedIps !in config.at
             then Put(config, AllowedIps, Nets(p.allowed)) else config
    ensures full.at == WithAllowed(p, config.at)
    ensures Notes(Reported(pk, p), full.at, full.order) == Notes(Reported(pk, p), config.at, config.order)
  {
    if !Removes(config.at) && AllowedIps !in config.at {
      OneNoteLess(Reported(pk, p), full.at, config.order, AllowedIps);
      NotesFrame(Reported(pk, p), full.at, config.at, config.order);
    }
  }

  lemma {:induction false} NothingToNote(cur: map<Name, Value>, m: map<Name, Value>, keys: seq<Name>)
    requires forall n | n in keys :: n in m && n in cur && cur[n] == m[n]
    ensures Notes(cur, m, keys) == []
  {
    if keys != [] {
      NothingToNote(cur, m, keys[..|keys| - 1]);
    }
  }

  /** A difference is noted exactly where a key is not reported with the value asked for, the removal mark aside. */
  lemma {:induction false} NotesExactly(cur: map<Name, Value>, m: map<Name, Value>, keys: seq<Name>, n: Name)
    requires forall k | k in keys :: k in m
    ensures Differs(n) in Notes(cur, m, keys) <==> n in keys && n != Remove && !(n in cur && cur[n] == m[n])
  {
    if keys != [] {
      var last := |keys| - 1;
      NotesExactly(cur, m, keys[..last], n);
      assert keys == keys[..last] + [keys[last]];
    }
  }

  /** A half endpoint is still half once the unchanged keys are gone, if there was no endpoint. */
  lemma HalfLeft(pk: Key, p: WgPeer, m: map<Name, Value>)
    requires p.endpoint.None?
    ensures var left := Diff(Reported(pk, p), WithAllowed(p, m));
            (EndpointAddr in left <==> EndpointAddr in m) && (EndpointPort in left <==> EndpointPort in m)
  {
  }

  /** The update is skipped exactly when everything agrees, and then there is nothing to say. */
  lemma SkipIsRight(k: Kernel, config: Config)
    requires Proper(config.at) && config.at[PublicKey].key in k.at && !HalfEndpoint(k, config.at)
    ensures var pk := config.at[PublicKey].key;
            && (Idle(k.at[pk], Sent(pk, k.at[pk], config.at)) <==> Agreed(k, config.at))
            && (Agreed(k, config.at) ==> Notes(Reported(pk, k.at[pk]), config.at, config.order) == [])
  {
    var pk := config.at[PublicKey].key;
    if Removes(config.at) {
      RemovalIsNotIdle(pk, k.at[pk], config.at);
    } else {
      IdleIffAgreed(k, config.at);
      if Agreed(k, config.at) {
        NothingToNote(Reported(pk, k.at[pk]), config.at, config.order);
      }
    }
  }

  /** The wrapper around one WireGuard interface; the kernel's own table is beside it. */
  class Interface {
    var kernel: Kernel
    var peers: seq<(Key, WgPeer)>

    constructor (k: Kernel)
      ensures kernel == k && peers == Snapshot(k)
    {
      kernel := k;
      peers := Snapshot(k);
    }

    /** Refreshes the cached peer list; where the kernel does not answer, nothing is cached. */
    method Query(answered: bool)
      modifies this`peers
      ensures peers == if answered then Snapshot(kernel) else []
    {
      peers := [];
      if answered {
        peers := Snapshot(kernel);
      }
    }

    method SetPeer(m: Config)
      requires Proper(m.at)
      modifies this`kernel
      ensures kernel == KernelSet(old(kernel), m.at)
      ensures KernelOk(old(kernel)) ==> KernelOk(kernel)
    {
      if KernelOk(kernel) {
        KernelStaysOk(kernel, m.at);
      }
      kernel := KernelSet(kernel, m.at);
    }

    /** Deletes what is unchanged, key by key, and notes what is not. */
    method DropUnchanged(cur: map<Name, Value>, config: Config) returns (left: Config, lines: seq<Line>)
      ensures left.at == Diff(cur, config.at)
      ensures lines == Notes(cur, config.at, config.order)
    {
      left := config;
      lines := [];
      for i := 0 to |config.order|
        invariant left.at == DiffSoFar(cur, config.at, config.order[..i])
        invariant lines == Notes(cur, config.at, config.order[..i])
      {
        var key := config.order[i];
        assert key in config.order;
        OneKeyMore(cur, config.at, config.order, i);
        assert config.order[..i + 1][..i] == config.order[..i];
        if key in cur && cur[key] == config.at[key] {
          if key != AllowedIps && key != PublicKey {
            left := Drop(left, key);
          }
        } else if key != Remove {
          lines := lines + [Differs(key)];
        }
      }
      assert config.order[..|config.order|] == config.order;
      DiffComplete(cur, config);
    }

    /** Sets what has changed; says what was done, or would be. */
    method ApplyPeerConfig(config: Config, dryrun: bool) returns (r: Applied)
      requires Proper(config.at) && KernelOk(kernel)
      modifies this
      ensures peers == Snapshot(old(kernel))
      ensures r == Report(old(kernel), config)
      ensures kernel == if dryrun || r.KeyError? then old(kernel) else Wanted(old(kernel), config.at)
      ensures KernelOk(kernel)
    {
      Query(true);
      var pk := config.at[PublicKey].key;
      CachedSnapshot(kernel, pk);
      match Cached(peers, pk)
      case None =>
        if Removes(config.at) {
          return Done([CannotRemove(pk)]);
        }
        NewIsWanted(kernel, config.at);
        if !dryrun {
          SetPeer(config);
        }
        r := Done([ConfigureNew(pk), WgSet(pk)]);
      case Some(cur) =>
        r := Reconfigured(pk, cur, config, dryrun);
    }

    /** The other half of an endpoint is the current one; a KeyError if there is none. */
    method AddOtherHalf(cur: WgPeer, left: Config) returns (whole: Option<Config>)
      ensures whole.None? <==> cur.endpoint.None? && (EndpointAddr in left.at) != (EndpointPort in left.at)
      ensures whole.Some? ==> whole.value.at == WithEndpoint(cur, left.at)
    {
      whole := Some(left);
      if EndpointAddr in left.at && EndpointPort !in left.at {
        if cur.endpoint.None? {
          return None;
        }
        whole := Some(Put(left, EndpointPort, Number(cur.endpoint.value.1)));
      } else if EndpointPort in left.at && EndpointAddr !in left.at {
        if cur.endpoint.None? {
          return None;
        }
        whole := Some(Put(left, EndpointAddr, AddrIs(cur.endpoint.value.0)));
      }
    }

    method Reconfigured(pk: Key, cur: WgPeer, config: Config, dryrun: bool) returns (r: Applied)
      requires Proper(config.at) && KernelOk(kernel)
      requires config.at[PublicKey].key == pk && pk in kernel.at && kernel.at[pk] == cur
      modifies this`kernel
      ensures r == Report(old(kernel), config)
      ensures kernel == if dryrun || r.KeyError? then old(kernel) else Wanted(old(kernel), config.at)
      ensures KernelOk(kernel)
    {
      var full := config;
      var lines := if Removes(config.at) then [Removing(pk)] else [];
      if !Removes(config.at) && AllowedIps !in config.at {
        full := Put(full, AllowedIps, Nets(cur.allowed));
      }
      var left, notes := DropUnchanged(Reported(pk, cur), full);
      FullNotes(pk, cur, config, full);
      if cur.endpoint.None? {
        HalfLeft(pk, cur, config.at);
      }
      var whole := AddOtherHalf(cur, left);
      if whole.None? {
        return KeyError;
      }
      left := whole.value;
      SentIsWanted(kernel, config.at);
      SkipIsRight(kernel, config);
      if Idle(cur, left.at) {
        AgreedIsWanted(kernel, config.at);
        return Done(lines + notes);
      }
      if !dryrun {
        SetPeer(left);
      }
      r := Done(lines + notes + [Reconfigure(pk), WgSet(pk)]);
    }
  }
}
