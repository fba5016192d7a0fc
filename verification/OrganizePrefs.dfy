/** What an edit does to a preference: which edits are taken, and what becomes of a list of networks. */
module OrganizePrefs {
  import opened Addresses
  import opened Nets
  import opened OrderedDict
  import opened Text
  import opened OrganizeModel

  predicate IsList(pref: Pref) {
    pref.SubnetsAllowed? || pref.SubnetsForbidden? || pref.LocalDomains? || pref.IfacePrefixAllowed?
  }

  predicate IsNets(pref: Pref) {
    pref.SubnetsAllowed? || pref.SubnetsForbidden?
  }

  /** The preference is of a kind that has the operation, and the text is of that kind. */
  predicate Takes(op: Operation, pref: Pref, v: Input) {
    if IsList(pref) then !op.SetOp? && (IsNets(pref) && op.AddOp? ==> v.asNet.Some?)
    else
      && op.SetOp? && !pref.Unknown?
      && (if pref.ExpireTime? then v.asNumber.Some? else if pref.PrimaryIp? then v.asIp.Some? else v.asSwitch.Some?)
  }

  lemma EditIsTaken(p: Prefs, op: Operation, pref: Pref, v: Input)
    ensures EditedPrefs(p, op, pref, v).Some? <==> Takes(op, pref, v)
  {
  }

  // ----- lists of networks -----

  /** How often x is listed. */
  function Times<T(==)>(s: seq<T>, x: T): nat {
    multiset(s)[x]
  }

  lemma {:induction false} WithoutConcat<T>(s: seq<T>, t: seq<T>, x: T)
    ensures Without(s + t, x) == Without(s, x) + Without(t, x)
  {
    if s == [] {
      assert s + t == t;
    } else {
      assert (s + t)[1..] == s[1..] + t;
      WithoutConcat(s[1..], t, x);
    }
  }

  lemma TimesSnoc<T>(s: seq<T>, x: T)
    ensures Times(s + [x], x) == Times(s, x) + 1
    ensures Times(s, x) == 0 <==> x !in s
  {
    assert multiset(s + [x]) == multiset(s) + multiset([x]);
    assert x in multiset(s) <==> x in s;
  }

  /** The text reads as the listed network that is written like this, if there is one. */
  predicate Reads(v: Input, s: seq<Net>) {
    forall n | n in s && ShowNet(n) == v.text :: v.asNet == Some(n)
  }

  /** Of the networks that are not meant none is dropped, and they keep their order. */
  lemma {:induction false} OthersStay(s: seq<Net>, v: Input, net: Net)
    requires v.asNet == Some(net) && Reads(v, s)
    ensures Without(WithoutText(s, v.text), net) == Without(s, net)
  {
    if s != [] {
      assert s[0] in s;
      OthersStay(s[1..], v, net);
      var rest := WithoutText(s[1..], v.text);
      assert ([s[0]] + rest)[1..] == rest && [] + rest == rest;
    }
  }

  /**
   * After an addition the network stands at the end, and it is listed once if and only if
   * it was given by the text it is written with, or was not listed before. The others keep
   * their order.
   */
  lemma AddedOnceExactly(s: seq<Net>, v: Input, net: Net)
    requires v.asNet == Some(net)
    ensures EditedNets(s, AddOp, v).Some?
    ensures var added := EditedNets(s, AddOp, v).value;
            && added[|added| - 1] == net
            && (Times(added, net) == 1 <==> v.text == ShowNet(net) || net !in s)
            && (Reads(v, s) ==> Without(added, net) == Without(s, net))
  {
    var rest := WithoutText(s, v.text);
    TimesSnoc(rest, net);
    WithoutConcat(rest, [net], net);
    if Reads(v, s) {
      OthersStay(s, v, net);
    }
  }

  /**
   * After a removal the network is not listed any more if and only if it was given by the
   * text it is written with, or was not listed before. The others keep their order.
   */
  lemma RemovedExactly(s: seq<Net>, v: Input, net: Net)
    requires v.asNet == Some(net)
    ensures EditedNets(s, RemoveOp, v).Some?
    ensures var removed := EditedNets(s, RemoveOp, v).value;
            && (net !in removed <==> v.text == ShowNet(net) || net !in s)
            && (Reads(v, s) ==> Without(removed, net) == Without(s, net))
  {
    if Reads(v, s) {
      OthersStay(s, v, net);
    }
  }

  // ----- what an edit leaves -----

  /** A text list has the text once, at the end, or not at all; the others keep their order. */
  predicate TextsEdited(s: seq<string>, op: Operation, x: string, t: seq<string>) {
    && Without(t, x) == Without(s, x)
    && (if op.AddOp? then t != [] && t[|t| - 1] == x && Times(t, x) == 1 else x !in t)
  }

  ghost predicate NetsLeft(s: seq<Net>, v: Input, t: seq<Net>) {
    && (forall n :: Times(t, n) == if ShowNet(n) == v.text then 0 else Times(s, n))
    && (v.asNet.Some? && Reads(v, s) ==> Without(t, v.asNet.value) == Without(s, v.asNet.value))
  }

  /**
   * A list of networks has none that is written like the text, but for the one it stands for,
   * which is added at the end; the others are as often there, and keep their order.
   */
  ghost predicate NetsEdited(s: seq<Net>, op: Operation, v: Input, t: seq<Net>) {
    if op.AddOp? then v.asNet.Some? && t != [] && t[|t| - 1] == v.asNet.value && NetsLeft(s, v, t[..|t| - 1])
    else NetsLeft(s, v, t)
  }

  /** A switch other than the one for pinning new peers. */
  predicate IsSwitch(pref: Pref) {
    !IsList(pref) && !pref.ExpireTime? && !pref.PrimaryIp? && !pref.PinNewPeers? && !pref.Unknown?
  }

  /** Exactly the named preference differs, and it is what the edit makes of it. */
  ghost predicate PrefEdited(p: Prefs, op: Operation, pref: Pref, v: Input, q: Prefs) {
    && (if pref.SubnetsAllowed? then NetsEdited(p.subnetsAllowed, op, v, q.subnetsAllowed)
        else q.subnetsAllowed == p.subnetsAllowed)
    && (if pref.SubnetsForbidden? then NetsEdited(p.subnetsForbidden, op, v, q.subnetsForbidden)
        else q.subnetsForbidden == p.subnetsForbidden)
    && (if pref.LocalDomains? then TextsEdited(p.localDomains, op, v.text, q.localDomains)
        else q.localDomains == p.localDomains)
    && (if pref.IfacePrefixAllowed? then TextsEdited(p.ifacePrefixAllowed, op, v.text, q.ifacePrefixAllowed)
        else q.ifacePrefixAllowed == p.ifacePrefixAllowed)
    && (if pref.ExpireTime? then v.asNumber == Some(q.expireTime) else q.expireTime == p.expireTime)
    && (if pref.PrimaryIp? then v.asIp == Some(q.primaryIp) else q.primaryIp == p.primaryIp)
    && (if pref.PinNewPeers? then v.asSwitch == Some(q.pinNewPeers) else q.pinNewPeers == p.pinNewPeers)
    && (forall s | s != pref :: s in q.switches <==> s in p.switches)
    && (IsSwitch(pref) ==> v.asSwitch == Some(pref in q.switches))
    && (!IsSwitch(pref) ==> (pref in q.switches <==> pref in p.switches))
  }

  lemma {:induction false} TextLeft(s: seq<Net>, text: string, n: Net)
    ensures Times(WithoutText(s, text), n) == if ShowNet(n) == text then 0 else Times(s, n)
  {
    if s != [] {
      TextLeft(s[1..], text, n);
      assert s == [s[0]] + s[1..];
    }
  }

  lemma LeftExactly(s: seq<Net>, v: Input)
    ensures NetsLeft(s, v, WithoutText(s, v.text))
  {
    forall n ensures Times(WithoutText(s, v.text), n) == if ShowNet(n) == v.text then 0 else Times(s, n) {
      TextLeft(s, v.text, n);
    }
    if v.asNet.Some? && Reads(v, s) {
      OthersStay(s, v, v.asNet.value);
    }
  }

  lemma NetsExactly(s: seq<Net>, op: Operation, v: Input)
    requires EditedNets(s, op, v).Some?
    ensures NetsEdited(s, op, v, EditedNets(s, op, v).value)
  {
    LeftExactly(s, v);
    var r := WithoutText(s, v.text);
    if op.AddOp? {
      assert (r + [v.asNet.value])[..|r|] == r;
    }
  }

  lemma TextsExactly(s: seq<string>, op: Operation, x: string)
    requires EditedTexts(s, op, x).Some?
    ensures TextsEdited(s, op, x, EditedTexts(s, op, x).value)
  {
    var r := Without(s, x);
    WithoutAbsent(r, x);
    TimesSnoc(r, x);
    WithoutConcat(r, [x], x);
  }

  lemma SubnetsAllowedPut(p: Prefs, op: Operation, v: Input, t: seq<Net>)
    requires NetsEdited(p.subnetsAllowed, op, v, t)
    ensures PrefEdited(p, op, SubnetsAllowed, v, p.(subnetsAllowed := t))
  {
  }

  lemma SubnetsAllowedEdited(p: Prefs, op: Operation, v: Input)
    requires EditedPrefs(p, op, SubnetsAllowed, v).Some?
    ensures PrefEdited(p, op, SubnetsAllowed, v, EditedPrefs(p, op, SubnetsAllowed, v).value)
  {
    NetsExactly(p.subnetsAllowed, op, v);
    SubnetsAllowedPut(p, op, v, EditedNets(p.subnetsAllowed, op, v).value);
  }

  lemma SubnetsForbiddenPut(p: Prefs, op: Operation, v: Input, t: seq<Net>)
    requires NetsEdited(p.subnetsForbidden, op, v, t)
    ensures PrefEdited(p, op, SubnetsForbidden, v, p.(subnetsForbidden := t))
  {
  }

  lemma SubnetsForbiddenEdited(p: Prefs, op: Operation, v: Input)
    requires EditedPrefs(p, op, SubnetsForbidden, v).Some?
    ensures PrefEdited(p, op, SubnetsForbidden, v, EditedPrefs(p, op, SubnetsForbidden, v).value)
  {
    NetsExactly(p.subnetsForbidden, op, v);
    SubnetsForbiddenPut(p, op, v, EditedNets(p.subnetsForbidden, op, v).value);
  }

  lemma LocalDomainsPut(p: Prefs, op: Operation, v: Input, t: seq<string>)
    requires TextsEdited(p.localDomains, op, v.text, t)
    ensures PrefEdited(p, op, LocalDomains, v, p.(localDomains := t))
  {
  }

  lemma LocalDomainsEdited(p: Prefs, op: Operation, v: Input)
    requires EditedPrefs(p, op, LocalDomains, v).Some?
    ensures PrefEdited(p, op, LocalDomains, v, EditedPrefs(p, op, LocalDomains, v).value)
  {
    TextsExactly(p.localDomains, op, v.text);
    LocalDomainsPut(p, op, v, EditedTexts(p.localDomains, op, v.text).value);
  }

  lemma IfacePrefixAllowedPut(p: Prefs, op: Operation, v: Input, t: seq<string>)
    requires TextsEdited(p.ifacePrefixAllowed, op, v.text, t)
    ensures PrefEdited(p, op, IfacePrefixAllowed, v, p.(ifacePrefixAllowed := t))
  {
  }

  lemma IfacePrefixAllowedEdited(p: Prefs, op: Operation, v: Input)
    requires EditedPrefs(p, op, IfacePrefixAllowed, v).Some?
    ensures PrefEdited(p, op, IfacePrefixAllowed, v, EditedPrefs(p, op, IfacePrefixAllowed, v).value)
  {
    TextsExactly(p.ifacePrefixAllowed, op, v.text);
    IfacePrefixAllowedPut(p, op, v, EditedTexts(p.ifacePrefixAllowed, op, v.text).value);
  }

  /** What an edit that is taken leaves of the preferences. */
  lemma PrefsExactly(p: Prefs, op: Operation, pref: Pref, v: Input)
    requires EditedPrefs(p, op, pref, v).Some?
    ensures PrefEdited(p, op, pref, v, EditedPrefs(p, op, pref, v).value)
  {
    match pref
    case SubnetsAllowed => SubnetsAllowedEdited(p, op, v);
    case SubnetsForbidden => SubnetsForbiddenEdited(p, op, v);
    case LocalDomains => LocalDomainsEdited(p, op, v);
    case IfacePrefixAllowed => IfacePrefixAllowedEdited(p, op, v);
    case _ =>
  }

  // ----- the defaults -----

  lemma TenText()
    ensures ShowNet(Net(V4([10, 0, 0, 0]), 8)) == "10.0.0.0/8"
  {
    ShownQuads(10, 0, 0, 0, 8, "10", "0", "0", "0", "8");
  }

  lemma HomeText()
    ensures ShowNet(Net(V4([192, 168, 0, 0]), 16)) == "192.168.0.0/16"
  {
    assert Decimal(19) == "19" && Decimal(16) == "16";
    ShownQuads(192, 168, 0, 0, 16, "192", "168", "0", "0", "16");
  }

  lemma MiddleText()
    ensures ShowNet(Net(V4([172, 16, 0, 0]), 12)) == "172.16.0.0/12"
  {
    assert Decimal(17) == "17";
    ShownQuads(172, 16, 0, 0, 12, "172", "16", "0", "0", "12");
  }

  lemma DefaultPrivateNets()
    ensures var nets := InitialState().prefs.subnetsAllowed;
            && |nets| == 6 && ShowNet(nets[3]) == "10.0.0.0/8" && ShowNet(nets[4]) == "192.168.0.0/16"
            && ShowNet(nets[5]) == "172.16.0.0/12"
  {
    TenText();
    HomeText();
    MiddleText();
  }

  lemma WrittenAlike(a: Net, b: Net, text: string)
    requires a == b && ShowNet(b) == text
    ensures ShowNet(a) == text
  {
  }

  /** The other preferences, before anything is edited. */
  lemma DefaultRest()
    ensures var p := InitialState().prefs;
            && p.localDomains == ["local.", "local"] && p.ifacePrefixAllowed == ["en", "eth", "wl", "thunderbolt"]
            && !p.pinNewPeers && p.expireTime == 3600 && p.primaryIp == V4([0, 0, 0, 0])
            && forall s :: s in p.switches <==>
                 s in [AutoRepair, AcceptDefaultRoute, OverwriteUnpinned, EnableIpv6, EnableIpv4]
  {
  }

  lemma DefaultsAre()
    ensures var nets := InitialState().prefs.subnetsAllowed;
            |nets| == 6 && nets[0] == IPV6_LL && nets[1] == IPV6_ULA && nets[2] == IPV4_LL
  {
  }

  lemma DefaultLocalNets(nets: seq<Net>)
    requires |nets| == 6 && nets[0] == IPV6_LL && nets[1] == IPV6_ULA && nets[2] == IPV4_LL
    ensures ShowNet(nets[0]) == "fe80::/10" && ShowNet(nets[1]) == "fc00::/7" && ShowNet(nets[2]) == "169.254.0.0/16"
  {
    FixedTexts();
    WrittenAlike(nets[0], IPV6_LL, "fe80::/10");
    WrittenAlike(nets[1], IPV6_ULA, "fc00::/7");
    WrittenAlike(nets[2], IPV4_LL, "169.254.0.0/16");
  }

  /** The networks that are allowed by default, as they are written in the source; none is forbidden. */
  lemma DefaultNets()
    ensures InitialState().prefs.subnetsForbidden == []
    ensures var nets := InitialState().prefs.subnetsAllowed;
            && |nets| == 6
            && ShowNet(nets[0]) == "fe80::/10" && ShowNet(nets[1]) == "fc00::/7" && ShowNet(nets[2]) == "169.254.0.0/16"
            && ShowNet(nets[3]) == "10.0.0.0/8" && ShowNet(nets[4]) == "192.168.0.0/16"
            && ShowNet(nets[5]) == "172.16.0.0/12"
  {
    DefaultsAre();
    DefaultLocalNets(InitialState().prefs.subnetsAllowed);
    DefaultPrivateNets();
  }
}
