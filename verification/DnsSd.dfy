/**
 * A descriptor as DNS-SD properties (key/value strings of section 6.4 of
 * RFC 6763): addresses are packed, everything else is text (vula/peer.py,
 * vula/common.py).
 */
module DnsSd {
  import opened Addresses
  import opened OrderedDict
  import opened Peers
  import opened DescriptorText

  // ----- address lists -----

  function Pack4(ips: seq<IPv4>): Bytes {
    if ips == [] then [] else ips[0].octets + Pack4(ips[1..])
  }

  function Pack6(ips: seq<IPv6>): Bytes {
    if ips == [] then [] else ips[0].octets + Pack6(ips[1..])
  }

  /** None is the failed assertion: the length is not divisible. */
  function Unpack4(b: Bytes): Option<seq<IPv4>> {
    if |b| % 4 != 0 then None
    else Some(seq(|b| / 4, n requires 0 <= n < |b| / 4 => var ip: IPv4 := V4(b[n * 4..(n + 1) * 4]); ip))
  }

  function Unpack6(b: Bytes): Option<seq<IPv6>> {
    if |b| % 16 != 0 then None
    else Some(seq(|b| / 16, n requires 0 <= n < |b| / 16 => var ip: IPv6 := V6(b[n * 16..(n + 1) * 16]); ip))
  }

  lemma SliceBehind(front: Bytes, back: Bytes, a: nat, b: nat)
    requires |front| <= a <= b <= |front| + |back|
    ensures (front + back)[a..b] == back[a - |front|..b - |front|]
  {
  }

  lemma {:induction false} Pack4At(ips: seq<IPv4>, i: nat)
    ensures |Pack4(ips)| == 4 * |ips|
    ensures i < |ips| ==> Pack4(ips)[i * 4..(i + 1) * 4] == ips[i].octets
  {
    if ips != [] {
      var front, rest := ips[0].octets, Pack4(ips[1..]);
      Pack4At(ips[1..], if i == 0 then 0 else i - 1);
      if 0 < i < |ips| {
        SliceBehind(front, rest, i * 4, (i + 1) * 4);
      }
    }
  }

  lemma {:induction false} Pack6At(ips: seq<IPv6>, i: nat)
    ensures |Pack6(ips)| == 16 * |ips|
    ensures i < |ips| ==> Pack6(ips)[i * 16..(i + 1) * 16] == ips[i].octets
  {
    if ips != [] {
      var front, rest := ips[0].octets, Pack6(ips[1..]);
      Pack6At(ips[1..], if i == 0 then 0 else i - 1);
      if 0 < i < |ips| {
        SliceBehind(front, rest, i * 16, (i + 1) * 16);
      }
    }
  }

  /** Packing and unpacking are inverse: on all lists. */
  lemma UnpackPacked(v4s: seq<IPv4>, v6s: seq<IPv6>)
    ensures Unpack4(Pack4(v4s)) == Some(v4s) && Unpack6(Pack6(v6s)) == Some(v6s)
  {
    Pack4At(v4s, 0);
    Pack6At(v6s, 0);
    var u4, u6 := Unpack4(Pack4(v4s)).value, Unpack6(Pack6(v6s)).value;
    forall i | 0 <= i < |v4s| ensures u4[i] == v4s[i] {
      Pack4At(v4s, i);
    }
    forall i | 0 <= i < |v6s| ensures u6[i] == v6s[i] {
      Pack6At(v6s, i);
    }
    assert u4 == v4s && u6 == v6s;
  }

  lemma Pack4Unpacked(b: Bytes)
    requires |b| % 4 == 0
    ensures Pack4(Unpack4(b).value) == b
  {
    var ips := Unpack4(b).value;
    Pack4At(ips, 0);
    forall k | 0 <= k < |b| ensures Pack4(ips)[k] == b[k] {
      var i := k / 4;
      Pack4At(ips, i);
      assert Pack4(ips)[k] == Pack4(ips)[i * 4..(i + 1) * 4][k - i * 4];
    }
  }

  lemma Pack6Unpacked(b: Bytes)
    requires |b| % 16 == 0
    ensures Pack6(Unpack6(b).value) == b
  {
    var ips := Unpack6(b).value;
    Pack6At(ips, 0);
    forall k | 0 <= k < |b| ensures Pack6(ips)[k] == b[k] {
      var i := k / 16;
      Pack6At(ips, i);
      assert Pack6(ips)[k] == Pack6(ips)[i * 16..(i + 1) * 16][k - i * 16];
    }
  }

  /** And on all byte strings: they unpack exactly if their length is a multiple, and pack back to what they were. */
  lemma PackUnpacked(b: Bytes)
    ensures Unpack4(b).Some? <==> |b| % 4 == 0
    ensures Unpack4(b).Some? ==> Pack4(Unpack4(b).value) == b
    ensures Unpack6(b).Some? <==> |b| % 16 == 0
    ensures Unpack6(b).Some? ==> Pack6(Unpack6(b).value) == b
  {
    if |b| % 4 == 0 {
      Pack4Unpacked(b);
    }
    if |b| % 16 == 0 {
      Pack6Unpacked(b);
    }
  }

  // ----- properties -----

  /** The text encoding of the properties, UTF-8 in the source. */
  datatype TextCodec = TextCodec(encode: string -> Bytes, decode: Bytes -> Option<string>)

  ghost predicate Decodes(utf8: TextCodec) {
    forall s :: utf8.decode(utf8.encode(s)) == Some(s)
  }

  /** A value of None is a key without "=". */
  type Props = map<string, Option<Bytes>>

  /** `ip_address` of packed bytes. */
  function UnpackIp(b: Bytes): Option<IP> {
    if |b| == 4 then Some(V4(b)) else if |b| == 16 then Some(V6(b)) else None
  }

  datatype Value = Words(text: string) | Addr(ip: IP) | Addrs4(v4s: seq<IPv4>) | Addrs6(v6s: seq<IPv6>)

  /** One property as the value its key calls for; None is an exception. */
  function Decoded(key: string, v: Option<Bytes>, utf8: TextCodec): Option<Value> {
    var t := TagOf(key);
    if t.Some? && Packed(t.value) then
      if v.None? then None
      else
        match t.value
        case P => (match UnpackIp(v.value) case None => None case Some(ip) => Some(Addr(ip)))
        case V4a => (match Unpack4(v.value) case None => None case Some(ips) => Some(Addrs4(ips)))
        case _ => (match Unpack6(v.value) case None => None case Some(ips) => Some(Addrs6(ips)))
    else if v.None? then Some(Words(""))
    else (match utf8.decode(v.value) case None => None case Some(text) => Some(Words(text)))
  }

  predicate Decodable(props: Props, utf8: TextCodec) {
    forall k | k in props :: Decoded(k, props[k], utf8).Some?
  }

  function Values(props: Props, utf8: TextCodec): map<string, Value>
    requires Decodable(props, utf8)
  {
    map k | k in props :: Decoded(k, props[k], utf8).value
  }

  /** The texts among the values, under their keys; r is empty by default. */
  function Texts(data: map<string, Value>): map<Tag, string> {
    map t: Tag | t in TAGS && ((TagText(t) in data && data[TagText(t)].Words?) || t == R) ::
      if TagText(t) in data && data[TagText(t)].Words? then data[TagText(t)].text else ""
  }

  function FieldOf(data: map<string, Value>, t: Tag): Option<Value> {
    if TagText(t) in data then Some(data[TagText(t)]) else None
  }

  predicate AllKnown(data: map<string, Value>) {
    forall k | k in data :: TagOf(k).Some?
  }

  /** The schema over values that are unpacked already: addresses, and the texts of all other fields. */
  function AcceptFields(p: Option<Value>, v4a: Option<Value>, v6a: Option<Value>, texts: map<Tag, string>, cs: Codecs)
    : Option<Descriptor>
  {
    Assemble(
      if p.None? then Some(None) else if p.value.Addr? then Some(Some(p.value.ip)) else None,
      if v4a.None? then Some(None) else if v4a.value.Addrs4? then Some(Some(v4a.value.v4s)) else None,
      if v6a.None? then Some(None) else if v6a.value.Addrs6? then Some(Some(v6a.value.v6s)) else None,
      texts, cs)
  }

  function Accept(data: map<string, Value>, cs: Codecs): Option<Descriptor> {
    if !AllKnown(data) then None
    else AcceptFields(FieldOf(data, P), FieldOf(data, V4a), FieldOf(data, V6a), Texts(data), cs)
  }

  /** The descriptor of a set of properties; None where the source raises. */
  function FromProps(props: Props, cs: Codecs, utf8: TextCodec): Option<Descriptor> {
    if Decodable(props, utf8) then Accept(Values(props, utf8), cs) else None
  }

  /** `from_zeroconf_properties`: property by property, in whatever order. */
  method FromZeroconf(props: Props, cs: Codecs, utf8: TextCodec) returns (d: Option<Descriptor>)
    ensures d == FromProps(props, cs, utf8)
  {
    var data: map<string, Value> := map[];
    var todo := props.Keys;
    while todo != {}
      invariant todo <= props.Keys && data.Keys == props.Keys - todo
      invariant forall k | k in data :: Decoded(k, props[k], utf8) == Some(data[k])
      decreases todo
    {
      var k :| k in todo;
      var v := Decoded(k, props[k], utf8);
      if v.None? {
        return None;
      }
      data := data[k := v.value];
      todo := todo - {k};
    }
    assert data == Values(props, utf8);
    d := Accept(data, cs);
  }

  /** The bytes of one field. */
  function Encoded(d: Descriptor, cs: Codecs, utf8: TextCodec, t: Tag): Bytes
    requires TextOf(d, cs, t).Some?
  {
    match t
    case P => d.p.value.octets
    case V4a => Pack4(d.v4a.value)
    case V6a => Pack6(d.v6a.value)
    case _ => utf8.encode(TextOf(d, cs, t).value)
  }

  function TagTexts(): set<string> {
    set t | t in TAGS :: TagText(t)
  }

  function AsProps(d: Descriptor, cs: Codecs, utf8: TextCodec): Props {
    map k: string | k in TagTexts() && TagOf(k).Some? && TextOf(d, cs, TagOf(k).value).Some? ::
      Some(Encoded(d, cs, utf8, TagOf(k).value))
  }

  lemma TextOfTag(t: Tag)
    ensures TagText(t) in TagTexts()
  {
    AllTags(t);
  }

  lemma TagOfText(k: string)
    requires k in TagTexts()
    ensures TagOf(k).Some? && TagText(TagOf(k).value) == k
  {
    var t :| t in TAGS && TagText(t) == k;
    TagTextParses(t);
  }

  /** The properties of these fields only. */
  function PropsOf(d: Descriptor, cs: Codecs, utf8: TextCodec, tags: seq<Tag>): Props {
    map k | k in AsProps(d, cs, utf8) && TagOf(k).value in tags :: AsProps(d, cs, utf8)[k]
  }

  lemma PropsOfOneMore(d: Descriptor, cs: Codecs, utf8: TextCodec, tags: seq<Tag>, t: Tag)
    ensures PropsOf(d, cs, utf8, tags + [t])
         == if TextOf(d, cs, t).Some? then PropsOf(d, cs, utf8, tags)[TagText(t) := Some(Encoded(d, cs, utf8, t))]
            else PropsOf(d, cs, utf8, tags)
  {
    TagTextParses(t);
    TextOfTag(t);
    forall k | k in AsProps(d, cs, utf8) && TagOf(k) == Some(t) ensures k == TagText(t) {
      TagOfText(k);
    }
  }

  lemma PropsOfAll(d: Descriptor, cs: Codecs, utf8: TextCodec)
    ensures PropsOf(d, cs, utf8, TAGS) == AsProps(d, cs, utf8)
  {
    forall k | k in AsProps(d, cs, utf8) ensures TagOf(k).value in TAGS {
      AllTags(TagOf(k).value);
    }
  }

  /** `as_zeroconf_properties`: field by field. */
  method AsZeroconf(d: Descriptor, cs: Codecs, utf8: TextCodec) returns (props: Props)
    ensures props == AsProps(d, cs, utf8)
  {
    props := map[];
    for i := 0 to |TAGS|
      invariant props == PropsOf(d, cs, utf8, TAGS[..i])
    {
      var t := TAGS[i];
      PropsOfOneMore(d, cs, utf8, TAGS[..i], t);
      assert TAGS[..i + 1] == TAGS[..i] + [t];
      if TextOf(d, cs, t).Some? {
        props := props[TagText(t) := Some(Encoded(d, cs, utf8, t))];
      }
    }
    assert TAGS[..|TAGS|] == TAGS;
    PropsOfAll(d, cs, utf8);
  }

  // ----- properties without a value -----

  /** A key without a value is read as the empty text, where a text is asked for. */
  lemma BareTextKey(props: Props, k: string, cs: Codecs, utf8: TextCodec)
    requires Decodes(utf8) && TagOf(k) !in {Some(P), Some(V4a), Some(V6a)}
    ensures FromProps(props[k := None], cs, utf8) == FromProps(props[k := Some(utf8.encode(""))], cs, utf8)
  {
    var bare, empty := props[k := None], props[k := Some(utf8.encode(""))];
    assert Decoded(k, None, utf8) == Decoded(k, Some(utf8.encode("")), utf8);
    assert bare[k].None? && empty[k] == Some(utf8.encode(""));
    forall j | j in bare ensures Decoded(j, bare[j], utf8) == Decoded(j, empty[j], utf8) {
      assert j == k || (j in props && bare[j] == props[j] && empty[j] == props[j]);
    }
    assert bare.Keys == empty.Keys;
    if Decodable(bare, utf8) && Decodable(empty, utf8) {
      assert Values(bare, utf8) == Values(empty, utf8);
    }
  }

  /** Where addresses are asked for it raises, and so does a key that no field has. */
  lemma BareAddressKey(props: Props, k: string, cs: Codecs, utf8: TextCodec)
    requires k in props
    requires TagOf(k).None? || (TagOf(k) in {Some(P), Some(V4a), Some(V6a)} && props[k].None?)
    ensures FromProps(props, cs, utf8).None?
  {
    if TagOf(k).Some? {
      assert Decoded(k, props[k], utf8).None?;
    }
  }

  lemma FieldsWithout(data: map<string, Value>, k: string)
    requires k !in data && TagOf(k) == Some(R)
    ensures Texts(data) == Texts(data[k := Words("")])
    ensures forall t | t != R :: FieldOf(data, t) == FieldOf(data[k := Words("")], t)
  {
    forall t | TagText(t) == k ensures t == R {
      TagTextParses(t);
    }
  }

  /** Networks that are not given are the empty list of them. */
  lemma NotGivenDecodes(props: Props, k: string, utf8: TextCodec)
    requires k !in props && TagOf(k) == Some(R)
    ensures Decodable(props, utf8) <==> Decodable(props[k := None], utf8)
    ensures Decodable(props, utf8) ==> Values(props[k := None], utf8) == Values(props, utf8)[k := Words("")]
  {
    var more := props[k := None];
    assert Decoded(k, None, utf8) == Some(Words(""));
    forall j | j in props ensures j in more && more[j] == props[j] {
    }
  }

  lemma NoneUnknown(data: map<string, Value>, k: string, v: Value)
    requires k !in data && TagOf(k).Some?
    ensures AllKnown(data) <==> AllKnown(data[k := v])
  {
    forall j | j in data ensures j in data[k := v] {
    }
  }

  lemma NotGivenAccepted(data: map<string, Value>, more: map<string, Value>, cs: Codecs)
    requires AllKnown(data) == AllKnown(more)
    requires Texts(data) == Texts(more) && FieldOf(data, P) == FieldOf(more, P)
    requires FieldOf(data, V4a) == FieldOf(more, V4a) && FieldOf(data, V6a) == FieldOf(more, V6a)
    ensures Accept(data, cs) == Accept(more, cs)
  {
  }

  lemma NetworksNotGiven(props: Props, k: string, cs: Codecs, utf8: TextCodec)
    requires k !in props && TagOf(k) == Some(R)
    ensures FromProps(props, cs, utf8) == FromProps(props[k := None], cs, utf8)
  {
    NotGivenDecodes(props, k, utf8);
    if Decodable(props, utf8) {
      var data := Values(props, utf8);
      FieldsWithout(data, k);
      NoneUnknown(data, k, Words(""));
      NotGivenAccepted(data, data[k := Words("")], cs);
    }
  }

  // ----- round trip -----

  lemma PropAt(d: Descriptor, cs: Codecs, utf8: TextCodec, t: Tag)
    ensures TagText(t) in AsProps(d, cs, utf8) <==> TextOf(d, cs, t).Some?
    ensures TextOf(d, cs, t).Some? ==> AsProps(d, cs, utf8)[TagText(t)] == Some(Encoded(d, cs, utf8, t))
  {
    TagTextParses(t);
    TextOfTag(t);
  }

  /** Each property decodes to the value it was made from. */
  lemma PropDecodes(d: Descriptor, cs: Codecs, utf8: TextCodec, t: Tag)
    requires Decodes(utf8) && TextOf(d, cs, t).Some?
    ensures Decoded(TagText(t), Some(Encoded(d, cs, utf8, t)), utf8) ==
              Some(match t
                   case P => Addr(d.p.value)
                   case V4a => Addrs4(d.v4a.value)
                   case V6a => Addrs6(d.v6a.value)
                   case _ => Words(TextOf(d, cs, t).value))
  {
    TagTextParses(t);
    if t == V4a {
      UnpackPacked(d.v4a.value, []);
    }
    if t == V6a {
      UnpackPacked([], d.v6a.value);
    }
  }

  lemma PropsDecode(d: Descriptor, cs: Codecs, utf8: TextCodec, k: string)
    requires Decodes(utf8) && k in AsProps(d, cs, utf8)
    ensures TagOf(k).Some? && Decoded(k, AsProps(d, cs, utf8)[k], utf8).Some?
  {
    TagOfText(k);
    PropDecodes(d, cs, utf8, TagOf(k).value);
  }

  lemma ValueAt(d: Descriptor, cs: Codecs, utf8: TextCodec, t: Tag)
    requires Decodes(utf8) && Decodable(AsProps(d, cs, utf8), utf8)
    ensures FieldOf(Values(AsProps(d, cs, utf8), utf8), t) ==
              if TextOf(d, cs, t).None? then None
              else Some(match t
                        case P => Addr(d.p.value)
                        case V4a => Addrs4(d.v4a.value)
                        case V6a => Addrs6(d.v6a.value)
                        case _ => Words(TextOf(d, cs, t).value))
  {
    PropAt(d, cs, utf8, t);
    if TextOf(d, cs, t).Some? {
      PropDecodes(d, cs, utf8, t);
    }
  }

  lemma TextsRead(data: map<string, Value>, t: Tag, text: Option<string>)
    requires FieldOf(data, t) == match text { case None => None case Some(s) => Some(Words(s)) }
    requires t == R ==> text.Some?
    ensures TextAt(Texts(data), t) == text
  {
    AllTags(t);
  }

  lemma ValuesAccepted(d: Descriptor, cs: Codecs, utf8: TextCodec)
    requires Valid(d, cs) && AllFaithful(cs) && Decodes(utf8)
    requires Decodable(AsProps(d, cs, utf8), utf8)
    requires forall k | k in AsProps(d, cs, utf8) :: TagOf(k).Some?
    ensures Accept(Values(AsProps(d, cs, utf8), utf8), cs) == Some(d)
  {
    var data := Values(AsProps(d, cs, utf8), utf8);
    forall t | !Packed(t) ensures TextAt(Texts(data), t) == TextOf(d, cs, t) {
      ValueAt(d, cs, utf8, t);
      TextsRead(data, t, TextOf(d, cs, t));
    }
    ValueAt(d, cs, utf8, P);
    ValueAt(d, cs, utf8, V4a);
    ValueAt(d, cs, utf8, V6a);
    TextsAssemble(Texts(data), d, cs);
  }

  /** A valid descriptor comes back from its properties as it was, whatever its host name ends in. */
  lemma DnsSdRoundTrip(d: Descriptor, cs: Codecs, utf8: TextCodec)
    requires Valid(d, cs) && AllFaithful(cs) && Decodes(utf8)
    ensures FromProps(AsProps(d, cs, utf8), cs, utf8) == Some(d)
  {
    var props := AsProps(d, cs, utf8);
    forall k | k in props ensures TagOf(k).Some? && Decoded(k, props[k], utf8).Some? {
      PropsDecode(d, cs, utf8, k);
    }
    ValuesAccepted(d, cs, utf8);
  }
}
