/**
 * A descriptor as text: "key=value;" for every field it has, in the order of the
 * keys, and the parser that reads it back (vula/peer.py). The signature is over
 * the same text without the signature field.
 */
module DescriptorText {
  import opened Addresses
  import opened OrderedDict
  import opened Peers
  import opened Text

  // ----- field values -----

  /** The text form of one type of value; parse is also what the schema accepts. */
  datatype Codec<!T> = Codec(valid: T -> bool, show: T -> string, parse: string -> Option<T>)

  /** No semicolon, and nothing at the end that stripping would take off. */
  predicate Plain(s: string) {
    ';' !in s && Rstrip(s) == s
  }

  ghost predicate Faithful<T(!new)>(c: Codec<T>) {
    forall v | c.valid(v) :: Plain(c.show(v)) && c.parse(c.show(v)) == Some(v)
  }

  /** The text of one list item: no separator in it, no space around it, and not empty. */
  predicate Token(s: string) {
    s != "" && !IsSpace(s[0]) && !IsSpace(s[|s| - 1]) && ',' !in s && ';' !in s
  }

  ghost predicate FaithfulItems<T(!new)>(c: Codec<T>) {
    forall v | c.valid(v) :: Token(c.show(v)) && c.parse(c.show(v)) == Some(v)
  }

  function ShowAll<T>(c: Codec<T>, vs: seq<T>): seq<string> {
    if vs == [] then [] else [c.show(vs[0])] + ShowAll(c, vs[1..])
  }

  /** Every piece that is not empty is stripped and parsed; None is the exception of one that cannot be. */
  function ParseAll<T>(c: Codec<T>, pieces: seq<string>): Option<seq<T>> {
    if pieces == [] then Some([])
    else if pieces[0] == "" then ParseAll(c, pieces[1..])
    else
      match c.parse(Strip(pieces[0]))
      case None => None
      case Some(v) =>
        match ParseAll(c, pieces[1..])
        case None => None
        case Some(vs) => Some([v] + vs)
  }

  predicate AllValid<T>(c: Codec<T>, vs: seq<T>) {
    forall i | 0 <= i < |vs| :: c.valid(vs[i])
  }

  /** The comma-separated text of a list. */
  function ListText<T>(c: Codec<T>, vs: seq<T>): string {
    Join(",", ShowAll(c, vs))
  }

  function ListCodec<T>(c: Codec<T>): Codec<seq<T>> {
    Codec(vs => AllValid(c, vs), vs => ListText(c, vs), text => ParseAll(c, Split(text, ',')))
  }

  /**
   * Base64 keys by length, single addresses, integers, switches; nets brings the text
   * of a list of networks into its standard form.
   */
  datatype Codecs = Codecs(
    key32: Codec<Key>, key64: Codec<Key>, ip: Codec<IP>, v4: Codec<IPv4>, v6: Codec<IPv6>,
    num: Codec<int>, flag: Codec<bool>, nets: string -> Option<string>)
  {
    function V4s(): Codec<seq<IPv4>> {
      ListCodec(v4)
    }

    function V6s(): Codec<seq<IPv6>> {
      ListCodec(v6)
    }
  }

  ghost predicate AllFaithful(cs: Codecs) {
    Faithful(cs.key32) && Faithful(cs.key64) && Faithful(cs.ip) && FaithfulItems(cs.v4) && FaithfulItems(cs.v6)
    && Faithful(cs.num) && Faithful(cs.flag)
  }

  // ----- address lists -----

  lemma TokenStripped(s: string)
    requires Token(s)
    ensures Strip(s) == s && Rstrip(s) == s
  {
  }

  lemma OnePiece(s: string, c: char)
    requires c !in s
    ensures Split(s, c) == [s]
  {
    FindAt(s, c, |s|);
  }

  /** The pieces of a joined list are its items, and one empty piece if there are none. */
  lemma {:induction false} JoinSplits<T(!new)>(c: Codec<T>, vs: seq<T>)
    requires FaithfulItems(c) && AllValid(c, vs)
    ensures Split(ListText(c, vs), ',') == if vs == [] then [""] else ShowAll(c, vs)
  {
    if vs == [] {
      OnePiece("", ',');
    } else if |vs| == 1 {
      assert ShowAll(c, vs) == [c.show(vs[0])];
      OnePiece(c.show(vs[0]), ',');
    } else {
      var rest := ShowAll(c, vs[1..]);
      assert ShowAll(c, vs) == [c.show(vs[0])] + rest && ShowAll(c, vs)[1..] == rest;
      assert ListText(c, vs) == c.show(vs[0]) + [','] + ListText(c, vs[1..]);
      JoinSplits(c, vs[1..]);
      SplitAt(c.show(vs[0]), ',', ListText(c, vs[1..]));
    }
  }

  lemma {:induction false} ShownParse<T(!new)>(c: Codec<T>, vs: seq<T>)
    requires FaithfulItems(c) && AllValid(c, vs)
    ensures ParseAll(c, ShowAll(c, vs)) == Some(vs)
  {
    if vs != [] {
      ShownParse(c, vs[1..]);
      assert c.valid(vs[0]);
      TokenStripped(c.show(vs[0]));
      var pieces := [c.show(vs[0])] + ShowAll(c, vs[1..]);
      assert pieces[1..] == ShowAll(c, vs[1..]);
      assert [vs[0]] + vs[1..] == vs;
    }
  }

  lemma {:induction false} ListTextPlain<T(!new)>(c: Codec<T>, vs: seq<T>)
    requires FaithfulItems(c) && AllValid(c, vs)
    ensures ';' !in ListText(c, vs)
    ensures vs != [] ==> ListText(c, vs) != "" && !IsSpace(ListText(c, vs)[|ListText(c, vs)| - 1])
  {
    if |vs| == 1 {
      assert ShowAll(c, vs) == [c.show(vs[0])];
    } else if |vs| > 1 {
      ListTextPlain(c, vs[1..]);
      var rest := ShowAll(c, vs[1..]);
      assert ShowAll(c, vs) == [c.show(vs[0])] + rest && ShowAll(c, vs)[1..] == rest;
      var front := c.show(vs[0]) + [','];
      assert ListText(c, vs) == front + ListText(c, vs[1..]);
      assert Token(c.show(vs[0]));
    }
  }

  /** Splitting, stripping and parsing undoes joining: on every list, the empty one included. */
  lemma ListRoundTrip<T(!new)>(c: Codec<T>, vs: seq<T>)
    requires FaithfulItems(c) && AllValid(c, vs)
    ensures ParseAll(c, Split(ListText(c, vs), ',')) == Some(vs)
    ensures Plain(ListText(c, vs))
  {
    JoinSplits(c, vs);
    ListTextPlain(c, vs);
    if vs == [] {
      assert ParseAll(c, [""][1..]) == Some([]);
    } else {
      ShownParse(c, vs);
    }
  }

  // ----- what the schema accepts -----

  predicate NameChar(c: char) {
    'a' <= c <= 'z' || 'A' <= c <= 'Z' || '0' <= c <= '9' || c == '.' || c == '-'
  }

  predicate NameChars(s: string) {
    s != "" && forall c | c in s :: NameChar(c)
  }

  predicate EndsInNewline(s: string) {
    s != "" && s[|s| - 1] == '\n'
  }

  /** The schema's pattern: its final "$" also matches in front of a newline at the end. */
  predicate HostnameOk(s: string) {
    |s| < 256 && (NameChars(s) || (EndsInNewline(s) && NameChars(s[..|s| - 1])))
  }

  /** Letters, digits, dots and hyphens, at least one and fewer than 256 in all, and one newline may follow. */
  predicate HostnameShape(s: string) {
    && s != "" && s != "\n" && |s| < 256
    && forall i | 0 <= i < |s| ::
         (s[i] == '\n' && i == |s| - 1) || s[i] == '.' || s[i] == '-'
         || '0' <= s[i] <= '9' || 'A' <= s[i] <= 'Z' || 'a' <= s[i] <= 'z'
  }

  lemma NameCharsAt(s: string)
    ensures NameChars(s) <==> s != "" && forall i | 0 <= i < |s| :: NameChar(s[i])
  {
    if forall i | 0 <= i < |s| :: NameChar(s[i]) {
      forall c | c in s ensures NameChar(c) {
        var i :| 0 <= i < |s| && s[i] == c;
      }
    }
  }

  lemma HostnameOkExactly(s: string)
    ensures HostnameOk(s) <==> HostnameShape(s)
  {
    if s != "" {
      var body := s[..|s| - 1];
      NameCharsAt(s);
      NameCharsAt(body);
      assert body == "" && s[|s| - 1] == '\n' ==> s == "\n";
      assert forall i | 0 <= i < |body| :: body[i] == s[i];
    }
  }

  predicate PortOk(n: int) {
    1 <= n <= 65535
  }

  /** What the schema accepts, with r in its standard form. */
  predicate Valid(d: Descriptor, cs: Codecs) {
    && (d.p.Some? ==> cs.ip.valid(d.p.value))
    && (d.v4a.Some? ==> cs.V4s().valid(d.v4a.value))
    && (d.v6a.Some? ==> cs.V6s().valid(d.v6a.value))
    && cs.key32.valid(d.pk) && cs.key64.valid(d.c) && cs.key32.valid(d.vk)
    && HostnameOk(d.hostname)
    && 1 <= d.port <= 65535 && cs.num.valid(d.port) && cs.num.valid(d.dt) && cs.num.valid(d.vf)
    && cs.nets(d.r) == Some(d.r) && Plain(d.r)
    && cs.flag.valid(d.e)
    && (d.s.Some? ==> cs.key64.valid(d.s.value))
  }

  // ----- keys -----

  datatype Tag = C | Dt | E | Hostname | P | Pk | Port | R | S | V4a | V6a | Vf | Vk

  /** All keys, in the order of their texts. */
  const TAGS: seq<Tag> := [C, Dt, E, Hostname, P, Pk, Port, R, S, V4a, V6a, Vf, Vk]

  function TagText(t: Tag): string {
    match t
    case C => "c"
    case Dt => "dt"
    case E => "e"
    case Hostname => "hostname"
    case P => "p"
    case Pk => "pk"
    case Port => "port"
    case R => "r"
    case S => "s"
    case V4a => "v4a"
    case V6a => "v6a"
    case Vf => "vf"
    case Vk => "vk"
  }

  function TagOf(s: string): Option<Tag> {
    if s == "c" then Some(C)
    else if s == "dt" then Some(Dt)
    else if s == "e" then Some(E)
    else if s == "hostname" then Some(Hostname)
    else if s == "p" then Some(P)
    else if s == "pk" then Some(Pk)
    else if s == "port" then Some(Port)
    else if s == "r" then Some(R)
    else if s == "s" then Some(S)
    else if s == "v4a" then Some(V4a)
    else if s == "v6a" then Some(V6a)
    else if s == "vf" then Some(Vf)
    else if s == "vk" then Some(Vk)
    else None
  }

  lemma TagTextParses(t: Tag)
    ensures TagOf(TagText(t)) == Some(t)
  {
    match t
    case C =>
    case Dt =>
    case E =>
    case Hostname =>
    case P =>
    case Pk =>
    case Port =>
    case R =>
    case S =>
    case V4a =>
    case V6a =>
    case Vf =>
    case Vk =>
  }

  lemma TagTextPlain(t: Tag)
    ensures TagText(t) != "" && '=' !in TagText(t) && ';' !in TagText(t) && !IsSpace(TagText(t)[0])
  {
  }

  /** The order of TAGS is the sorted one. */
  lemma TagsAreSorted(i: nat)
    requires i < 12
    ensures Before(TagText(TAGS[i]), TagText(TAGS[i + 1]))
  {
    if i == 4 {
      assert "pk"[1..] == "k";
    } else if i == 5 {
      assert "pk"[1..] == "k" && "port"[1..] == "ort";
    } else if i == 9 {
      assert "v4a"[1..] == "4a" && "v6a"[1..] == "6a";
    } else if i == 10 {
      assert "v6a"[1..] == "6a" && "vf"[1..] == "f";
    } else if i == 11 {
      assert "vf"[1..] == "f" && "vk"[1..] == "k";
    }
  }

  // ----- printing -----

  /** The text of one field, if the descriptor has it. */
  function TextOf(d: Descriptor, cs: Codecs, t: Tag): Option<string> {
    match t
    case C => Some(cs.key64.show(d.c))
    case Dt => Some(cs.num.show(d.dt))
    case E => Some(cs.flag.show(d.e))
    case Hostname => Some(d.hostname)
    case P => if d.p.Some? then Some(cs.ip.show(d.p.value)) else None
    case Pk => Some(cs.key32.show(d.pk))
    case Port => Some(cs.num.show(d.port))
    case R => Some(d.r)
    case S => if d.s.Some? then Some(cs.key64.show(d.s.value)) else None
    case V4a => if d.v4a.Some? then Some(cs.V4s().show(d.v4a.value)) else None
    case V6a => if d.v6a.Some? then Some(cs.V6s().show(d.v6a.value)) else None
    case Vf => Some(cs.num.show(d.vf))
    case Vk => Some(cs.key32.show(d.vk))
  }

  datatype Field = Field(tag: Tag, text: string)

  function Fields(d: Descriptor, cs: Codecs, tags: seq<Tag>): seq<Field> {
    if tags == [] then []
    else
      (match TextOf(d, cs, tags[0]) case None => [] case Some(text) => [Field(tags[0], text)])
      + Fields(d, cs, tags[1..])
  }

  function FieldText(f: Field): string {
    TagText(f.tag) + "=" + f.text
  }

  function EntryTexts(fs: seq<Field>): seq<string> {
    if fs == [] then [] else [FieldText(fs[0]) + ";"] + EntryTexts(fs[1..])
  }

  /** `str(descriptor)` */
  function Print(d: Descriptor, cs: Codecs): string {
    Join(" ", EntryTexts(Fields(d, cs, TAGS)))
  }

  /** `_build_sig_buf`: the same without the signature. */
  function SigBuf(d: Descriptor, cs: Codecs): string {
    Join(" ", EntryTexts(Fields(d, cs, Without(TAGS, S))))
  }

  // ----- parsing -----

  /** The pieces between semicolons, stripped, split at the first equals sign; short ones are skipped. */
  function Pairs(pieces: seq<string>): Option<seq<(string, string)>> {
    if pieces == [] then Some([])
    else
      var kv := Strip(pieces[0]);
      if |kv| <= 1 then Pairs(pieces[1..])
      else
        var i := Find(kv, '=');
        match Pairs(pieces[1..])
        case None => None
        case Some(rest) => if i == |kv| then None else Some([(kv[..i], kv[i + 1..])] + rest)
  }

  /** The dictionary of the pairs: the last one counts; None if a key is unknown. */
  function Dictionary(pairs: seq<(string, string)>): Option<map<Tag, string>> {
    if pairs == [] then Some(map[R := ""])
    else
      var last := pairs[|pairs| - 1];
      match Dictionary(pairs[..|pairs| - 1])
      case None => None
      case Some(m) =>
        match TagOf(last.0)
        case None => None
        case Some(t) => Some(m[t := last.1])
  }

  function TextAt(m: map<Tag, string>, t: Tag): Option<string> {
    if t in m then Some(m[t]) else None
  }

  /** An optional field: absent, or accepted by its codec. */
  function Maybe<T>(text: Option<string>, c: Codec<T>): Option<Option<T>> {
    match text
    case None => Some(None)
    case Some(s) => (match c.parse(s) case None => None case Some(v) => Some(Some(v)))
  }

  function Must<T>(text: Option<string>, c: Codec<T>): Option<T> {
    match text
    case None => None
    case Some(s) => c.parse(s)
  }

  /** The schema, given what it makes of the address fields; None where it made nothing of one. */
  function Assemble(p: Option<Option<IP>>, v4a: Option<Option<seq<IPv4>>>, v6a: Option<Option<seq<IPv6>>>,
                    m: map<Tag, string>, cs: Codecs): Option<Descriptor>
  {
    var s := Maybe(TextAt(m, S), cs.key64);
    var pk, c, vk := Must(TextAt(m, Pk), cs.key32), Must(TextAt(m, C), cs.key64), Must(TextAt(m, Vk), cs.key32);
    var port, dt, vf := Must(TextAt(m, Port), cs.num), Must(TextAt(m, Dt), cs.num), Must(TextAt(m, Vf), cs.num);
    var e := Must(TextAt(m, E), cs.flag);
    if p.None? || v4a.None? || v6a.None? || s.None? || pk.None? || c.None? || vk.None? || port.None? || dt.None?
       || vf.None? || e.None?
       || Hostname !in m || !HostnameOk(m[Hostname]) || !PortOk(port.value) || R !in m || cs.nets(m[R]).None?
    then None
    else Some(Descriptor(p.value, v4a.value, v6a.value, pk.value, c.value, m[Hostname], port.value, vk.value,
                         dt.value, vf.value, cs.nets(m[R]).value, e.value, s.value))
  }

  /** Every field that must be there is, and everything is accepted. */
  function Accepted(m: map<Tag, string>, cs: Codecs): Option<Descriptor> {
    Assemble(Maybe(TextAt(m, P), cs.ip), Maybe(TextAt(m, V4a), cs.V4s()), Maybe(TextAt(m, V6a), cs.V6s()), m, cs)
  }

  /** `Descriptor.parse`; None is the exception it raises. */
  function Parse(text: string, cs: Codecs): Option<Descriptor> {
    match Pairs(Split(text, ';'))
    case None => None
    case Some(pairs) =>
      match Dictionary(pairs)
      case None => None
      case Some(m) => Accepted(m, cs)
  }

  /** The field is there and means v, or it is not there and v is none. */
  predicate Reads<T(==)>(m: map<Tag, string>, t: Tag, c: Codec<T>, v: Option<T>) {
    if t in m then v.Some? && c.parse(m[t]) == v else v.None?
  }

  /** The fields of d that may be missing. */
  ghost predicate ReadsOptional(m: map<Tag, string>, d: Descriptor, cs: Codecs) {
    Reads(m, P, cs.ip, d.p) && Reads(m, V4a, cs.V4s(), d.v4a) && Reads(m, V6a, cs.V6s(), d.v6a)
    && Reads(m, S, cs.key64, d.s)
  }

  ghost predicate ReadsKeys(m: map<Tag, string>, d: Descriptor, cs: Codecs) {
    Reads(m, Pk, cs.key32, Some(d.pk)) && Reads(m, C, cs.key64, Some(d.c)) && Reads(m, Vk, cs.key32, Some(d.vk))
  }

  ghost predicate ReadsNumbers(m: map<Tag, string>, d: Descriptor, cs: Codecs) {
    && Reads(m, Port, cs.num, Some(d.port)) && 1 <= d.port <= 65535
    && Reads(m, Dt, cs.num, Some(d.dt)) && Reads(m, Vf, cs.num, Some(d.vf)) && Reads(m, E, cs.flag, Some(d.e))
  }

  ghost predicate ReadsTexts(m: map<Tag, string>, d: Descriptor, cs: Codecs) {
    && Hostname in m && m[Hostname] == d.hostname && HostnameShape(d.hostname)
    && R in m && cs.nets(m[R]) == Some(d.r)
  }

  lemma ReadsIs<T>(m: map<Tag, string>, t: Tag, c: Codec<T>, v: Option<T>)
    ensures Reads(m, t, c, v) <==> Maybe(TextAt(m, t), c) == Some(v)
    ensures v.Some? ==> (Reads(m, t, c, v) <==> Must(TextAt(m, t), c) == v)
  {
  }

  lemma AssembleExactly(p: Option<Option<IP>>, v4a: Option<Option<seq<IPv4>>>, v6a: Option<Option<seq<IPv6>>>,
                        m: map<Tag, string>, d: Descriptor, cs: Codecs)
    ensures Assemble(p, v4a, v6a, m, cs) == Some(d) <==>
              && p == Some(d.p) && v4a == Some(d.v4a) && v6a == Some(d.v6a)
              && Maybe(TextAt(m, S), cs.key64) == Some(d.s)
              && ReadsKeys(m, d, cs) && ReadsNumbers(m, d, cs) && ReadsTexts(m, d, cs)
  {
    HostnameOkExactly(d.hostname);
    ReadsIs(m, Pk, cs.key32, Some(d.pk));
    ReadsIs(m, C, cs.key64, Some(d.c));
    ReadsIs(m, Vk, cs.key32, Some(d.vk));
    ReadsIs(m, Port, cs.num, Some(d.port));
    ReadsIs(m, Dt, cs.num, Some(d.dt));
    ReadsIs(m, Vf, cs.num, Some(d.vf));
    ReadsIs(m, E, cs.flag, Some(d.e));
  }

  /** The schema accepts exactly what has every field it asks for, and reads each field under its own key. */
  lemma AcceptedExactly(m: map<Tag, string>, d: Descriptor, cs: Codecs)
    ensures Accepted(m, cs) == Some(d) <==>
              ReadsOptional(m, d, cs) && ReadsKeys(m, d, cs) && ReadsNumbers(m, d, cs) && ReadsTexts(m, d, cs)
  {
    ReadsIs(m, P, cs.ip, d.p);
    ReadsIs(m, V4a, cs.V4s(), d.v4a);
    ReadsIs(m, V6a, cs.V6s(), d.v6a);
    ReadsIs(m, S, cs.key64, d.s);
    AssembleExactly(Maybe(TextAt(m, P), cs.ip), Maybe(TextAt(m, V4a), cs.V4s()), Maybe(TextAt(m, V6a), cs.V6s()), m, d,
                    cs);
  }

  /** What is parsed has a host name and a port that the schema allows, and no networks in any other form. */
  lemma ParsedIsAllowed(text: string, cs: Codecs)
    requires Parse(text, cs).Some?
    ensures var d := Parse(text, cs).value;
            HostnameShape(d.hostname) && 1 <= d.port <= 65535 && exists r :: cs.nets(r) == Some(d.r)
  {
    HostnameOkExactly(Parse(text, cs).value.hostname);
  }

  // ----- entries in front -----

  lemma {:induction false} DictionaryFront(pair: (string, string), pairs: seq<(string, string)>)
    requires pair == ("r", "")
    ensures Dictionary([pair] + pairs) == Dictionary(pairs)
  {
    if pairs == [] {
      assert [pair][..0] == [] && [pair] + pairs == [pair];
      assert map[R := ""][R := ""] == map[R := ""];
    } else {
      assert ([pair] + pairs)[..|pairs|] == [pair] + pairs[..|pairs| - 1];
      DictionaryFront(pair, pairs[..|pairs| - 1]);
    }
  }

  lemma {:induction false} UnknownKey(pairs: seq<(string, string)>, i: nat)
    requires i < |pairs| && TagOf(pairs[i].0).None?
    ensures Dictionary(pairs).None?
  {
    if i < |pairs| - 1 {
      UnknownKey(pairs[..|pairs| - 1], i);
    }
  }

  lemma PairsFront(entry: string, pieces: seq<string>)
    ensures Pairs([entry] + pieces) ==
              (if |Strip(entry)| <= 1 then Pairs(pieces)
               else if '=' !in Strip(entry) || Pairs(pieces).None? then None
               else
                 var i := Find(Strip(entry), '=');
                 Some([(Strip(entry)[..i], Strip(entry)[i + 1..])] + Pairs(pieces).value))
  {
    assert ([entry] + pieces)[1..] == pieces;
  }

  lemma ParseOfPairs(text: string, other: string, cs: Codecs)
    requires Pairs(Split(text, ';')) == Pairs(Split(other, ';'))
    ensures Parse(text, cs) == Parse(other, cs)
  {
  }

  lemma ParseOfDictionaries(text: string, other: string, cs: Codecs)
    requires Pairs(Split(text, ';')).Some? && Pairs(Split(other, ';')).Some?
    requires Dictionary(Pairs(Split(text, ';')).value) == Dictionary(Pairs(Split(other, ';')).value)
    ensures Parse(text, cs) == Parse(other, cs)
  {
  }

  lemma EmptyNetworks()
    ensures Find("r=", '=') == 1 && "r="[..1] == "r" && "r="[2..] == "" && |"r="| == 2 && '=' in "r="
  {
  }

  /** An entry of at most one character is passed over; networks that are not given are the empty list of them. */
  lemma EntryInFront(entry: string, text: string, cs: Codecs)
    requires ';' !in entry && (|Strip(entry)| <= 1 || Strip(entry) == "r=")
    ensures Parse(entry + ";" + text, cs) == Parse(text, cs)
  {
    SplitAt(entry, ';', text);
    assert entry + ";" + text == entry + [';'] + text;
    PairsFront(entry, Split(text, ';'));
    EmptyNetworks();
    var pairs := Pairs(Split(text, ';'));
    if |Strip(entry)| <= 1 || pairs.None? {
      ParseOfPairs(entry + ";" + text, text, cs);
    } else {
      DictionaryFront(("r", ""), pairs.value);
      ParseOfDictionaries(entry + ";" + text, text, cs);
    }
  }

  /** An entry without "=", or for a field that does not exist, raises. */
  lemma BadEntry(entry: string, text: string, cs: Codecs)
    requires ';' !in entry && |Strip(entry)| > 1
    requires '=' !in Strip(entry) || TagOf(Strip(entry)[..Find(Strip(entry), '=')]).None?
    ensures Parse(entry + ";" + text, cs).None?
  {
    SplitAt(entry, ';', text);
    assert entry + ";" + text == entry + [';'] + text;
    PairsFront(entry, Split(text, ';'));
    if '=' in Strip(entry) && Pairs(Split(text, ';')).Some? {
      UnknownKey(Pairs(Split(entry + ";" + text, ';')).value, 0);
    }
  }

  // ----- the pieces of a printed descriptor -----

  /** Every entry with a space in front. */
  function Spaced(fs: seq<Field>): string {
    if fs == [] then "" else " " + FieldText(fs[0]) + ";" + Spaced(fs[1..])
  }

  lemma {:induction false} JoinIsSpaced(fs: seq<Field>)
    requires fs != []
    ensures " " + Join(" ", EntryTexts(fs)) == Spaced(fs)
  {
    if |fs| == 1 {
      assert EntryTexts(fs) == [FieldText(fs[0]) + ";"];
      assert Spaced(fs[1..]) == "";
    } else {
      JoinIsSpaced(fs[1..]);
      assert EntryTexts(fs)[1..] == EntryTexts(fs[1..]);
    }
  }

  // ----- the layout -----

  function ShowMaybe<T>(c: Codec<T>, v: Option<T>): Option<string> {
    if v.Some? then Some(c.show(v.value)) else None
  }

  /** " name=text;" if there is a text. */
  function Entry(name: string, text: Option<string>): string {
    if text.Some? then " " + name + "=" + text.value + ";" else ""
  }

  function KeyEntries(d: Descriptor, cs: Codecs): string {
    Entry("c", Some(cs.key64.show(d.c))) + Entry("dt", Some(cs.num.show(d.dt))) + Entry("e", Some(cs.flag.show(d.e)))
    + Entry("hostname", Some(d.hostname))
  }

  function PortEntries(d: Descriptor, cs: Codecs): string {
    Entry("p", ShowMaybe(cs.ip, d.p)) + Entry("pk", Some(cs.key32.show(d.pk)))
    + Entry("port", Some(cs.num.show(d.port)))
    + Entry("r", Some(d.r))
  }

  function AddrEntries(d: Descriptor, cs: Codecs): string {
    Entry("s", ShowMaybe(cs.key64, d.s)) + Entry("v4a", ShowMaybe(cs.V4s(), d.v4a))
    + Entry("v6a", ShowMaybe(cs.V6s(), d.v6a)) + Entry("vf", Some(cs.num.show(d.vf)))
  }

  lemma FieldsStep(d: Descriptor, cs: Codecs, tags: seq<Tag>)
    requires tags != []
    ensures Spaced(Fields(d, cs, tags)) ==
              Entry(TagText(tags[0]), TextOf(d, cs, tags[0])) + Spaced(Fields(d, cs, tags[1..]))
  {
    var rest := Fields(d, cs, tags[1..]);
    if TextOf(d, cs, tags[0]).Some? {
      var f := Field(tags[0], TextOf(d, cs, tags[0]).value);
      assert ([f] + rest)[1..] == rest;
      assert " " + FieldText(f) + ";" == " " + TagText(tags[0]) + "=" + f.text + ";";
    } else {
      assert [] + rest == rest;
    }
  }

  lemma FourGlued(a: string, b: string, c: string, d: string, rest: string)
    ensures a + (b + (c + (d + rest))) == a + b + c + d + rest
  {
  }

  lemma FourSteps(d: Descriptor, cs: Codecs, tags: seq<Tag>)
    requires |tags| >= 4
    ensures Spaced(Fields(d, cs, tags)) ==
              Entry(TagText(tags[0]), TextOf(d, cs, tags[0])) + Entry(TagText(tags[1]), TextOf(d, cs, tags[1]))
              + Entry(TagText(tags[2]), TextOf(d, cs, tags[2])) + Entry(TagText(tags[3]), TextOf(d, cs, tags[3]))
              + Spaced(Fields(d, cs, tags[4..]))
  {
    FieldsStep(d, cs, tags);
    FieldsStep(d, cs, tags[1..]);
    FieldsStep(d, cs, tags[2..]);
    FieldsStep(d, cs, tags[3..]);
    assert tags[1..][1..] == tags[2..] && tags[2..][1..] == tags[3..] && tags[3..][1..] == tags[4..];
    FourGlued(Entry(TagText(tags[0]), TextOf(d, cs, tags[0])), Entry(TagText(tags[1]), TextOf(d, cs, tags[1])),
              Entry(TagText(tags[2]), TextOf(d, cs, tags[2])), Entry(TagText(tags[3]), TextOf(d, cs, tags[3])),
              Spaced(Fields(d, cs, tags[4..])));
  }

  /** The same, the names and the texts being known. */
  lemma FourNamed(d: Descriptor, cs: Codecs, tags: seq<Tag>, n0: string, t0: Option<string>,
                  n1: string, t1: Option<string>, n2: string, t2: Option<string>, n3: string, t3: Option<string>)
    requires |tags| >= 4
    requires TagText(tags[0]) == n0 && TextOf(d, cs, tags[0]) == t0
    requires TagText(tags[1]) == n1 && TextOf(d, cs, tags[1]) == t1
    requires TagText(tags[2]) == n2 && TextOf(d, cs, tags[2]) == t2
    requires TagText(tags[3]) == n3 && TextOf(d, cs, tags[3]) == t3
    ensures Spaced(Fields(d, cs, tags)) ==
              Entry(n0, t0) + Entry(n1, t1) + Entry(n2, t2) + Entry(n3, t3) + Spaced(Fields(d, cs, tags[4..]))
  {
    FourSteps(d, cs, tags);
  }

  lemma KeyTags(d: Descriptor, cs: Codecs, tags: seq<Tag>)
    requires |tags| >= 4 && tags[0] == C && tags[1] == Dt && tags[2] == E && tags[3] == Hostname
    ensures Spaced(Fields(d, cs, tags)) == KeyEntries(d, cs) + Spaced(Fields(d, cs, tags[4..]))
  {
    FourNamed(d, cs, tags, "c", Some(cs.key64.show(d.c)), "dt", Some(cs.num.show(d.dt)), "e", Some(cs.flag.show(d.e)),
              "hostname", Some(d.hostname));
  }

  lemma PortTags(d: Descriptor, cs: Codecs, tags: seq<Tag>)
    requires |tags| >= 4 && tags[0] == P && tags[1] == Pk && tags[2] == Port && tags[3] == R
    ensures Spaced(Fields(d, cs, tags)) == PortEntries(d, cs) + Spaced(Fields(d, cs, tags[4..]))
  {
    FourNamed(d, cs, tags, "p", ShowMaybe(cs.ip, d.p), "pk", Some(cs.key32.show(d.pk)), "port",
              Some(cs.num.show(d.port)), "r", Some(d.r));
  }

  lemma AddrTexts(d: Descriptor, cs: Codecs)
    ensures TextOf(d, cs, V4a) == ShowMaybe(cs.V4s(), d.v4a) && TextOf(d, cs, V6a) == ShowMaybe(cs.V6s(), d.v6a)
  {
  }

  lemma AddrTags(d: Descriptor, cs: Codecs, tags: seq<Tag>, v4: Option<string>, v6: Option<string>)
    requires |tags| >= 4 && tags[0] == S && tags[1] == V4a && tags[2] == V6a && tags[3] == Vf
    requires TextOf(d, cs, V4a) == v4 && TextOf(d, cs, V6a) == v6
    ensures Spaced(Fields(d, cs, tags)) ==
              Entry("s", ShowMaybe(cs.key64, d.s)) + Entry("v4a", v4) + Entry("v6a", v6)
              + Entry("vf", Some(cs.num.show(d.vf))) + Spaced(Fields(d, cs, tags[4..]))
  {
    FourNamed(d, cs, tags, "s", ShowMaybe(cs.key64, d.s), "v4a", v4, "v6a", v6, "vf", Some(cs.num.show(d.vf)));
  }

  lemma LastTag(d: Descriptor, cs: Codecs)
    ensures Spaced(Fields(d, cs, TAGS[12..])) == Entry("vk", Some(cs.key32.show(d.vk)))
  {
    FieldsStep(d, cs, TAGS[12..]);
    assert TAGS[12..][1..] == [];
  }

  lemma FieldsStart(d: Descriptor, cs: Codecs)
    ensures Fields(d, cs, TAGS) != []
  {
    assert TAGS[0] == C;
  }

  lemma TagSlices()
    ensures TAGS[4..][4..] == TAGS[8..] && TAGS[8..][4..] == TAGS[12..]
  {
  }

  lemma PartsGlued(a: string, b: string, c: string, d: string)
    ensures a + (b + (c + d)) == a + b + c + d
  {
  }

  /**
   * The text form: the fields by name in alphabetical order, each name in front of an equals
   * sign and each text in front of a semicolon, with spaces between; what is not there is left out.
   */
  lemma TextLayout(d: Descriptor, cs: Codecs)
    ensures " " + Print(d, cs) ==
              KeyEntries(d, cs) + PortEntries(d, cs) + AddrEntries(d, cs) + Entry("vk", Some(cs.key32.show(d.vk)))
  {
    FieldsStart(d, cs);
    JoinIsSpaced(Fields(d, cs, TAGS));
    KeyTags(d, cs, TAGS);
    PortTags(d, cs, TAGS[4..]);
    TagSlices();
    AddrTexts(d, cs);
    AddrTags(d, cs, TAGS[8..], ShowMaybe(cs.V4s(), d.v4a), ShowMaybe(cs.V6s(), d.v6a));
    LastTag(d, cs);
    PartsGlued(KeyEntries(d, cs), PortEntries(d, cs), AddrEntries(d, cs), Entry("vk", Some(cs.key32.show(d.vk))));
  }

  ghost predicate NoSemicolons(fs: seq<Field>) {
    forall f | f in fs :: ';' !in f.text
  }

  /** The first piece is the first entry, whatever its value. */
  lemma SpacedSplits(fs: seq<Field>)
    requires fs != [] && NoSemicolons(fs)
    ensures Split(Spaced(fs), ';') == [" " + FieldText(fs[0])] + Split(Spaced(fs[1..]), ';')
  {
    var piece := " " + FieldText(fs[0]);
    TagTextPlain(fs[0].tag);
    assert fs[0] in fs;
    assert Spaced(fs) == piece + [';'] + Spaced(fs[1..]);
    SplitAt(piece, ';', Spaced(fs[1..]));
  }

  lemma EntryStripped(f: Field)
    ensures Strip(" " + FieldText(f)) == TagText(f.tag) + "=" + Rstrip(f.text)
  {
    TagTextPlain(f.tag);
    var kv := FieldText(f);
    assert kv[0] == TagText(f.tag)[0];
    LstripSpace(kv);
    RstripAfter(TagText(f.tag), '=', f.text);
  }

  lemma EntryHalves(t: Tag, v: string)
    ensures var kv := TagText(t) + "=" + v;
            var i := Find(kv, '=');
            |kv| > 1 && i < |kv| && kv[..i] == TagText(t) && kv[i + 1..] == v
  {
    var kv := TagText(t) + "=" + v;
    TagTextPlain(t);
    FindAt(kv, '=', |TagText(t)|);
  }

  function PairsOf(fs: seq<Field>): seq<(string, string)> {
    if fs == [] then [] else [(TagText(fs[0].tag), Rstrip(fs[0].text))] + PairsOf(fs[1..])
  }

  lemma {:induction false} SpacedPairs(fs: seq<Field>)
    requires NoSemicolons(fs)
    ensures Pairs(Split(Spaced(fs), ';')) == Some(PairsOf(fs))
  {
    if fs == [] {
      assert Split("", ';') == [""];
      assert Pairs([""][1..]) == Some([]);
    } else {
      SpacedSplits(fs);
      SpacedPairs(fs[1..]);
      EntryStripped(fs[0]);
      EntryHalves(fs[0].tag, Rstrip(fs[0].text));
      var pieces := Split(Spaced(fs), ';');
      assert pieces[1..] == Split(Spaced(fs[1..]), ';');
    }
  }

  /** A space in front of the text makes no difference to its pairs. */
  lemma LeadingSpace(text: string)
    ensures Pairs(Split(" " + text, ';')) == Pairs(Split(text, ';'))
  {
    SplitFront(" ", text, ';');
    var pieces := Split(text, ';');
    LstripSpace(pieces[0]);
    assert ([" " + pieces[0]] + pieces[1..])[1..] == pieces[1..];
  }

  // ----- the dictionary of a printed descriptor -----

  lemma {:induction false} PairsSnoc(fs: seq<Field>)
    requires fs != []
    ensures PairsOf(fs) == PairsOf(fs[..|fs| - 1]) + [(TagText(fs[|fs| - 1].tag), Rstrip(fs[|fs| - 1].text))]
  {
    if |fs| == 1 {
      assert PairsOf(fs[1..]) == [] && fs[..0] == [];
    } else {
      PairsSnoc(fs[1..]);
      assert fs[1..][..|fs| - 2] == fs[..|fs| - 1][1..];
    }
  }

  /** The value the last field of that tag has, stripped; otherwise only r has a value, the default. */
  function LastValue(fs: seq<Field>, t: Tag): Option<string> {
    if fs == [] then (if t == R then Some("") else None)
    else if fs[|fs| - 1].tag == t then Some(Rstrip(fs[|fs| - 1].text))
    else LastValue(fs[..|fs| - 1], t)
  }

  lemma {:induction false} DictionaryOf(fs: seq<Field>)
    ensures Dictionary(PairsOf(fs)).Some?
    ensures forall t :: TextAt(Dictionary(PairsOf(fs)).value, t) == LastValue(fs, t)
  {
    if fs != [] {
      DictionaryOf(fs[..|fs| - 1]);
      PairsSnoc(fs);
      TagTextParses(fs[|fs| - 1].tag);
      assert PairsOf(fs)[..|PairsOf(fs)| - 1] == PairsOf(fs[..|fs| - 1]);
    }
  }

  lemma {:induction false} LastValueConcat(xs: seq<Field>, ys: seq<Field>, t: Tag)
    ensures LastValue(xs + ys, t) == if exists f | f in ys :: f.tag == t then LastValue(ys, t) else LastValue(xs, t)
  {
    if ys == [] {
      assert xs + ys == xs;
    } else {
      var init, last := ys[..|ys| - 1], ys[|ys| - 1];
      assert (xs + ys)[..|xs + ys| - 1] == xs + init && (xs + ys)[|xs + ys| - 1] == last;
      LastValueConcat(xs, init, t);
      assert last in ys && (forall f | f in init :: f in ys) && forall f | f in ys :: f in init || f == last;
    }
  }

  lemma {:induction false} FieldsTags(d: Descriptor, cs: Codecs, tags: seq<Tag>)
    ensures forall f | f in Fields(d, cs, tags) :: f.tag in tags && TextOf(d, cs, f.tag) == Some(f.text)
  {
    if tags != [] {
      FieldsTags(d, cs, tags[1..]);
    }
  }

  lemma {:induction false} FieldsValue(d: Descriptor, cs: Codecs, tags: seq<Tag>, t: Tag)
    requires NoRepeats(tags) && t in tags && TextOf(d, cs, t).Some?
    ensures Field(t, TextOf(d, cs, t).value) in Fields(d, cs, tags)
  {
    if t != tags[0] {
      assert t in tags[1..];
      FieldsValue(d, cs, tags[1..], t);
    }
  }

  lemma {:induction false} LastValueIs(fs: seq<Field>, t: Tag, v: string)
    requires forall f | f in fs && f.tag == t :: f.text == v
    ensures (exists f | f in fs :: f.tag == t) ==> LastValue(fs, t) == Some(Rstrip(v))
    ensures !(exists f | f in fs :: f.tag == t) ==> LastValue(fs, t) == (if t == R then Some("") else None)
  {
    if fs != [] {
      assert fs == fs[..|fs| - 1] + [fs[|fs| - 1]];
      LastValueIs(fs[..|fs| - 1], t, v);
    }
  }

  lemma AllTags(t: Tag)
    ensures t in TAGS && NoRepeats(TAGS)
  {
  }

  lemma PrintedAmong(d: Descriptor, cs: Codecs, tags: seq<Tag>, t: Tag)
    requires t in tags && NoRepeats(tags)
    ensures LastValue(Fields(d, cs, tags), t) ==
              match TextOf(d, cs, t) { case None => if t == R then Some("") else None case Some(v) => Some(Rstrip(v)) }
  {
    FieldsTags(d, cs, tags);
    if TextOf(d, cs, t).Some? {
      FieldsValue(d, cs, tags, t);
      LastValueIs(Fields(d, cs, tags), t, TextOf(d, cs, t).value);
    } else {
      LastValueIs(Fields(d, cs, tags), t, "");
    }
  }

  /** The dictionary holds, for every key, the stripped text of that field, if there is one. */
  lemma PrintedValue(d: Descriptor, cs: Codecs, t: Tag)
    ensures LastValue(Fields(d, cs, TAGS), t) ==
              match TextOf(d, cs, t) { case None => None case Some(v) => Some(Rstrip(v)) }
  {
    AllTags(t);
    PrintedAmong(d, cs, TAGS, t);
  }

  // ----- round trip -----

  /** The descriptor with a host name the parser has stripped. */
  function Trimmed(d: Descriptor): Descriptor {
    d.(hostname := Rstrip(d.hostname))
  }

  lemma {:induction false} NameCharsPlain(s: string)
    requires NameChars(s)
    ensures Plain(s) && Rstrip(s + "\n") == s
  {
    assert s[|s| - 1] in s;
    assert (s + "\n")[..|s|] == s && (s + "\n")[|s|] == '\n';
  }

  lemma HostnameTrims(s: string)
    requires HostnameOk(s)
    ensures ';' !in s && HostnameOk(Rstrip(s)) && Plain(Rstrip(s))
    ensures Rstrip(s) == s <==> !EndsInNewline(s)
  {
    if NameChars(s) {
      NameCharsPlain(s);
      assert s[|s| - 1] in s;
    } else {
      NameCharsPlain(s[..|s| - 1]);
      assert s == s[..|s| - 1] + "\n";
    }
  }

  lemma ValuePlain<T(!new)>(c: Codec<T>, v: T)
    requires Faithful(c) && c.valid(v)
    ensures Plain(c.show(v)) && c.parse(c.show(v)) == Some(v)
  {
  }

  lemma AddressPlain<T(!new)>(c: Codec<T>, vs: seq<T>)
    requires FaithfulItems(c) && ListCodec(c).valid(vs)
    ensures Plain(ListCodec(c).show(vs)) && ListCodec(c).parse(ListCodec(c).show(vs)) == Some(vs)
  {
    ListRoundTrip(c, vs);
  }

  /** Every field but the host name is printed as something the parser keeps as it is. */
  lemma TextPlain(d: Descriptor, cs: Codecs, t: Tag)
    requires Valid(d, cs) && AllFaithful(cs)
    requires TextOf(d, cs, t).Some?
    ensures ';' !in TextOf(d, cs, t).value
    ensures TextOf(Trimmed(d), cs, t) == Some(Rstrip(TextOf(d, cs, t).value))
  {
    HostnameTrims(d.hostname);
    match t
    case C => ValuePlain(cs.key64, d.c);
    case Dt => ValuePlain(cs.num, d.dt);
    case E => ValuePlain(cs.flag, d.e);
    case Hostname =>
    case P => ValuePlain(cs.ip, d.p.value);
    case Pk => ValuePlain(cs.key32, d.pk);
    case Port => ValuePlain(cs.num, d.port);
    case R =>
    case S => ValuePlain(cs.key64, d.s.value);
    case V4a => AddressPlain(cs.v4, d.v4a.value);
    case V6a => AddressPlain(cs.v6, d.v6a.value);
    case Vf => ValuePlain(cs.num, d.vf);
    case Vk => ValuePlain(cs.key32, d.vk);
  }

  predicate Packed(t: Tag) {
    t == P || t == V4a || t == V6a
  }

  lemma MustRead(m: map<Tag, string>, d: Descriptor, cs: Codecs)
    requires Valid(d, cs) && AllFaithful(cs)
    requires forall t | !Packed(t) :: TextAt(m, t) == TextOf(d, cs, t)
    ensures Must(TextAt(m, Pk), cs.key32) == Some(d.pk) && Must(TextAt(m, C), cs.key64) == Some(d.c)
    ensures Must(TextAt(m, Vk), cs.key32) == Some(d.vk) && Must(TextAt(m, E), cs.flag) == Some(d.e)
  {
    ValuePlain(cs.key32, d.pk);
    ValuePlain(cs.key64, d.c);
    ValuePlain(cs.key32, d.vk);
    ValuePlain(cs.flag, d.e);
  }

  lemma NumbersRead(m: map<Tag, string>, d: Descriptor, cs: Codecs)
    requires Valid(d, cs) && AllFaithful(cs)
    requires forall t | !Packed(t) :: TextAt(m, t) == TextOf(d, cs, t)
    ensures Must(TextAt(m, Port), cs.num) == Some(d.port)
    ensures Must(TextAt(m, Dt), cs.num) == Some(d.dt) && Must(TextAt(m, Vf), cs.num) == Some(d.vf)
  {
    ValuePlain(cs.num, d.port);
    ValuePlain(cs.num, d.dt);
    ValuePlain(cs.num, d.vf);
  }

  lemma SignatureRead(m: map<Tag, string>, d: Descriptor, cs: Codecs)
    requires Valid(d, cs) && AllFaithful(cs)
    requires forall t | !Packed(t) :: TextAt(m, t) == TextOf(d, cs, t)
    ensures Maybe(TextAt(m, S), cs.key64) == Some(d.s)
  {
  }

  /** The fields that are not addresses, as the schema reads them. */
  ghost predicate RestRead(m: map<Tag, string>, d: Descriptor, cs: Codecs) {
    && Must(TextAt(m, Pk), cs.key32) == Some(d.pk) && Must(TextAt(m, C), cs.key64) == Some(d.c)
    && Must(TextAt(m, Vk), cs.key32) == Some(d.vk) && Must(TextAt(m, E), cs.flag) == Some(d.e)
    && Must(TextAt(m, Port), cs.num) == Some(d.port)
    && Must(TextAt(m, Dt), cs.num) == Some(d.dt) && Must(TextAt(m, Vf), cs.num) == Some(d.vf)
    && Maybe(TextAt(m, S), cs.key64) == Some(d.s)
    && Hostname in m && m[Hostname] == d.hostname && R in m && m[R] == d.r
  }

  lemma RestAssembles(m: map<Tag, string>, d: Descriptor, cs: Codecs)
    requires RestRead(m, d, cs) && HostnameOk(d.hostname) && PortOk(d.port) && cs.nets(d.r) == Some(d.r)
    ensures Assemble(Some(d.p), Some(d.v4a), Some(d.v6a), m, cs) == Some(d)
  {
  }

  /** A dictionary with the texts of d, together with its addresses, is d. */
  lemma TextsAssemble(m: map<Tag, string>, d: Descriptor, cs: Codecs)
    requires Valid(d, cs) && AllFaithful(cs)
    requires forall t | !Packed(t) :: TextAt(m, t) == TextOf(d, cs, t)
    ensures Assemble(Some(d.p), Some(d.v4a), Some(d.v6a), m, cs) == Some(d)
  {
    assert TextAt(m, Hostname) == Some(d.hostname) && TextAt(m, R) == Some(d.r);
    MustRead(m, d, cs);
    NumbersRead(m, d, cs);
    SignatureRead(m, d, cs);
    RestAssembles(m, d, cs);
  }

  lemma AcceptedIs(m: map<Tag, string>, d: Descriptor, cs: Codecs)
    requires Maybe(TextAt(m, P), cs.ip) == Some(d.p)
    requires Maybe(TextAt(m, V4a), cs.V4s()) == Some(d.v4a) && Maybe(TextAt(m, V6a), cs.V6s()) == Some(d.v6a)
    ensures Accepted(m, cs) == Assemble(Some(d.p), Some(d.v4a), Some(d.v6a), m, cs)
  {
  }

  lemma ListTexts(d: Descriptor, cs: Codecs)
    ensures TextOf(d, cs, V4a) == ShowMaybe(ListCodec(cs.v4), d.v4a)
    ensures TextOf(d, cs, V6a) == ShowMaybe(ListCodec(cs.v6), d.v6a)
  {
  }

  lemma ListsValid(d: Descriptor, cs: Codecs)
    requires Valid(d, cs)
    ensures d.v4a.Some? ==> ListCodec(cs.v4).valid(d.v4a.value)
    ensures d.v6a.Some? ==> ListCodec(cs.v6).valid(d.v6a.value)
  {
  }

  lemma MaybeRead<T(!new)>(text: Option<string>, c: Codec<T>, v: Option<T>)
    requires v.None? ==> text.None?
    requires v.Some? ==> text == Some(c.show(v.value)) && c.parse(c.show(v.value)) == v
    ensures Maybe(text, c) == Some(v)
  {
  }

  lemma ListRead<T(!new)>(text: Option<string>, c: Codec<T>, v: Option<seq<T>>)
    requires FaithfulItems(c) && (v.Some? ==> ListCodec(c).valid(v.value))
    requires text == ShowMaybe(ListCodec(c), v)
    ensures Maybe(text, ListCodec(c)) == Some(v)
  {
    if v.Some? {
      AddressPlain(c, v.value);
    }
    MaybeRead(text, ListCodec(c), v);
  }

  lemma ListsRead(m: map<Tag, string>, d: Descriptor, cs: Codecs)
    requires Valid(d, cs) && FaithfulItems(cs.v4) && FaithfulItems(cs.v6)
    requires TextAt(m, V4a) == TextOf(d, cs, V4a) && TextAt(m, V6a) == TextOf(d, cs, V6a)
    ensures Maybe(TextAt(m, V4a), cs.V4s()) == Some(d.v4a) && Maybe(TextAt(m, V6a), cs.V6s()) == Some(d.v6a)
  {
    ListTexts(d, cs);
    ListsValid(d, cs);
    ListRead(TextAt(m, V4a), cs.v4, d.v4a);
    ListRead(TextAt(m, V6a), cs.v6, d.v6a);
  }

  lemma PrimaryRead(m: map<Tag, string>, d: Descriptor, cs: Codecs)
    requires Valid(d, cs) && Faithful(cs.ip) && TextAt(m, P) == TextOf(d, cs, P)
    ensures Maybe(TextAt(m, P), cs.ip) == Some(d.p)
  {
    if d.p.Some? {
      ValuePlain(cs.ip, d.p.value);
    }
    MaybeRead(TextAt(m, P), cs.ip, d.p);
  }

  /** A dictionary with the texts of d is accepted as d. */
  lemma TextsAccepted(m: map<Tag, string>, d: Descriptor, cs: Codecs)
    requires Valid(d, cs) && AllFaithful(cs)
    requires forall t :: TextAt(m, t) == TextOf(d, cs, t)
    ensures Accepted(m, cs) == Some(d)
  {
    PrimaryRead(m, d, cs);
    ListsRead(m, d, cs);
    TextsAssemble(m, d, cs);
    AcceptedIs(m, d, cs);
  }

  lemma TrimmedValid(d: Descriptor, cs: Codecs)
    requires Valid(d, cs)
    ensures Valid(Trimmed(d), cs)
  {
    HostnameTrims(d.hostname);
  }

  lemma PrintedNoSemicolons(d: Descriptor, cs: Codecs, tags: seq<Tag>)
    requires Valid(d, cs) && AllFaithful(cs)
    ensures NoSemicolons(Fields(d, cs, tags))
  {
    FieldsTags(d, cs, tags);
    forall f | f in Fields(d, cs, tags) ensures ';' !in f.text {
      TextPlain(d, cs, f.tag);
    }
  }

  lemma PrintedPairs(d: Descriptor, cs: Codecs)
    requires Valid(d, cs) && AllFaithful(cs)
    ensures Pairs(Split(Print(d, cs), ';')) == Some(PairsOf(Fields(d, cs, TAGS)))
  {
    var fs := Fields(d, cs, TAGS);
    PrintedNoSemicolons(d, cs, TAGS);
    AllTags(C);
    FieldsValue(d, cs, TAGS, C);
    JoinIsSpaced(fs);
    LeadingSpace(Print(d, cs));
    SpacedPairs(fs);
  }

  lemma TrimmedValue(d: Descriptor, cs: Codecs, t: Tag)
    requires Valid(d, cs) && AllFaithful(cs)
    ensures LastValue(Fields(d, cs, TAGS), t) == TextOf(Trimmed(d), cs, t)
  {
    PrintedValue(d, cs, t);
    if TextOf(d, cs, t).Some? {
      TextPlain(d, cs, t);
    }
  }

  /** Printing and parsing gives the descriptor back, with its host name stripped. */
  lemma TextRoundTrip(d: Descriptor, cs: Codecs)
    requires Valid(d, cs) && AllFaithful(cs)
    ensures Parse(Print(d, cs), cs) == Some(Trimmed(d))
  {
    PrintedPairs(d, cs);
    DictionaryOf(Fields(d, cs, TAGS));
    var m := Dictionary(PairsOf(Fields(d, cs, TAGS))).value;
    forall t ensures TextAt(m, t) == TextOf(Trimmed(d), cs, t) {
      TrimmedValue(d, cs, t);
    }
    TrimmedValid(d, cs);
    TextsAccepted(m, Trimmed(d), cs);
  }

  /** So the text form is faithful exactly for descriptors whose host name does not end in a newline. */
  lemma TextFaithfulExactly(d: Descriptor, cs: Codecs)
    requires Valid(d, cs) && AllFaithful(cs)
    ensures Parse(Print(d, cs), cs) == Some(d) <==> !EndsInNewline(d.hostname)
  {
    TextRoundTrip(d, cs);
    HostnameTrims(d.hostname);
  }

  /** Putting a newline after a host name leaves it acceptable, and the text form takes it off again. */
  lemma NewlineIsLost(d: Descriptor, cs: Codecs)
    requires Valid(d, cs) && AllFaithful(cs) && NameChars(d.hostname) && |d.hostname| < 255
    ensures var twin := d.(hostname := d.hostname + "\n");
            Valid(twin, cs) && twin != d && Parse(Print(twin, cs), cs) == Some(d)
  {
    var twin := d.(hostname := d.hostname + "\n");
    assert twin.hostname[..|d.hostname|] == d.hostname;
    NameCharsPlain(d.hostname);
    TextRoundTrip(twin, cs);
  }

  /** For example: the host that calls itself "alice.local" and a newline is parsed as alice.local. */
  lemma AliceLosesNewline(d: Descriptor, cs: Codecs)
    requires Valid(d, cs) && AllFaithful(cs) && d.hostname == "alice.local"
    ensures var twin := d.(hostname := "alice.local\n");
            Valid(twin, cs) && twin != d && Parse(Print(twin, cs), cs) == Some(d)
  {
    NewlineIsLost(d, cs);
    assert "alice.local" + "\n" == "alice.local\n";
  }

  // ----- the signed buffer -----

  lemma SameEntry(f: Field, g: Field)
    requires FieldText(f) == FieldText(g)
    ensures f == g
  {
    EntryHalves(f.tag, f.text);
    EntryHalves(g.tag, g.text);
    TagTextParses(f.tag);
    TagTextParses(g.tag);
  }

  lemma {:induction false} SpacedInjective(fs: seq<Field>, gs: seq<Field>)
    requires NoSemicolons(fs) && NoSemicolons(gs) && Spaced(fs) == Spaced(gs)
    ensures fs == gs
  {
    if fs != [] && gs != [] {
      SpacedSplits(fs);
      SpacedSplits(gs);
      assert Split(Spaced(fs), ';')[0] == Split(Spaced(gs), ';')[0];
      assert FieldText(fs[0]) == (" " + FieldText(fs[0]))[1..];
      assert FieldText(gs[0]) == (" " + FieldText(gs[0]))[1..];
      SameEntry(fs[0], gs[0]);
      var head := " " + FieldText(fs[0]) + ";";
      assert Spaced(fs[1..]) == Spaced(fs)[|head|..] && Spaced(gs[1..]) == Spaced(gs)[|head|..];
      SpacedInjective(fs[1..], gs[1..]);
    }
  }

  lemma SignedTags(t: Tag)
    ensures t in Without(TAGS, S) <==> t != S
    ensures NoRepeats(Without(TAGS, S))
  {
    AllTags(t);
  }

  lemma SameBufferSameFields(d: Descriptor, f: Descriptor, cs: Codecs)
    requires Valid(d, cs) && Valid(f, cs) && AllFaithful(cs)
    requires SigBuf(d, cs) == SigBuf(f, cs)
    ensures Fields(d, cs, Without(TAGS, S)) == Fields(f, cs, Without(TAGS, S))
  {
    var tags := Without(TAGS, S);
    SignedTags(C);
    FieldsValue(d, cs, tags, C);
    FieldsValue(f, cs, tags, C);
    JoinIsSpaced(Fields(d, cs, tags));
    JoinIsSpaced(Fields(f, cs, tags));
    PrintedNoSemicolons(d, cs, tags);
    PrintedNoSemicolons(f, cs, tags);
    SpacedInjective(Fields(d, cs, tags), Fields(f, cs, tags));
  }

  lemma SameFieldsSameTexts(d: Descriptor, f: Descriptor, cs: Codecs, t: Tag)
    requires Fields(d, cs, Without(TAGS, S)) == Fields(f, cs, Without(TAGS, S)) && t != S
    ensures TextOf(d, cs, t) == TextOf(f, cs, t)
  {
    var tags := Without(TAGS, S);
    SignedTags(t);
    FieldsTags(d, cs, tags);
    FieldsTags(f, cs, tags);
    if TextOf(d, cs, t).Some? {
      FieldsValue(d, cs, tags, t);
    }
    if TextOf(f, cs, t).Some? {
      FieldsValue(f, cs, tags, t);
    }
  }

  function Unsigned(d: Descriptor): Descriptor {
    d.(s := None)
  }

  lemma {:induction false} UnsignedFields(d: Descriptor, cs: Codecs, tags: seq<Tag>)
    ensures Fields(d, cs, Without(tags, S)) == Fields(Unsigned(d), cs, tags)
  {
    if tags != [] {
      UnsignedFields(d, cs, tags[1..]);
      if tags[0] != S {
        assert ([tags[0]] + Without(tags[1..], S))[1..] == Without(tags[1..], S);
      }
    }
  }

  /** The signed buffer is the text form of the descriptor without its signature. */
  lemma SigBufIsUnsigned(d: Descriptor, cs: Codecs)
    ensures SigBuf(d, cs) == Print(Unsigned(d), cs)
  {
    UnsignedFields(d, cs, TAGS);
  }

  /** A descriptor is determined by the texts of its fields. */
  lemma SameTextsSame(d: Descriptor, f: Descriptor, cs: Codecs)
    requires Valid(d, cs) && Valid(f, cs) && AllFaithful(cs)
    requires forall t :: TextOf(d, cs, t) == TextOf(f, cs, t)
    ensures d == f
  {
    var m := map t: Tag | t in TAGS && TextOf(d, cs, t).Some? :: TextOf(d, cs, t).value;
    forall t ensures TextAt(m, t) == TextOf(d, cs, t) {
      AllTags(t);
    }
    TextsAccepted(m, d, cs);
    TextsAccepted(m, f, cs);
  }

  lemma UnsignedTexts(d: Descriptor, cs: Codecs, t: Tag)
    ensures TextOf(Unsigned(d), cs, t) == if t == S then None else TextOf(d, cs, t)
  {
  }

  /** What is signed determines everything but the signature. */
  lemma SigBufInjective(d: Descriptor, f: Descriptor, cs: Codecs)
    requires Valid(d, cs) && Valid(f, cs) && AllFaithful(cs)
    requires SigBuf(d, cs) == SigBuf(f, cs)
    ensures Unsigned(d) == Unsigned(f)
  {
    SameBufferSameFields(d, f, cs);
    forall t ensures TextOf(Unsigned(d), cs, t) == TextOf(Unsigned(f), cs, t) {
      UnsignedTexts(d, cs, t);
      UnsignedTexts(f, cs, t);
      if t != S {
        SameFieldsSameTexts(d, f, cs, t);
      }
    }
    SameTextsSame(Unsigned(d), Unsigned(f), cs);
  }

  /** `verify_signature`, with the check of the signature itself left open. */
  predicate Verified(d: Descriptor, cs: Codecs, check: (Key, string, Key) -> bool) {
    d.s.Some? && check(d.vk, SigBuf(d, cs), d.s.value)
  }

  /**
   * What was signed is still what is signed after printing and parsing, so that a
   * valid signature stays valid, exactly if the host name does not end in a newline.
   */
  lemma SignatureSurvives(d: Descriptor, cs: Codecs, check: (Key, string, Key) -> bool)
    requires Valid(d, cs) && AllFaithful(cs)
    ensures Parse(Print(d, cs), cs).Some?
    ensures var back := Parse(Print(d, cs), cs).value;
            && (SigBuf(back, cs) == SigBuf(d, cs) <==> !EndsInNewline(d.hostname))
            && (!EndsInNewline(d.hostname) ==> (Verified(back, cs, check) <==> Verified(d, cs, check)))
  {
    TextRoundTrip(d, cs);
    HostnameTrims(d.hostname);
    TrimmedValid(d, cs);
    if SigBuf(Trimmed(d), cs) == SigBuf(d, cs) {
      SigBufInjective(Trimmed(d), d, cs);
      assert Unsigned(Trimmed(d)).hostname == Unsigned(d).hostname;
    }
  }
}
