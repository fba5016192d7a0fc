/** The text of addresses and networks, as Python's ipaddress module writes it. */
module Nets {
  import opened Addresses
  import opened Text

  function HexDigit(n: nat): char
    requires n < 16
  {
    if n < 10 then Digit(n) else ('a' as int + n - 10) as char
  }

  /** "%x" */
  function Hexadecimal(n: nat): string {
    if n < 16 then [HexDigit(n)] else Hexadecimal(n / 16) + [HexDigit(n % 16)]
  }

  function Octets(o: Bytes): seq<string> {
    seq(|o|, i requires 0 <= i < |o| => Decimal(o[i] as int))
  }

  function Hextets(o: Bytes): seq<string> {
    seq(|o| / 2, i requires 0 <= i < |o| / 2 => Hexadecimal(o[2 * i] as int * 256 + o[2 * i + 1] as int))
  }

  /** How many pieces from i on are zero. */
  function ZeroRun(pieces: seq<string>, i: nat): (n: nat)
    requires i <= |pieces|
    ensures i + n <= |pieces|
    decreases |pieces| - i
  {
    if i < |pieces| && pieces[i] == "0" then 1 + ZeroRun(pieces, i + 1) else 0
  }

  /** Where the longest run of zero pieces begins, the first one of several. */
  function LongestRun(pieces: seq<string>, i: nat): (start: nat)
    requires i <= |pieces|
    ensures start <= |pieces|
    decreases |pieces| - i
  {
    if i == |pieces| then i
    else
      var later := LongestRun(pieces, i + 1);
      if ZeroRun(pieces, i) >= ZeroRun(pieces, later) then i else later
  }

  /** A run of two zero pieces or more is left out. */
  function Compressed(pieces: seq<string>): string {
    var start := LongestRun(pieces, 0);
    var end := start + ZeroRun(pieces, start);
    if end < start + 2 then Join(":", pieces) else Join(":", pieces[..start]) + "::" + Join(":", pieces[end..])
  }

  function ShowIp(ip: IP): string {
    if ip.V4? then Join(".", Octets(ip.octets)) else Compressed(Hextets(ip.octets))
  }

  function ShowNet(n: Net): string {
    ShowIp(n.address) + "/" + Decimal(n.prefix)
  }

  lemma JoinFour(w: string, x: string, y: string, z: string)
    ensures Join(".", [w, x, y, z]) == w + "." + x + "." + y + "." + z
  {
    assert [w, x, y, z][1..] == [x, y, z] && [x, y, z][1..] == [y, z] && [y, z][1..] == [z];
    assert Join(".", [y, z]) == y + "." + z;
    assert Join(".", [x, y, z]) == x + "." + y + "." + z;
  }

  lemma ShownV4(a: byte, b: byte, c: byte, d: byte, prefix: nat)
    ensures ShowNet(Net(V4([a, b, c, d]), prefix))
         == Decimal(a as int) + "." + Decimal(b as int) + "." + Decimal(c as int) + "." + Decimal(d as int)
          + "/" + Decimal(prefix)
  {
    assert Octets([a, b, c, d]) == [Decimal(a as int), Decimal(b as int), Decimal(c as int), Decimal(d as int)];
    JoinFour(Decimal(a as int), Decimal(b as int), Decimal(c as int), Decimal(d as int));
  }

  lemma ShownLast(n: Net)
    ensures ShowNet(n) != "" && ShowNet(n)[|ShowNet(n)| - 1] == Digit(n.prefix % 10)
  {
    DecimalNonempty(n.prefix);
  }

  /** Behind the only slash there are digits. */
  lemma ShownPrefix(n: Net, i: nat)
    requires i < |ShowNet(n)| && forall j | 0 <= j < |ShowNet(n)| && j != i :: ShowNet(n)[j] != '/'
    ensures forall j | i < j < |ShowNet(n)| :: '0' <= ShowNet(n)[j] <= '9'
  {
    assert ShowNet(n)[|ShowIp(n.address)|] == '/';
    DecimalDigits(n.prefix);
    forall j | i < j < |ShowNet(n)| ensures '0' <= ShowNet(n)[j] <= '9' {
      assert ShowNet(n)[j] == Decimal(n.prefix)[j - i - 1];
      assert ShowNet(n)[j] in Decimal(n.prefix);
    }
  }

  // ----- the fixed networks -----

  lemma {:induction false} ZerosFromOne(pieces: seq<string>, i: nat)
    requires i <= |pieces| && forall j | i <= j < |pieces| :: pieces[j] == "0"
    ensures ZeroRun(pieces, i) == |pieces| - i && LongestRun(pieces, i) == i
    decreases |pieces| - i
  {
    if i < |pieces| {
      ZerosFromOne(pieces, i + 1);
    }
  }

  lemma {:induction false} RunStartsBehind(heads: seq<string>, pieces: seq<string>, i: nat)
    requires i <= |heads| < |pieces| && pieces[..|heads|] == heads && (forall h | h in heads :: h != "0")
    requires forall j | |heads| <= j < |pieces| :: pieces[j] == "0"
    ensures LongestRun(pieces, i) == |heads|
    decreases |heads| - i
  {
    ZerosFromOne(pieces, |heads|);
    if i < |heads| {
      RunStartsBehind(heads, pieces, i + 1);
      assert pieces[i] == pieces[..|heads|][i] && pieces[i] in heads;
    }
  }

  /** Zeros at the end, two or more, are left out. */
  lemma TailCompressed(heads: seq<string>, pieces: seq<string>)
    requires |heads| + 2 <= |pieces| && pieces[..|heads|] == heads && (forall h | h in heads :: h != "0")
    requires forall j | |heads| <= j < |pieces| :: pieces[j] == "0"
    ensures Compressed(pieces) == Join(":", heads) + "::"
  {
    RunStartsBehind(heads, pieces, 0);
    ZerosFromOne(pieces, |heads|);
    assert pieces[|pieces|..] == [] && Join(":", heads) + "::" + "" == Join(":", heads) + "::";
  }

  /** The first hextets, the others being zero. */
  predicate Heads(o: Bytes, heads: seq<string>) {
    && |o| == 16 && |heads| <= 6
    && (forall i | 0 <= i < |heads| ::
          heads[i] == Hexadecimal(o[2 * i] as int * 256 + o[2 * i + 1] as int) && heads[i] != "0")
    && forall i | 2 * |heads| <= i < 16 :: o[i] == 0
  }

  lemma ShownHeads(o: Bytes, heads: seq<string>, prefix: nat)
    requires Heads(o, heads)
    ensures ShowNet(Net(V6(o), prefix)) == Join(":", heads) + "::" + "/" + Decimal(prefix)
  {
    var pieces := Hextets(o);
    assert pieces[..|heads|] == heads;
    TailCompressed(heads, pieces);
  }

  lemma HexSnoc(m: nat, n: nat, d: nat)
    requires m == 16 * n + d && n > 0 && d < 16
    ensures Hexadecimal(m) == Hexadecimal(n) + [HexDigit(d)]
  {
    assert m / 16 == n && m % 16 == d;
  }

  lemma HexOne(a: nat)
    requires a < 16
    ensures Hexadecimal(a) == [HexDigit(a)]
  {
  }

  lemma FourDigits(s: string, t: string, u: string, v: string, a: char, b: char, c: char, d: char)
    requires s == [a] && t == s + [b] && u == t + [c] && v == u + [d]
    ensures v == [a, b, c, d]
  {
  }

  lemma HexOf(a: nat, b: nat, c: nat, d: nat, two: nat, three: nat, four: nat)
    requires a < 16 && b < 16 && c < 16 && d < 16 && a > 0
    requires two == 16 * a + b && three == 16 * two + c && four == 16 * three + d
    ensures Hexadecimal(four) == [HexDigit(a), HexDigit(b), HexDigit(c), HexDigit(d)]
  {
    HexOne(a);
    HexSnoc(two, a, b);
    HexSnoc(three, two, c);
    HexSnoc(four, three, d);
    FourDigits(Hexadecimal(a), Hexadecimal(two), Hexadecimal(three), Hexadecimal(four),
               HexDigit(a), HexDigit(b), HexDigit(c), HexDigit(d));
  }

  /** A hextet by its four digits. */
  lemma HexText(high: byte, low: byte, text: string)
    requires high >= 16 && |text| == 4
    requires text[0] == HexDigit(high as int / 16) && text[1] == HexDigit(high as int % 16)
    requires text[2] == HexDigit(low as int / 16) && text[3] == HexDigit(low as int % 16)
    ensures Hexadecimal(high as int * 256 + low as int) == text
  {
    var a, b, c, d := high as int / 16, high as int % 16, low as int / 16, low as int % 16;
    HexOf(a, b, c, d, high as int, high as int * 16 + c, high as int * 256 + low as int);
  }

  lemma JoinThree(x: string, y: string, z: string)
    ensures Join(":", [x, y, z]) == x + ":" + y + ":" + z
  {
    assert [x, y, z][1..] == [y, z] && [y, z][1..] == [z];
    assert Join(":", [y, z]) == y + ":" + z;
  }

  lemma VulaHeads()
    ensures Heads(VULA_ULA_SUBNET.address.octets, ["fdff", "ffff", "ffdf"])
  {
    HexText(0xfd, 0xff, "fdff");
    HexText(0xff, 0xff, "ffff");
    HexText(0xff, 0xdf, "ffdf");
  }

  lemma OneHead(high: byte, low: byte, text: string, o: Bytes)
    requires |o| == 16 && o[0] == high && o[1] == low && forall i | 2 <= i < 16 :: o[i] == 0
    requires Hexadecimal(high as int * 256 + low as int) == text && text != "0"
    ensures Heads(o, [text])
  {
  }

  lemma ShownOne(high: byte, low: byte, text: string, o: Bytes, prefix: nat, digits: string)
    requires |o| == 16 && o[0] == high && o[1] == low && forall i | 2 <= i < 16 :: o[i] == 0
    requires Hexadecimal(high as int * 256 + low as int) == text && text != "0" && Decimal(prefix) == digits
    ensures ShowNet(Net(V6(o), prefix)) == text + "::/" + digits
  {
    OneHead(high, low, text, o);
    ShownHeads(o, [text], prefix);
    assert text + "::" + "/" == text + "::/";
  }

  lemma VulaPieces()
    ensures "fdff" + ":" + "ffff" + ":" + "ffdf" == "fdff:ffff:ffdf"
  {
    assert "fdff" + ":" == "fdff:";
    assert "fdff:" + "ffff" == "fdff:ffff";
    assert "fdff:ffff" + ":" == "fdff:ffff:";
  }

  lemma VulaPrefixed()
    ensures "fdff:ffff:ffdf" + "::" + "/" + "48" == "fdff:ffff:ffdf::/48"
  {
    assert "fdff:ffff:ffdf" + "::" == "fdff:ffff:ffdf::";
    assert "fdff:ffff:ffdf::" + "/" == "fdff:ffff:ffdf::/";
  }

  lemma FortyEight()
    ensures Decimal(48) == "48"
  {
  }

  lemma ShownThree(o: Bytes, x: string, y: string, z: string, prefix: nat)
    requires Heads(o, [x, y, z])
    ensures ShowNet(Net(V6(o), prefix)) == x + ":" + y + ":" + z + "::" + "/" + Decimal(prefix)
  {
    ShownHeads(o, [x, y, z], prefix);
    JoinThree(x, y, z);
  }

  lemma VulaText()
    ensures ShowNet(VULA_ULA_SUBNET) == "fdff:ffff:ffdf::/48"
  {
    VulaHeads();
    ShownThree(VULA_ULA_SUBNET.address.octets, "fdff", "ffff", "ffdf", 48);
    VulaPieces();
    VulaPrefixed();
    FortyEight();
  }

  lemma OneHeadTexts()
    ensures "fc00" + "::/" + "7" == "fc00::/7" && "fe80" + "::/" + "10" == "fe80::/10"
    ensures "8000" + "::/" + "1" == "8000::/1"
  {
    assert "fc00" + "::/" == "fc00::/" && "fe80" + "::/" == "fe80::/" && "8000" + "::/" == "8000::/";
  }

  lemma UlaText()
    ensures ShowNet(IPV6_ULA) == "fc00::/7"
  {
    HexText(0xfc, 0, "fc00");
    assert Decimal(7) == "7";
    ShownOne(0xfc, 0, "fc00", IPV6_ULA.address.octets, 7, "7");
    OneHeadTexts();
  }

  lemma Ten()
    ensures Decimal(10) == "10"
  {
  }

  lemma LinkLocalText()
    ensures ShowNet(IPV6_LL) == "fe80::/10"
  {
    HexText(0xfe, 0x80, "fe80");
    Ten();
    ShownOne(0xfe, 0x80, "fe80", IPV6_LL.address.octets, 10, "10");
    OneHeadTexts();
  }

  lemma LinkLocalV4Text()
    ensures ShowNet(IPV4_LL) == "169.254.0.0/16"
  {
    ShownV4(169, 254, 0, 0, 16);
    assert Decimal(169) == "169" && Decimal(254) == "254" && Decimal(16) == "16";
  }

  /** The networks of vula/constants.py, as they are written there. */
  lemma FixedTexts()
    ensures ShowNet(VULA_ULA_SUBNET) == "fdff:ffff:ffdf::/48" && ShowNet(IPV6_ULA) == "fc00::/7"
    ensures ShowNet(IPV6_LL) == "fe80::/10" && ShowNet(IPV4_LL) == "169.254.0.0/16"
  {
    VulaText();
    UlaText();
    LinkLocalText();
    LinkLocalV4Text();
  }

  lemma ZeroText(prefix: nat)
    ensures ShowNet(Net(V6(ZERO16), prefix)) == "::/" + Decimal(prefix)
  {
    ShownHeads(ZERO16, [], prefix);
    assert "" + "::" + "/" == "::/";
  }

  lemma HighText(o: Bytes)
    requires |o| == 16 && o[0] == 128 && forall i | 1 <= i < 16 :: o[i] == 0
    ensures ShowNet(Net(V6(o), 1)) == "8000::/1"
  {
    HexText(128, 0, "8000");
    ShownOne(128, 0, "8000", o, 1, "1");
    OneHeadTexts();
  }

  lemma ShownQuads(a: byte, b: byte, c: byte, d: byte, prefix: nat, w: string, x: string, y: string, z: string,
                   digits: string)
    requires Decimal(a as int) == w && Decimal(b as int) == x && Decimal(c as int) == y && Decimal(d as int) == z
    requires Decimal(prefix) == digits
    ensures ShowNet(Net(V4([a, b, c, d]), prefix)) == w + "." + x + "." + y + "." + z + "/" + digits
  {
    ShownV4(a, b, c, d, prefix);
  }
}
