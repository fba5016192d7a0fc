/**
 * When unchunking undoes chunking, exactly: values that need a third digit are lost
 * whatever else is in the dictionary, unless the key is empty.
 */
module ChunkLoss {
  import opened Addresses
  import opened OrderedDict
  import opened Text
  import opened Chunks

  // ----- keys under keys -----

  /** The value of k needs more than a hundred chunks. */
  ghost predicate Long(d: Dict<string, string>, n: int, k: string)
    requires HasRoom(d, n)
  {
    IsSplit(d, n, k) && |Parts(d, n, k)| > 100
  }

  /** j is i followed by digits, or i itself. */
  predicate Under(i: string, j: string) {
    i <= j && IsDigits(j[|i|..])
  }

  lemma DigitsConcat(s: string, t: string)
    requires IsDigits(s) && IsDigits(t)
    ensures IsDigits(s + t)
  {
  }

  lemma DigitsSlice(s: string, a: nat, b: nat)
    requires IsDigits(s) && a <= b <= |s|
    ensures IsDigits(s[a..b])
  {
    forall c | c in s[a..b] ensures c in s {
      var i :| 0 <= i < b - a && s[a..b][i] == c;
      assert s[a + i] == c;
    }
  }

  lemma UnderTrans(i: string, j: string, k: string)
    requires Under(i, j) && Under(j, k)
    ensures Under(i, k)
  {
    assert j == k[..|j|] && i == j[..|i|];
    DigitsConcat(j[|i|..], k[|j|..]);
    assert k[|i|..] == j[|i|..] + k[|j|..];
  }

  /** Of two keys r is under, the longer one need not be looked at for digits. */
  lemma UnderShorter(i: string, k: string, r: string)
    requires Under(i, r) && k <= r && |i| <= |k|
    ensures IsDigits(r[|k|..])
  {
    DigitsSlice(r[|i|..], |k| - |i|, |r| - |i|);
    assert r[|k|..] == r[|i|..][|k| - |i|..|r| - |i|];
  }

  /** No other long key is one that k is under: no third-digit chunk of another key looks like a chunk of k. */
  ghost predicate Rooted(d: Dict<string, string>, n: int, k: string)
    requires HasRoom(d, n)
  {
    Long(d, n, k) && forall i | Long(d, n, i) && Under(i, k) :: i == k
  }

  lemma {:induction false} RootOf(d: Dict<string, string>, n: int, k: string) returns (i: string)
    requires HasRoom(d, n) && Long(d, n, k)
    ensures Rooted(d, n, i) && Under(i, k)
    decreases |k|
  {
    if Rooted(d, n, k) {
      i := k;
    } else {
      var j :| Long(d, n, j) && Under(j, k) && j != k;
      assert |j| < |k|;
      i := RootOf(d, n, j);
      UnderTrans(i, j, k);
    }
  }

  lemma PaddedDigits(n: nat)
    ensures IsDigits(Padded(n))
  {
    DecimalDigits(n);
  }

  predicate TwoDigits(s: string) {
    |s| == 2 && IsDigits(s)
  }

  lemma DigitOf(c: char) returns (i: nat)
    requires '0' <= c <= '9'
    ensures i < 10 && Digit(i) == c
  {
    i := c as int - '0' as int;
  }

  lemma DigitsOf(s: string) returns (c: nat)
    requires TwoDigits(s)
    ensures c < 100 && Padded(c) == s
  {
    assert s[0] in s && s[1] in s;
    var a := DigitOf(s[0]);
    var b := DigitOf(s[1]);
    c := 10 * a + b;
    PaddedSmall(c);
    assert c / 10 == a && c % 10 == b;
  }

  /** A key that ends in two digits is the chunk with that number. */
  lemma TwoDigitChunk(x: string) returns (c: nat)
    requires TwoDigits(Tail(x))
    ensures c < 100 && x == ChunkKey(Head(x), c)
  {
    c := DigitsOf(Tail(x));
    assert x == Head(x) + Tail(x);
  }

  lemma ChunkTail(k: string, c: nat)
    ensures TwoDigits(Tail(ChunkKey(k, c)))
  {
    PaddedDigits(c);
    if c < 100 {
      PaddedSmall(c);
      ChunkKeyParts(k, c);
    } else {
      TwoLastDigits(c);
      DigitsSlice(Padded(c), |Padded(c)| - 2, |Padded(c)|);
      assert Tail(k + Padded(c)) == Padded(c)[|Padded(c)| - 2..|Padded(c)|];
    }
  }

  /** The head of a chunk is its key, or for a third-digit chunk, its key and at least one digit. */
  lemma ChunkHead(k: string, c: nat)
    ensures c < 100 ==> Head(ChunkKey(k, c)) == k
    ensures c >= 100 ==> Under(k, Head(ChunkKey(k, c))) && Head(ChunkKey(k, c)) != k
  {
    if c < 100 {
      ChunkKeyParts(k, c);
    } else {
      PaddedLarge(c);
      PaddedDigits(c);
      var h := Head(ChunkKey(k, c));
      DigitsSlice(Padded(c), 0, |Padded(c)| - 2);
      assert h[|k|..] == Padded(c)[..|Padded(c)| - 2] && h[..|k|] == k;
    }
  }

  // What is under a key, and that what was put there stays.

  lemma {:induction false} PutPiecesValue(m: map<string, string>, k: string, ps: seq<string>, x: string)
    requires x in PutPieces(m, k, ps)
    ensures || (x in m && PutPieces(m, k, ps)[x] == m[x])
            || exists c: nat | c < |ps| :: x == ChunkKey(k, c) && PutPieces(m, k, ps)[x] == ps[c]
  {
    if ps != [] {
      var last := |ps| - 1;
      if x == ChunkKey(k, last) {
        assert PutPieces(m, k, ps)[x] == ps[last];
      } else {
        PutPiecesValue(m, k, ps[..last], x);
        if c: nat :| c < last && x == ChunkKey(k, c) && PutPieces(m, k, ps[..last])[x] == ps[..last][c] {
          assert PutPieces(m, k, ps)[x] == ps[c];
        }
      }
    }
  }

  /** A value under x is an item's that fits, or a piece of one that does not. */
  ghost predicate ValueFrom(d: Dict<string, string>, n: int, x: string, v: string)
    requires HasRoom(d, n)
  {
    || (x in d.at && !IsSplit(d, n, x) && v == d.at[x])
    || exists k, c: nat | IsSplit(d, n, k) && c < |Parts(d, n, k)| :: x == ChunkKey(k, c) && v == Parts(d, n, k)[c]
  }

  lemma {:induction false} ChunkedValue(d: Dict<string, string>, n: int, i: nat, x: string)
    requires i <= |d.order| && HasRoom(d, n)
    requires Chunked(d, n, i).Some? && x in Chunked(d, n, i).value
    ensures ValueFrom(d, n, x, Chunked(d, n, i).value[x])
  {
    if i > 0 {
      var k := d.order[i - 1];
      assert k in d.order;
      var m := Chunked(d, n, i - 1).value;
      if IsSplit(d, n, k) {
        PutPiecesValue(m, k, Parts(d, n, k), x);
        if x in m && Chunked(d, n, i).value[x] == m[x] {
          ChunkedValue(d, n, i - 1, x);
        }
      } else if x != k {
        ChunkedValue(d, n, i - 1, x);
      }
    }
  }

  lemma EmitKeeps(d: Dict<string, string>, n: int, m: map<string, string>, j: string, x: string)
    requires HasRoom(d, n) && j in d.at && x in m
    ensures Emit(m, j, d.at[j], n).Some? && x in Emit(m, j, d.at[j], n).value
  {
    if IsSplit(d, n, j) {
      PutPiecesKeys(m, j, Parts(d, n, j), x);
    }
  }

  lemma EmitPuts(d: Dict<string, string>, n: int, m: map<string, string>, k: string, c: nat)
    requires HasRoom(d, n) && IsSplit(d, n, k) && c < |Parts(d, n, k)|
    ensures Emit(m, k, d.at[k], n).Some? && ChunkKey(k, c) in Emit(m, k, d.at[k], n).value
  {
    PutPiecesKeys(m, k, Parts(d, n, k), ChunkKey(k, c));
  }

  lemma ChunkedStep(d: Dict<string, string>, n: int, i: nat)
    requires 0 < i <= |d.order| && Chunked(d, n, i).Some?
    ensures d.order[i - 1] in d.at && Chunked(d, n, i - 1).Some?
    ensures Chunked(d, n, i) == Emit(Chunked(d, n, i - 1).value, d.order[i - 1], d.at[d.order[i - 1]], n)
  {
    assert d.order[i - 1] in d.order;
  }

  lemma {:induction false} ChunkedHas(d: Dict<string, string>, n: int, i: nat, k: string, c: nat)
    requires i <= |d.order| && HasRoom(d, n) && Chunked(d, n, i).Some?
    requires k in d.order[..i] && IsSplit(d, n, k) && c < |Parts(d, n, k)|
    ensures ChunkKey(k, c) in Chunked(d, n, i).value
  {
    var j, m := d.order[i - 1], Chunked(d, n, i - 1);
    ChunkedStep(d, n, i);
    assert d.order[..i] == d.order[..i - 1] + [j];
    if j == k {
      EmitPuts(d, n, m.value, k, c);
    } else {
      ChunkedHas(d, n, i - 1, k, c);
      EmitKeeps(d, n, m.value, j, ChunkKey(k, c));
    }
  }

  // The chunks of a rooted key, and how much they hold.

  lemma PieceFits(d: Dict<string, string>, n: int, k: string, c: nat)
    requires HasRoom(d, n) && IsSplit(d, n, k) && c < |Parts(d, n, k)|
    ensures |Parts(d, n, k)[c]| <= Room(k, n)
  {
    PiecesFlat(d.at[k], Room(k, n));
    assert Parts(d, n, k)[c] in Parts(d, n, k);
  }

  /** What is under a two-digit chunk of a rooted key is no longer than such a chunk. */
  lemma RootedChunkFits(d: Dict<string, string>, n: int, k: string, c: nat, v: string)
    requires HasRoom(d, n) && Rooted(d, n, k) && c < 100 && ValueFrom(d, n, ChunkKey(k, c), v)
    ensures |v| <= Room(k, n)
  {
    PaddedSmall(c);
    ChunkHead(k, c);
    if !(ChunkKey(k, c) in d.at && !IsSplit(d, n, ChunkKey(k, c)) && v == d.at[ChunkKey(k, c)]) {
      var j, b: nat :| IsSplit(d, n, j) && b < |Parts(d, n, j)| && ChunkKey(k, c) == ChunkKey(j, b)
          && v == Parts(d, n, j)[b];
      ChunkHead(j, b);
      assert b < 100;
      PieceFits(d, n, k, b);
    }
  }

  lemma {:induction false} FlatBound(ps: seq<string>, cs: nat)
    requires forall p | p in ps :: |p| <= cs
    ensures |Flat(ps)| <= |ps| * cs
  {
    if ps != [] {
      var last := |ps| - 1;
      assert ps[last] in ps;
      forall p | p in ps[..last] ensures |p| <= cs {
        assert p in ps;
      }
      FlatBound(ps[..last], cs);
      assert |ps| * cs == last * cs + cs;
    }
  }

  lemma {:induction false} PiecesMany(v: string, cs: nat, i: nat)
    requires cs > 0 && |Pieces(v, cs)| > i
    ensures |v| > i * cs
  {
    if i > 0 {
      assert Pieces(v, cs)[1..] == Pieces(v[cs..], cs);
      PiecesMany(v[cs..], cs, i - 1);
      assert i * cs == (i - 1) * cs + cs;
    }
  }

  lemma LongIsMany(d: Dict<string, string>, n: int, k: string)
    requires HasRoom(d, n) && Long(d, n, k)
    ensures |d.at[k]| > 100 * Room(k, n)
  {
    PiecesMany(d.at[k], Room(k, n), 100);
  }

  /** The hundred values under the two-digit chunks of k. */
  function Hundred(m: map<string, string>, k: string): seq<string>
    requires forall c: nat | c < 100 :: ChunkKey(k, c) in m
  {
    seq(100, c requires 0 <= c < 100 => m[ChunkKey(k, c)])
  }

  lemma HundredThere(d: Dict<string, string>, n: int, m: map<string, string>, order: seq<string>, k: string)
    requires ChunkedTo(d, n, m, order) && Rooted(d, n, k)
    ensures forall c: nat | c < 100 :: ChunkKey(k, c) in m
    ensures |Flat(Hundred(m, k))| <= 100 * Room(k, n)
  {
    InOrder(d, k);
    forall c: nat | c < 100 ensures ChunkKey(k, c) in m && |m[ChunkKey(k, c)]| <= Room(k, n) {
      ChunkedHas(d, n, |d.order|, k, c);
      ChunkedValue(d, n, |d.order|, ChunkKey(k, c));
      RootedChunkFits(d, n, k, c, m[ChunkKey(k, c)]);
    }
    FlatBound(Hundred(m, k), Room(k, n));
  }

  /** A key that looks like a chunk of k, but not with two digits. */
  ghost predicate OddChunk(m: map<string, string>, accepts: string -> bool, k: string, x: string) {
    x in m && accepts(Tail(x)) && Head(x) == k && !TwoDigits(Tail(x))
  }

  lemma SplitNotPlain(d: Dict<string, string>, n: int, m: map<string, string>, order: seq<string>,
                      accepts: string -> bool, k: string)
    requires ChunkedTo(d, n, m, order) && LikeInt(accepts) && IsSplit(d, n, k)
    ensures k in m ==> accepts(Tail(k))
  {
    if k in m {
      EmittedFrom(d, n, m, order, k);
      var j, c: nat :| IsSplit(d, n, j) && c < |Parts(d, n, j)| && k == ChunkKey(j, c);
      TailAccepted(j, c, accepts);
    }
  }

  lemma HundredClean(m: map<string, string>, accepts: string -> bool, k: string)
    requires forall c: nat | c < 100 :: ChunkKey(k, c) in m
    requires forall x :: !OddChunk(m, accepts, k, x)
    ensures Clean(m, k, Hundred(m, k), accepts)
  {
    forall x | x in m && accepts(Tail(x)) && Head(x) == k ensures exists c: nat | c < 100 :: x == ChunkKey(k, c) {
      assert !OddChunk(m, accepts, k, x);
      var c := TwoDigitChunk(x);
    }
  }

  /** Where only two-digit chunks look like chunks of it, a rooted key does not come back. */
  lemma RootedIsLost(d: Dict<string, string>, n: int, m: map<string, string>, order: seq<string>,
                     accepts: string -> bool, k: string)
    requires ChunkedTo(d, n, m, order) && LikeInt(accepts) && Rooted(d, n, k)
    requires forall x :: !OddChunk(m, accepts, k, x)
    ensures Gathered(m, order, accepts) != d.at
  {
    HundredThere(d, n, m, order, k);
    LongIsMany(d, n, k);
    SplitNotPlain(d, n, m, order, accepts, k);
    HundredClean(m, accepts, k);
    GatherSplit(m, order, accepts, k, Hundred(m, k));
  }

  /** An unsplit key that looks like a chunk, begins with k and does not go on in digits. */
  ghost predicate OddUnsplit(d: Dict<string, string>, n: int, accepts: string -> bool, k: string, x: string) {
    ChunkLikeUnsplit(d, n, accepts, x) && k <= x && !IsDigits(x[|k|..])
  }

  lemma OddIsUnsplit(d: Dict<string, string>, n: int, m: map<string, string>, order: seq<string>,
                     accepts: string -> bool, k: string, x: string)
    requires ChunkedTo(d, n, m, order) && OddChunk(m, accepts, k, x) && k != ""
    ensures OddUnsplit(d, n, accepts, k, x)
  {
    EmittedFrom(d, n, m, order, x);
    if !(x in d.at && !IsSplit(d, n, x)) {
      var j, c: nat :| IsSplit(d, n, j) && c < |Parts(d, n, j)| && x == ChunkKey(j, c);
      ChunkTail(j, c);
    }
    assert x == Head(x) + Tail(x) && x[|k|..] == Tail(x);
  }

  lemma OddStillOdd(d: Dict<string, string>, n: int, accepts: string -> bool, k: string, r: string, x: string)
    requires OddUnsplit(d, n, accepts, k, r) && r == Head(x) && r != "" && ChunkLikeUnsplit(d, n, accepts, x)
    ensures OddUnsplit(d, n, accepts, k, x) && |x| > |r|
  {
    assert x == r + Tail(x) && x[|k|..] == r[|k|..] + Tail(x);
    var c :| c in r[|k|..] && !('0' <= c <= '9');
    assert c in x[|k|..];
  }

  /** No long key is further up than k, so r, which goes on in something else than digits, is under none. */
  lemma OddUnderNone(d: Dict<string, string>, n: int, k: string, r: string, j: string)
    requires HasRoom(d, n) && Long(d, n, j) && k <= r && !IsDigits(r[|k|..])
    requires forall i | Rooted(d, n, i) :: |i| <= |k|
    ensures !Under(j, r)
  {
    if Under(j, r) {
      var i := RootOf(d, n, j);
      UnderTrans(i, j, r);
      UnderShorter(i, k, r);
    }
  }

  lemma ChunkOverUnsplit(d: Dict<string, string>, n: int, k: string, r: string, j: string, c: nat)
    requires HasRoom(d, n) && IsSplit(d, n, j) && c < |Parts(d, n, j)| && !IsSplit(d, n, r)
    requires k <= r && !IsDigits(r[|k|..]) && forall i | Rooted(d, n, i) :: |i| <= |k|
    ensures Head(ChunkKey(j, c)) != r
  {
    ChunkHead(j, c);
    if c >= 100 {
      OddUnderNone(d, n, k, r, j);
    }
  }

  /** Such a key can only come from a longer one. */
  lemma OddFromLonger(d: Dict<string, string>, n: int, m: map<string, string>, order: seq<string>,
                      accepts: string -> bool,
                      k: string, r: string, x: string)
    requires ChunkedTo(d, n, m, order) && LikeInt(accepts) && k != "" && OddUnsplit(d, n, accepts, k, r)
    requires forall i | Rooted(d, n, i) :: |i| <= |k|
    requires x in m && accepts(Tail(x)) && r == Head(x)
    ensures OddUnsplit(d, n, accepts, k, x) && |x| > |r|
  {
    EmittedFrom(d, n, m, order, x);
    if !(x in d.at && !IsSplit(d, n, x)) {
      var j, c: nat :| IsSplit(d, n, j) && c < |Parts(d, n, j)| && x == ChunkKey(j, c);
      ChunkOverUnsplit(d, n, k, r, j, c);
    } else {
      OddStillOdd(d, n, accepts, k, r, x);
    }
  }

  lemma OddIsLost(d: Dict<string, string>, n: int, m: map<string, string>, order: seq<string>, accepts: string -> bool,
                  k: string, x: string)
    requires ChunkedTo(d, n, m, order) && LikeInt(accepts) && k != "" && OddUnsplit(d, n, accepts, k, x)
    requires forall i | Rooted(d, n, i) :: |i| <= |k|
    ensures Gathered(m, order, accepts) != d.at
  {
    var odd := set y | y in d.at && OddUnsplit(d, n, accepts, k, y);
    assert x in odd;
    var r := Longest(odd);
    if r in Gathered(m, order, accepts) {
      GatheredKeys(m, order, accepts, r);
      var y :| y in order && r == if accepts(Tail(y)) then Head(y) else y;
      assert accepts(Tail(r));
      OddFromLonger(d, n, m, order, accepts, k, r, y);
    }
  }

  lemma LongestRooted(d: Dict<string, string>, n: int) returns (k: string)
    requires HasRoom(d, n) && !TwoDigitsDo(d, n)
    ensures Rooted(d, n, k) && forall i | Rooted(d, n, i) :: |i| <= |k|
  {
    var k0 :| IsSplit(d, n, k0) && |Parts(d, n, k0)| > 100;
    var i0 := RootOf(d, n, k0);
    var rooted := set i | i in d.at && Rooted(d, n, i);
    assert i0 in rooted;
    k := Longest(rooted);
    forall i | Rooted(d, n, i) ensures |i| <= |k| {
      assert i in rooted;
    }
  }

  /** A value that needs a third digit is lost, or something else is, unless it is the one under the empty key. */
  lemma LongIsLost(d: Dict<string, string>, n: int, m: map<string, string>, order: seq<string>, accepts: string -> bool)
    requires ChunkedTo(d, n, m, order) && LikeInt(accepts)
    requires !TwoDigitsDo(d, n) && !Long(d, n, "")
    ensures Gathered(m, order, accepts) != d.at
  {
    var k := LongestRooted(d, n);
    if x :| OddChunk(m, accepts, k, x) {
      OddIsUnsplit(d, n, m, order, accepts, k, x);
      OddIsLost(d, n, m, order, accepts, k, x);
    } else {
      RootedIsLost(d, n, m, order, accepts, k);
    }
  }

  /**
   * The round trip is the identity exactly if every key that looks like a chunk's is
   * split and two digits number all chunks; only where the empty key itself, which
   * section 6.4 of RFC 6763 forbids, has more than a hundred chunks, the one condition
   * decides given the other.
   */
  lemma UnchunkInvertsExactly(d: Dict<string, string>, n: int, m: map<string, string>, order: seq<string>,
                              accepts: string -> bool)
    requires ChunkedTo(d, n, m, order) && LikeInt(accepts)
    ensures !Long(d, n, "") ==>
              (Gathered(m, order, accepts) == d.at <==> ChunkLikeSplit(d, n, accepts) && TwoDigitsDo(d, n))
    ensures TwoDigitsDo(d, n) ==> (Gathered(m, order, accepts) == d.at <==> ChunkLikeSplit(d, n, accepts))
    ensures ChunkLikeSplit(d, n, accepts) ==> (Gathered(m, order, accepts) == d.at <==> TwoDigitsDo(d, n))
  {
    if TwoDigitsDo(d, n) && ChunkLikeSplit(d, n, accepts) {
      UnchunkInverts(d, n, m, order, accepts);
    } else if TwoDigitsDo(d, n) {
      ChunkLikeIsLost(d, n, m, order, accepts);
    } else if ChunkLikeSplit(d, n, accepts) {
      ThirdDigitLoses(d, n, m, order, accepts);
    } else if !Long(d, n, "") {
      LongIsLost(d, n, m, order, accepts);
    }
  }

  // ----- the empty key -----

  predicate AllAs(v: string) {
    forall c | c in v :: c == 'a'
  }

  lemma SameAs(v: string, w: string)
    requires AllAs(v) && AllAs(w) && |v| == |w|
    ensures v == w
  {
    forall i | 0 <= i < |v| ensures v[i] == w[i] {
      assert v[i] in v && w[i] in w;
    }
  }

  /** Under the empty key 101 times "a", under "1" one "a". */
  predicate EmptyKeyed(d: Dict<string, string>) {
    && d.order == ["", "1"] && d.at.Keys == {"", "1"}
    && |d.at[""]| == 101 && AllAs(d.at[""]) && d.at["1"] == "a"
  }

  lemma {:induction false} AsPieces(v: string)
    requires AllAs(v)
    ensures |Pieces(v, 1)| == |v| && forall p | p in Pieces(v, 1) :: p == "a"
  {
    if v != "" {
      assert v[0] in v && v[..1] == "a";
      if |v| > 1 {
        forall c | c in v[1..] ensures c == 'a' {
          assert c in v;
        }
        AsPieces(v[1..]);
      }
    }
  }

  lemma EmptyKeySplit(d: Dict<string, string>)
    requires EmptyKeyed(d)
    ensures HasRoom(d, 4) && IsSplit(d, 4, "") && !IsSplit(d, 4, "1")
    ensures |Parts(d, 4, "")| == 101 && forall p | p in Parts(d, 4, "") :: p == "a"
  {
    AsPieces(d.at[""]);
  }

  lemma LastChunk(c: nat)
    requires c == 100
    ensures ChunkKey("", c) == "100"
  {
    assert Decimal(c) == Decimal(10) + ['0'] && Decimal(10) == Decimal(1) + ['0'] && Decimal(1) == ['1'];
  }

  lemma HeadsOfOnes()
    ensures Head("100") == "1" && Head("1") == "" && Tail("1") == "1"
  {
  }

  /** The keys whose head is r. */
  function WithHead(keys: seq<string>, r: string): set<string> {
    set x | x in keys && Head(x) == r
  }

  lemma WithHeadSnoc(keys: seq<string>, x: string, r: string)
    requires x !in keys
    ensures |WithHead(keys + [x], r)| == |WithHead(keys, r)| + if Head(x) == r then 1 else 0
  {
    if Head(x) == r {
      assert WithHead(keys + [x], r) == WithHead(keys, r) + {x};
    } else {
      assert WithHead(keys + [x], r) == WithHead(keys, r);
    }
  }

  /** Where all values are "a", a key gathers as many as there are keys with that head. */
  lemma {:induction false} GatherAs(m: map<string, string>, order: seq<string>, accepts: string -> bool, r: string)
    requires (forall x | x in order :: x in m && m[x] == "a" && accepts(Tail(x))) && NoRepeats(order)
    ensures var v := Got(Gathered(m, order, accepts), r); |v| == |WithHead(order, r)| && AllAs(v)
    ensures r in Gathered(m, order, accepts) <==> WithHead(order, r) != {}
  {
    if order != [] {
      var init, x := order[..|order| - 1], order[|order| - 1];
      assert order == init + [x] && x in order;
      NoRepeatsSnoc(init, x);
      GatherAs(m, init, accepts, r);
      WithHeadSnoc(init, x, r);
      assert WithHead(init, r) <= WithHead(order, r);
      assert Head(x) == r ==> x in WithHead(order, r);
    }
  }

  function ChunksUpTo(k: string, i: nat): set<string> {
    set c: nat | c < i :: ChunkKey(k, c)
  }

  lemma NextChunkIsNew(k: string, i: nat)
    requires 0 < i <= 100
    ensures ChunkKey(k, i - 1) !in ChunksUpTo(k, i - 1)
    ensures ChunksUpTo(k, i) == ChunksUpTo(k, i - 1) + {ChunkKey(k, i - 1)}
  {
    forall c: nat | c < i - 1 ensures ChunkKey(k, c) != ChunkKey(k, i - 1) {
      ChunkKeysDiffer(k, c, i - 1);
    }
  }

  lemma {:induction false} ChunksCounted(k: string, i: nat)
    requires i <= 100
    ensures |ChunksUpTo(k, i)| == i
  {
    if i > 0 {
      ChunksCounted(k, i - 1);
      NextChunkIsNew(k, i);
    }
  }

  lemma SortedOnce(order: seq<string>, keys: set<string>)
    requires SortedKeys(order, keys)
    ensures NoRepeats(order)
  {
    forall i, j | 0 <= i < j < |order| ensures order[i] != order[j] {
      BeforeIsStrict(order[i], order[j]);
    }
  }

  lemma OnlyAs(d: Dict<string, string>, x: string, v: string)
    requires EmptyKeyed(d) && HasRoom(d, 4) && ValueFrom(d, 4, x, v)
    ensures v == "a"
  {
    EmptyKeySplit(d);
    if !(x in d.at && !IsSplit(d, 4, x) && v == d.at[x]) {
      var k, c: nat :| IsSplit(d, 4, k) && c < |Parts(d, 4, k)| && x == ChunkKey(k, c) && v == Parts(d, 4, k)[c];
      assert k == "" && v in Parts(d, 4, "");
    }
  }

  lemma EmptyKeyValues(d: Dict<string, string>, m: map<string, string>, order: seq<string>)
    requires EmptyKeyed(d) && ChunkedTo(d, 4, m, order)
    ensures forall x | x in m :: m[x] == "a"
  {
    forall x | x in m ensures m[x] == "a" {
      ChunkedValue(d, 4, |d.order|, x);
      OnlyAs(d, x, m[x]);
    }
  }

  lemma FirstIn(d: Dict<string, string>)
    requires EmptyKeyed(d)
    ensures "" in d.order[..|d.order|] && "1" in d.order[..|d.order|]
  {
    assert d.order[0] == "" && d.order[1] == "1" && d.order[..|d.order|] == d.order;
  }

  lemma ChunkOfEmpty(c: nat, x: string)
    requires c <= 100 && x == ChunkKey("", c)
    ensures x in ChunksUpTo("", 100) || x == "100"
  {
    if c == 100 {
      LastChunk(c);
    }
  }

  lemma LastItem(d: Dict<string, string>, n: int, i: nat)
    requires 0 < i <= |d.order| && Chunked(d, n, i).Some? && !IsSplit(d, n, d.order[i - 1])
    ensures d.order[i - 1] in Chunked(d, n, i).value
  {
    assert d.order[i - 1] in d.order;
  }

  lemma OneIsKept(d: Dict<string, string>, m: map<string, string>, order: seq<string>)
    requires EmptyKeyed(d) && ChunkedTo(d, 4, m, order)
    ensures "1" in m
  {
    EmptyKeySplit(d);
    LastItem(d, 4, |d.order|);
  }

  /** What is emitted: a hundred two-digit chunks, "100" and "1". */
  lemma EmptyKeyEmits(d: Dict<string, string>, m: map<string, string>, order: seq<string>, x: string)
    requires EmptyKeyed(d) && ChunkedTo(d, 4, m, order)
    ensures x in m <==> x in ChunksUpTo("", 100) || x == "100" || x == "1"
  {
    EmptyKeySplit(d);
    FirstIn(d);
    if x in m {
      EmittedFrom(d, 4, m, order, x);
      if x != "1" {
        var k, c: nat :| IsSplit(d, 4, k) && c < |Parts(d, 4, k)| && x == ChunkKey(k, c);
        ChunkOfEmpty(c, x);
      }
    } else {
      OneIsKept(d, m, order);
      forall c: nat | c <= 100 ensures ChunkKey("", c) in m {
        ChunkedHas(d, 4, |d.order|, "", c);
      }
      LastChunk(100);
    }
  }

  lemma TwoDigitHeads(x: string)
    requires x in ChunksUpTo("", 100)
    ensures Head(x) == "" && |x| == 2
  {
    var c: nat :| c < 100 && x == ChunkKey("", c);
    ChunkHead("", c);
    PaddedSmall(c);
  }

  lemma EmptyKeyHeads(order: seq<string>, twoDigits: set<string>)
    requires forall x | x in twoDigits :: Head(x) == "" && |x| == 2
    requires forall x :: x in order <==> x in twoDigits || x == "100" || x == "1"
    ensures WithHead(order, "") == twoDigits + {"1"} && WithHead(order, "1") == {"100"}
    ensures forall r | r != "" && r != "1" :: WithHead(order, r) == {}
  {
    HeadsOfOnes();
  }

  lemma EmptyKeyTails(x: string, accepts: string -> bool)
    requires x in ChunksUpTo("", 100) || x == "100" || x == "1"
    requires LikeInt(accepts) && accepts("1")
    ensures accepts(Tail(x))
  {
    HeadsOfOnes();
    LastChunk(100);
    if x != "1" {
      var c: nat :| c <= 100 && x == ChunkKey("", c);
      TailAccepted("", c, accepts);
    }
  }

  lemma EmptyKeyGathers(d: Dict<string, string>, m: map<string, string>, order: seq<string>, accepts: string -> bool,
                        twoDigits: set<string>)
    requires EmptyKeyed(d) && NoRepeats(order)
    requires forall x | x in order :: x in m && m[x] == "a" && accepts(Tail(x))
    requires WithHead(order, "") == twoDigits + {"1"} && WithHead(order, "1") == {"100"}
    requires forall r | r != "" && r != "1" :: WithHead(order, r) == {}
    requires |twoDigits| == 100 && "1" !in twoDigits
    ensures Gathered(m, order, accepts) == d.at
  {
    var g := Gathered(m, order, accepts);
    forall r ensures r in g <==> r in d.at {
      GatherAs(m, order, accepts, r);
    }
    GatherAs(m, order, accepts, "");
    SameAs(g[""], d.at[""]);
    GatherAs(m, order, accepts, "1");
    SameAs(g["1"], d.at["1"]);
  }

  lemma EmptyKeyFailsBoth(d: Dict<string, string>, accepts: string -> bool)
    requires EmptyKeyed(d) && accepts("1")
    ensures HasRoom(d, 4) && !ChunkLikeSplit(d, 4, accepts) && !TwoDigitsDo(d, 4)
  {
    EmptyKeySplit(d);
    HeadsOfOnes();
    assert "1" in d.at && accepts(Tail("1"));
  }

  lemma EmptyKeyOrder(d: Dict<string, string>, m: map<string, string>, order: seq<string>, accepts: string -> bool,
                      twoDigits: set<string>)
    requires EmptyKeyed(d) && ChunkedTo(d, 4, m, order) && LikeInt(accepts) && accepts("1")
             && twoDigits == ChunksUpTo("", 100)
    ensures forall x :: x in order <==> x in twoDigits || x == "100" || x == "1"
    ensures forall x | x in twoDigits :: Head(x) == "" && |x| == 2
    ensures forall x | x in order :: accepts(Tail(x))
  {
    forall x ensures x in order <==> x in twoDigits || x == "100" || x == "1" {
      EmptyKeyEmits(d, m, order, x);
    }
    forall x | x in twoDigits ensures Head(x) == "" && |x| == 2 {
      TwoDigitHeads(x);
    }
    forall x | x in order ensures accepts(Tail(x)) {
      EmptyKeyTails(x, accepts);
    }
  }

  /**
   * Such a dictionary does come back although neither condition holds: the chunk "100"
   * is taken for a chunk of "1", and "1" for a chunk of the empty key.
   */
  lemma EmptyKeyComesBack(d: Dict<string, string>, m: map<string, string>, order: seq<string>, accepts: string -> bool)
    requires EmptyKeyed(d) && ChunkedTo(d, 4, m, order) && LikeInt(accepts) && accepts("1")
    ensures !ChunkLikeSplit(d, 4, accepts) && !TwoDigitsDo(d, 4)
    ensures Gathered(m, order, accepts) == d.at
  {
    var twoDigits := ChunksUpTo("", 100);
    EmptyKeyFailsBoth(d, accepts);
    EmptyKeyValues(d, m, order);
    SortedOnce(order, m.Keys);
    ChunksCounted("", 100);
    EmptyKeyOrder(d, m, order, accepts, twoDigits);
    EmptyKeyHeads(order, twoDigits);
    EmptyKeyGathers(d, m, order, accepts, twoDigits);
  }

  /** There is one. */
  lemma EmptyKeyedExists() returns (d: Dict<string, string>)
    ensures EmptyKeyed(d)
  {
    d := Entries(["", "1"], map["" := seq(101, _ => 'a'), "1" := "a"]);
  }
}
