/**
 * Splitting long values over numbered keys and putting them together again
 * (`chunkable_values` in vula/common.py).
 */
module Chunks {
  import opened Addresses
  import opened OrderedDict
  import opened Text

  // ----- keys of chunks -----

  /** "%02d" */
  function Padded(n: nat): string {
    if n < 10 then "0" + Decimal(n) else Decimal(n)
  }

  function ChunkKey(k: string, c: nat): string {
    k + Padded(c)
  }

  /** The last two characters, or fewer. */
  function Tail(x: string): string {
    if |x| >= 2 then x[|x| - 2..] else x
  }

  /** The rest. */
  function Head(x: string): string {
    if |x| >= 2 then x[..|x| - 2] else ""
  }

  lemma PaddedSmall(n: nat)
    requires n < 100
    ensures Padded(n) == [Digit(n / 10), Digit(n % 10)]
  {
    if n >= 10 {
      assert Decimal(n / 10) == [Digit(n / 10)];
    }
  }

  lemma PaddedLarge(n: nat)
    requires n >= 100
    ensures |Padded(n)| >= 3
  {
    assert |Decimal(n / 10)| == |Decimal(n / 10 / 10)| + 1;
    DecimalNonempty(n / 10 / 10);
  }

  lemma ChunkKeyParts(k: string, c: nat)
    ensures c < 100 ==> Head(ChunkKey(k, c)) == k && Tail(ChunkKey(k, c)) == Padded(c)
    ensures c >= 100 ==> |Head(ChunkKey(k, c))| > |k|
  {
    if c < 100 {
      PaddedSmall(c);
    } else {
      PaddedLarge(c);
    }
  }

  lemma BeforeOne(a: char, c: char)
    ensures Before([a], [c]) <==> a < c
  {
    assert [a][1..] == "" && [c][1..] == "";
    assert !Before([a][1..], [c][1..]);
  }

  lemma BeforeTwo(a: char, b: char, c: char, d: char)
    ensures Before([a, b], [c, d]) <==> a < c || (a == c && b < d)
  {
    assert [a, b][1..] == [b] && [c, d][1..] == [d];
    BeforeOne(b, d);
  }

  lemma ChunkKeysOrdered(k: string, a: nat, b: nat)
    requires a < 100 && b < 100
    ensures Before(ChunkKey(k, a), ChunkKey(k, b)) <==> a < b
  {
    PaddedSmall(a);
    PaddedSmall(b);
    BeforeWithin(k, Padded(a), Padded(b));
    BeforeTwo(Digit(a / 10), Digit(a % 10), Digit(b / 10), Digit(b % 10));
  }

  lemma ChunkKeysDiffer(k: string, a: nat, b: nat)
    requires a < 100 && b < 100 && a != b
    ensures ChunkKey(k, a) != ChunkKey(k, b)
  {
    ChunkKeysOrdered(k, a, b);
    ChunkKeysOrdered(k, b, a);
    BeforeIsStrict(ChunkKey(k, a), ChunkKey(k, b));
    BeforeIsStrict(ChunkKey(k, b), ChunkKey(k, a));
  }

  // ----- pieces -----

  predicate Fits(k: string, v: string, n: int) {
    |k| + |v| + 1 <= n
  }

  /** Room for data in a chunk: the key grows by two digits. */
  function Room(k: string, n: int): int {
    n - |k| - 3
  }

  function Pieces(v: string, cs: nat): seq<string>
    requires cs > 0
  {
    if v == "" then []
    else if |v| <= cs then [v]
    else [v[..cs]] + Pieces(v[cs..], cs)
  }

  function Flat(ps: seq<string>): string {
    if ps == [] then "" else Flat(ps[..|ps| - 1]) + ps[|ps| - 1]
  }

  lemma {:induction false} FlatFront(p: string, ps: seq<string>)
    ensures Flat([p] + ps) == p + Flat(ps)
  {
    if ps == [] {
      assert [p] + ps == [p] && [p][..0] == [];
    } else {
      var init := ps[..|ps| - 1];
      assert ([p] + ps)[..|ps|] == [p] + init;
      FlatFront(p, init);
    }
  }

  lemma {:induction false} PiecesBounded(v: string, cs: nat)
    requires cs > 0
    ensures forall p | p in Pieces(v, cs) :: 0 < |p| <= cs
  {
    if |v| > cs {
      PiecesBounded(v[cs..], cs);
      assert |v[..cs]| == cs;
    }
  }

  /** The pieces make up the value; none is empty and none is longer than a chunk. */
  lemma {:induction false} PiecesFlat(v: string, cs: nat)
    requires cs > 0
    ensures Flat(Pieces(v, cs)) == v
    ensures forall p | p in Pieces(v, cs) :: 0 < |p| <= cs
  {
    PiecesBounded(v, cs);
    if v == "" {
    } else if |v| <= cs {
      assert [v][..0] == [];
      assert Flat([v]) == Flat([]) + v;
    } else {
      PiecesFlat(v[cs..], cs);
      FlatFront(v[..cs], Pieces(v[cs..], cs));
      assert v[..cs] + v[cs..] == v;
    }
  }

  lemma TimesOneMore(c: nat, cs: nat)
    requires c > 0
    ensures c * cs == (c - 1) * cs + cs && c * cs >= cs
  {
    assert (c - 1) * cs >= 0;
  }

  lemma SliceOfRest(v: string, cs: nat, a: nat, b: nat)
    requires cs <= a <= b <= |v|
    ensures v[cs..][a - cs..b - cs] == v[a..b] && v[cs..][a - cs..] == v[a..]
  {
  }

  lemma {:induction false} PieceFrom(v: string, cs: nat, c: nat, at: nat)
    requires cs > 0 && at == c * cs
    ensures c < |Pieces(v, cs)| <==> at < |v|
    ensures c < |Pieces(v, cs)| ==> Pieces(v, cs)[c] == if at + cs <= |v| then v[at..at + cs] else v[at..]
  {
    if c > 0 {
      TimesOneMore(c, cs);
      if |v| > cs {
        PieceFrom(v[cs..], cs, c - 1, at - cs);
        if at + cs <= |v| {
          SliceOfRest(v, cs, at, at + cs);
        } else if at < |v| {
          SliceOfRest(v, cs, at, |v|);
        }
      }
    }
  }

  /** Cut from the front: every piece is a full chunk, the last one what is left. */
  lemma PieceAt(v: string, cs: nat, c: nat)
    requires cs > 0
    ensures c < |Pieces(v, cs)| <==> c * cs < |v|
    ensures c < |Pieces(v, cs)| ==>
              Pieces(v, cs)[c] == if c * cs + cs <= |v| then v[c * cs..c * cs + cs] else v[c * cs..]
  {
    PieceFrom(v, cs, c, c * cs);
  }

  lemma {:induction false} FlatShorter(ps: seq<string>, i: nat)
    requires i < |ps| && forall p | p in ps :: p != ""
    ensures |Flat(ps[..i])| < |Flat(ps)|
  {
    var last := |ps| - 1;
    assert ps[last] in ps;
    if i < last {
      assert ps[..last][..i] == ps[..i];
      assert forall p | p in ps[..last] :: p in ps;
      FlatShorter(ps[..last], i);
    }
  }

  // ----- chunk -----

  function PutPieces(m: map<string, string>, k: string, ps: seq<string>): map<string, string> {
    if ps == [] then m else PutPieces(m, k, ps[..|ps| - 1])[ChunkKey(k, |ps| - 1) := ps[|ps| - 1]]
  }

  /** One item; None is the failed assertion that there is room for data. */
  function Emit(m: map<string, string>, k: string, v: string, n: int): Option<map<string, string>> {
    if Fits(k, v, n) then Some(m[k := v])
    else if Room(k, n) < 1 then None
    else Some(PutPieces(m, k, Pieces(v, Room(k, n))))
  }

  /** The first i items, in order: a later key may overwrite an earlier one. */
  function Chunked(d: Dict<string, string>, n: int, i: nat): Option<map<string, string>>
    requires i <= |d.order|
  {
    if i == 0 then Some(map[])
    else
      match Chunked(d, n, i - 1)
      case None => None
      case Some(m) => assert d.order[i - 1] in d.order; Emit(m, d.order[i - 1], d.at[d.order[i - 1]], n)
  }

  lemma PiecesStep(done: seq<string>, rest: string, cs: nat)
    requires cs > 0 && rest != ""
    ensures var piece := if |rest| <= cs then rest else rest[..cs];
            var left := if |rest| <= cs then "" else rest[cs..];
            done + Pieces(rest, cs) == done + [piece] + Pieces(left, cs)
  {
    var piece := if |rest| <= cs then rest else rest[..cs];
    var left := if |rest| <= cs then "" else rest[cs..];
    assert Pieces(rest, cs) == [piece] + Pieces(left, cs);
    assert done + ([piece] + Pieces(left, cs)) == done + [piece] + Pieces(left, cs);
  }

  lemma PutPiecesStep(m: map<string, string>, k: string, done: seq<string>, piece: string)
    ensures PutPieces(m, k, done + [piece]) == PutPieces(m, k, done)[ChunkKey(k, |done|) := piece]
  {
    assert (done + [piece])[..|done|] == done;
  }

  method PutValue(before: map<string, string>, k: string, v: string, cs: nat) returns (res: map<string, string>)
    requires cs > 0
    ensures res == PutPieces(before, k, Pieces(v, cs))
  {
    res := before;
    var rest := v;
    var c := 0;
    ghost var done: seq<string> := [];
    while rest != ""
      invariant done + Pieces(rest, cs) == Pieces(v, cs) && c == |done|
      invariant res == PutPieces(before, k, done)
      decreases |rest|
    {
      PiecesStep(done, rest, cs);
      var piece := if |rest| <= cs then rest else rest[..cs];
      PutPiecesStep(before, k, done, piece);
      res := res[ChunkKey(k, c) := piece];
      rest := if |rest| <= cs then "" else rest[cs..];
      c := c + 1;
      done := done + [piece];
    }
    assert done + [] == done;
  }

  lemma {:induction false} ChunkedFails(d: Dict<string, string>, n: int, i: nat, j: nat)
    requires i <= j <= |d.order| && Chunked(d, n, i).None?
    ensures Chunked(d, n, j).None?
    decreases j - i
  {
    if i < j {
      ChunkedFails(d, n, i + 1, j);
    }
  }

  method Chunk(d: Dict<string, string>, n: int) returns (r: Option<map<string, string>>)
    ensures r == Chunked(d, n, |d.order|)
  {
    var res: map<string, string> := map[];
    for i := 0 to |d.order|
      invariant Chunked(d, n, i) == Some(res)
    {
      var k := d.order[i];
      assert k in d.order;
      var v := d.at[k];
      if |k| + |v| + 1 <= n {
        res := res[k := v];
      } else {
        var cs := n - |k| - 3;
        if cs < 1 {
          ChunkedFails(d, n, i + 1, |d.order|);
          return None;
        }
        res := PutValue(res, k, v, cs);
      }
    }
    r := Some(res);
  }

  // ----- unchunk -----

  function Got(m: map<string, string>, k: string): string {
    if k in m then m[k] else ""
  }

  /**
   * Going through the keys in this order; accepts stands for `int()` not raising on
   * the last two characters of a key.
   */
  function Gathered(m: map<string, string>, order: seq<string>, accepts: string -> bool): map<string, string>
    requires forall x | x in order :: x in m
  {
    if order == [] then map[]
    else
      var x := order[|order| - 1];
      var sofar := Gathered(m, order[..|order| - 1], accepts);
      if accepts(Tail(x)) then sofar[Head(x) := Got(sofar, Head(x)) + m[x]] else sofar[x := m[x]]
  }

  /** The keys, sorted. */
  ghost predicate SortedKeys(order: seq<string>, keys: set<string>) {
    && (forall x :: x in order <==> x in keys)
    && (forall i, j | 0 <= i < j < |order| :: Before(order[i], order[j]))
  }

  method Unchunk(m: map<string, string>, order: seq<string>, accepts: string -> bool) returns (res: map<string, string>)
    requires SortedKeys(order, m.Keys)
    ensures res == Gathered(m, order, accepts)
  {
    res := map[];
    for i := 0 to |order|
      invariant res == Gathered(m, order[..i], accepts)
    {
      assert order[..i + 1][..i] == order[..i];
      var k := order[i];
      var rk := Head(k);
      if !accepts(Tail(k)) {
        res := res[k := m[k]];
      } else {
        res := res[rk := Got(res, rk) + m[k]];
      }
    }
    assert order[..|order|] == order;
  }

  // ----- what chunking leaves under which key -----

  /** What is used of `int()`: it accepts two digits and does not accept nothing. */
  ghost predicate LikeInt(accepts: string -> bool) {
    && !accepts("")
    && forall a, b | 0 <= a < 10 && 0 <= b < 10 :: accepts([Digit(a), Digit(b)])
  }

  lemma TwoLastDigits(c: nat)
    requires c >= 100
    ensures |Padded(c)| >= 2 && Padded(c)[|Padded(c)| - 2..] == [Digit(c / 10 % 10), Digit(c % 10)]
  {
    assert Decimal(c) == Decimal(c / 10) + [Digit(c % 10)];
    assert Decimal(c / 10) == Decimal(c / 10 / 10) + [Digit(c / 10 % 10)];
  }

  lemma TailAccepted(k: string, c: nat, accepts: string -> bool)
    requires LikeInt(accepts)
    ensures accepts(Tail(ChunkKey(k, c)))
  {
    if c < 100 {
      ChunkKeyParts(k, c);
      PaddedSmall(c);
    } else {
      TwoLastDigits(c);
      assert Tail(k + Padded(c)) == Padded(c)[|Padded(c)| - 2..];
    }
  }

  predicate IsSplit(d: Dict<string, string>, n: int, k: string) {
    k in d.at && |k| + |d.at[k]| + 1 > n
  }

  /** Every value that is split has room for data in its chunks. */
  ghost predicate HasRoom(d: Dict<string, string>, n: int) {
    forall k | IsSplit(d, n, k) :: n - |k| - 3 >= 1
  }

  function Parts(d: Dict<string, string>, n: int, k: string): seq<string>
    requires IsSplit(d, n, k) && Room(k, n) >= 1
  {
    Pieces(d.at[k], Room(k, n))
  }

  /** Every key that looks like a chunk's is split itself. */
  ghost predicate ChunkLikeSplit(d: Dict<string, string>, n: int, accepts: string -> bool) {
    forall k | k in d.at && accepts(Tail(k)) :: IsSplit(d, n, k)
  }

  /** Two digits are enough to number the chunks. */
  ghost predicate TwoDigitsDo(d: Dict<string, string>, n: int)
    requires HasRoom(d, n)
  {
    forall k | IsSplit(d, n, k) :: |Parts(d, n, k)| <= 100
  }

  lemma {:induction false} PutPiecesKeys(m: map<string, string>, k: string, ps: seq<string>, x: string)
    ensures x in PutPieces(m, k, ps) <==> x in m || exists c: nat | c < |ps| :: x == ChunkKey(k, c)
    ensures (forall c: nat | c < |ps| :: x != ChunkKey(k, c)) && x in m ==> PutPieces(m, k, ps)[x] == m[x]
  {
    if ps != [] {
      PutPiecesKeys(m, k, ps[..|ps| - 1], x);
    }
  }

  lemma {:induction false} PutPiecesAt(m: map<string, string>, k: string, ps: seq<string>, c: nat)
    requires c < |ps| && c < 100
    ensures ChunkKey(k, c) in PutPieces(m, k, ps) && PutPieces(m, k, ps)[ChunkKey(k, c)] == ps[c]
  {
    var last := |ps| - 1;
    if c < last {
      PutPiecesAt(m, k, ps[..last], c);
      if last < 100 {
        ChunkKeysDiffer(k, c, last);
      } else {
        ChunkKeyParts(k, c);
        ChunkKeyParts(k, last);
      }
    }
  }

  lemma {:induction false} ChunkedSome(d: Dict<string, string>, n: int, i: nat)
    requires i <= |d.order|
    ensures Chunked(d, n, i).Some? <==> forall j | 0 <= j < i && IsSplit(d, n, d.order[j]) :: Room(d.order[j], n) >= 1
  {
    if i > 0 {
      ChunkedSome(d, n, i - 1);
      assert d.order[i - 1] in d.order;
    }
  }

  /** Chunking fails exactly when some value that must be split has no room for data. */
  lemma ChunkSucceeds(d: Dict<string, string>, n: int)
    ensures Chunked(d, n, |d.order|).Some? <==> HasRoom(d, n)
  {
    ChunkedSome(d, n, |d.order|);
    if Chunked(d, n, |d.order|).Some? {
      forall k | IsSplit(d, n, k) ensures Room(k, n) >= 1 {
        var j :| 0 <= j < |d.order| && d.order[j] == k;
      }
    }
    if HasRoom(d, n) {
      forall j | 0 <= j < |d.order| && IsSplit(d, n, d.order[j]) ensures Room(d.order[j], n) >= 1 {
      }
    }
  }

  /** Where an emitted key comes from: an item that fits, or a chunk of one that does not. */
  ghost predicate Emitted(d: Dict<string, string>, n: int, i: nat, x: string)
    requires i <= |d.order| && HasRoom(d, n)
  {
    || (x in d.order[..i] && !IsSplit(d, n, x))
    || exists k, c: nat | k in d.order[..i] && IsSplit(d, n, k) && c < |Parts(d, n, k)| :: x == ChunkKey(k, c)
  }

  lemma {:induction false} ChunkedKeys(d: Dict<string, string>, n: int, i: nat, x: string)
    requires i <= |d.order| && HasRoom(d, n)
    requires Chunked(d, n, i).Some? && x in Chunked(d, n, i).value
    ensures Emitted(d, n, i, x)
  {
    if i > 0 {
      var k := d.order[i - 1];
      assert k in d.order && d.order[..i] == d.order[..i - 1] + [k];
      var m := Chunked(d, n, i - 1).value;
      if x in m {
        ChunkedKeys(d, n, i - 1, x);
      } else if IsSplit(d, n, k) {
        PutPiecesKeys(m, k, Parts(d, n, k), x);
      }
    }
  }

  // ----- one split key -----

  function First100(ps: seq<string>): seq<string> {
    if |ps| <= 100 then ps else ps[..100]
  }

  /** Nothing shorter than k needs more than two digits. */
  ghost predicate ShorterDo(d: Dict<string, string>, n: int, k: string)
    requires HasRoom(d, n)
  {
    forall j | IsSplit(d, n, j) && |j| < |k| :: |Parts(d, n, j)| <= 100
  }

  /** The chunks under k are these, and nothing else looks like a chunk of k. */
  ghost predicate Clean(m: map<string, string>, k: string, ps: seq<string>, accepts: string -> bool) {
    && |ps| <= 100
    && (forall c: nat | c < |ps| :: ChunkKey(k, c) in m && m[ChunkKey(k, c)] == ps[c])
    && (forall x | x in m && accepts(Tail(x)) && Head(x) == k :: exists c: nat | c < |ps| :: x == ChunkKey(k, c))
  }

  /** A chunk of another key never looks like one of k's. */
  lemma OtherChunk(d: Dict<string, string>, n: int, k: string, j: string, c: nat)
    requires HasRoom(d, n) && ShorterDo(d, n, k)
    requires IsSplit(d, n, j) && c < |Parts(d, n, j)|
    ensures Head(ChunkKey(j, c)) == k ==> j == k && c < 100
  {
    ChunkKeyParts(j, c);
  }

  lemma PlainStep(d: Dict<string, string>, n: int, accepts: string -> bool, m: map<string, string>, k: string,
                  j: string, ps: seq<string>)
    requires ChunkLikeSplit(d, n, accepts) && LikeInt(accepts)
    requires j in d.at && !IsSplit(d, n, j)
    requires Clean(m, k, ps, accepts)
    ensures Clean(m[j := d.at[j]], k, ps, accepts)
  {
    forall c: nat | c < |ps| ensures ChunkKey(k, c) != j {
      TailAccepted(k, c, accepts);
    }
  }

  lemma OwnStep(d: Dict<string, string>, n: int, accepts: string -> bool, m: map<string, string>, k: string)
    requires HasRoom(d, n) && IsSplit(d, n, k)
    requires Clean(m, k, [], accepts)
    ensures Clean(PutPieces(m, k, Parts(d, n, k)), k, First100(Parts(d, n, k)), accepts)
  {
    var ps := Parts(d, n, k);
    var after := PutPieces(m, k, ps);
    forall c: nat | c < |First100(ps)| ensures ChunkKey(k, c) in after && after[ChunkKey(k, c)] == First100(ps)[c] {
      PutPiecesAt(m, k, ps, c);
    }
    forall x | x in after && accepts(Tail(x)) && Head(x) == k
      ensures exists c: nat | c < |First100(ps)| :: x == ChunkKey(k, c) {
      PutPiecesKeys(m, k, ps, x);
      var c: nat :| c < |ps| && x == ChunkKey(k, c);
      ChunkKeyParts(k, c);
    }
  }

  lemma OtherStep(d: Dict<string, string>, n: int, accepts: string -> bool, m: map<string, string>, k: string,
                  j: string, ps: seq<string>)
    requires HasRoom(d, n) && ShorterDo(d, n, k) && IsSplit(d, n, j) && j != k
    requires Clean(m, k, ps, accepts)
    ensures Clean(PutPieces(m, j, Parts(d, n, j)), k, ps, accepts)
  {
    var after := PutPieces(m, j, Parts(d, n, j));
    forall x | x in after && Head(x) == k ensures x in m && after[x] == m[x] {
      PutPiecesKeys(m, j, Parts(d, n, j), x);
      forall c: nat | c < |Parts(d, n, j)| ensures x != ChunkKey(j, c) {
        OtherChunk(d, n, k, j, c);
      }
    }
    forall c: nat | c < |ps| ensures ChunkKey(k, c) in after && after[ChunkKey(k, c)] == ps[c] {
      ChunkKeyParts(k, c);
      PutPiecesKeys(m, j, Parts(d, n, j), ChunkKey(k, c));
    }
  }

  lemma CleanStep(d: Dict<string, string>, n: int, accepts: string -> bool, m: map<string, string>, k: string,
                  j: string, ps: seq<string>)
    requires HasRoom(d, n) && ChunkLikeSplit(d, n, accepts) && LikeInt(accepts)
    requires IsSplit(d, n, k) && ShorterDo(d, n, k) && j in d.at
    requires Clean(m, k, ps, accepts) && (j == k ==> ps == [])
    ensures Emit(m, j, d.at[j], n).Some?
    ensures Clean(Emit(m, j, d.at[j], n).value, k, if j == k then First100(Parts(d, n, k)) else ps, accepts)
  {
    if !IsSplit(d, n, j) {
      PlainStep(d, n, accepts, m, k, j, ps);
    } else if j == k {
      OwnStep(d, n, accepts, m, k);
    } else {
      OtherStep(d, n, accepts, m, k, j, ps);
    }
  }

  /** The chunks of k there are once the first i items are done. */
  function PartsSoFar(d: Dict<string, string>, n: int, k: string, i: nat): seq<string>
    requires IsSplit(d, n, k) && Room(k, n) >= 1 && i <= |d.order|
  {
    if k in d.order[..i] then First100(Parts(d, n, k)) else []
  }

  lemma NextItem(d: Dict<string, string>, n: int, k: string, i: nat)
    requires IsSplit(d, n, k) && Room(k, n) >= 1 && 0 < i <= |d.order|
    ensures d.order[i - 1] in d.at
    ensures d.order[i - 1] == k ==>
              PartsSoFar(d, n, k, i - 1) == [] && PartsSoFar(d, n, k, i) == First100(Parts(d, n, k))
    ensures d.order[i - 1] != k ==> PartsSoFar(d, n, k, i) == PartsSoFar(d, n, k, i - 1)
  {
    assert d.order[..i] == d.order[..i - 1] + [d.order[i - 1]];
    assert d.order[i - 1] in d.order && d.order[i - 1] !in d.order[..i - 1];
  }

  lemma {:induction false} CleanUpTo(d: Dict<string, string>, n: int, accepts: string -> bool, k: string, i: nat)
    requires i <= |d.order| && HasRoom(d, n) && ChunkLikeSplit(d, n, accepts) && LikeInt(accepts)
    requires IsSplit(d, n, k) && ShorterDo(d, n, k)
    ensures Chunked(d, n, i).Some?
    ensures Clean(Chunked(d, n, i).value, k, PartsSoFar(d, n, k, i), accepts)
  {
    if i > 0 {
      CleanUpTo(d, n, accepts, k, i - 1);
      NextItem(d, n, k, i);
      var m, j := Chunked(d, n, i - 1).value, d.order[i - 1];
      CleanStep(d, n, accepts, m, k, j, PartsSoFar(d, n, k, i - 1));
      assert Chunked(d, n, i) == Emit(m, j, d.at[j], n);
    }
  }

  // ----- one key that is not split -----

  lemma {:induction false} PlainKept(d: Dict<string, string>, n: int, accepts: string -> bool, r: string, i: nat)
    requires i <= |d.order| && HasRoom(d, n) && LikeInt(accepts)
    requires r in d.at && !IsSplit(d, n, r) && !accepts(Tail(r))
    requires Chunked(d, n, i).Some?
    ensures r in d.order[..i] ==> r in Chunked(d, n, i).value && Chunked(d, n, i).value[r] == d.at[r]
  {
    if i > 0 {
      PlainKept(d, n, accepts, r, i - 1);
      var k := d.order[i - 1];
      assert k in d.order && d.order[..i] == d.order[..i - 1] + [k];
      if IsSplit(d, n, k) {
        forall c: nat | c < |Parts(d, n, k)| ensures r != ChunkKey(k, c) {
          TailAccepted(k, c, accepts);
        }
        PutPiecesKeys(Chunked(d, n, i - 1).value, k, Parts(d, n, k), r);
      }
    }
  }

  // ----- gathering -----

  /** Among these keys, the chunks of k are exactly the first cnt. */
  ghost predicate SeenExactly(keys: seq<string>, k: string, ps: seq<string>, cnt: nat) {
    cnt <= |ps| && forall c: nat | c < |ps| :: ChunkKey(k, c) in keys <==> c < cnt
  }

  lemma SeeChunk(keys: seq<string>, k: string, ps: seq<string>, cnt: nat)
    requires SeenExactly(keys, k, ps, cnt) && cnt < |ps| <= 100
    ensures SeenExactly(keys + [ChunkKey(k, cnt)], k, ps, cnt + 1)
  {
    forall c: nat | c < |ps| && c != cnt ensures ChunkKey(k, c) != ChunkKey(k, cnt) {
      ChunkKeysDiffer(k, c, cnt);
    }
  }

  lemma SeeOther(keys: seq<string>, k: string, ps: seq<string>, cnt: nat, x: string, accepts: string -> bool)
    requires SeenExactly(keys, k, ps, cnt) && |ps| <= 100 && LikeInt(accepts)
    requires !(accepts(Tail(x)) && Head(x) == k)
    ensures SeenExactly(keys + [x], k, ps, cnt)
  {
    forall c: nat | c < |ps| ensures ChunkKey(k, c) != x {
      TailAccepted(k, c, accepts);
      ChunkKeyParts(k, c);
    }
  }

  /** So far the first cnt chunks of k have been seen, and they are put together. */
  ghost predicate GatheredSo(m: map<string, string>, keys: seq<string>, accepts: string -> bool, k: string,
                             ps: seq<string>, cnt: nat)
    requires forall x | x in keys :: x in m
  {
    var g := Gathered(m, keys, accepts);
    SeenExactly(keys, k, ps, cnt) && Got(g, k) == Flat(ps[..cnt]) && (k in g <==> cnt > 0)
  }

  lemma GatherOwn(m: map<string, string>, keys: seq<string>, accepts: string -> bool, k: string, ps: seq<string>,
                  cnt: nat)
    requires (forall x | x in keys :: x in m) && GatheredSo(m, keys, accepts, k, ps, cnt)
    requires cnt < |ps| <= 100 && ChunkKey(k, cnt) in m && m[ChunkKey(k, cnt)] == ps[cnt] && LikeInt(accepts)
    ensures GatheredSo(m, keys + [ChunkKey(k, cnt)], accepts, k, ps, cnt + 1)
  {
    SeeChunk(keys, k, ps, cnt);
    TailAccepted(k, cnt, accepts);
    ChunkKeyParts(k, cnt);
    assert (keys + [ChunkKey(k, cnt)])[..|keys|] == keys;
    assert ps[..cnt + 1][..cnt] == ps[..cnt];
  }

  lemma GatherOther(m: map<string, string>, keys: seq<string>, accepts: string -> bool, k: string, ps: seq<string>,
                    cnt: nat, x: string)
    requires (forall x | x in keys :: x in m) && GatheredSo(m, keys, accepts, k, ps, cnt)
    requires x in m && |ps| <= 100 && LikeInt(accepts)
    requires !(accepts(Tail(x)) && Head(x) == k) && (accepts(Tail(x)) || x != k)
    ensures GatheredSo(m, keys + [x], accepts, k, ps, cnt)
  {
    SeeOther(keys, k, ps, cnt, x, accepts);
    assert (keys + [x])[..|keys|] == keys;
  }

  lemma NotAmongEarlier(order: seq<string>, keys: set<string>, j: nat)
    requires SortedKeys(order, keys) && 0 < j <= |order|
    ensures order[j - 1] !in order[..j - 1]
  {
    forall i | 0 <= i < j - 1 ensures order[i] != order[j - 1] {
      BeforeIsStrict(order[i], order[j - 1]);
    }
  }

  lemma LaterIsAfter(order: seq<string>, keys: set<string>, j: nat, y: string)
    requires SortedKeys(order, keys) && 0 < j <= |order|
    requires y in order && y !in order[..j - 1] && y != order[j - 1]
    ensures Before(order[j - 1], y)
  {
    assert forall i | 0 <= i < j - 1 :: order[i] in order[..j - 1];
    var t :| 0 <= t < |order| && order[t] == y;
  }

  /** Sorted, the next chunk of k is the one after those seen. */
  lemma NextChunk(m: map<string, string>, order: seq<string>, accepts: string -> bool, k: string, ps: seq<string>,
                  j: nat, cnt: nat)
    requires SortedKeys(order, m.Keys) && 0 < j <= |order|
    requires Clean(m, k, ps, accepts)
    requires accepts(Tail(order[j - 1])) && Head(order[j - 1]) == k && order[j - 1] in m
    requires SeenExactly(order[..j - 1], k, ps, cnt)
    ensures cnt < |ps| && order[j - 1] == ChunkKey(k, cnt)
  {
    var c: nat :| c < |ps| && order[j - 1] == ChunkKey(k, c);
    NotAmongEarlier(order, m.Keys, j);
    assert c >= cnt;
    if c != cnt {
      ChunkKeysDiffer(k, c, cnt);
      assert ChunkKey(k, cnt) in m;
      LaterIsAfter(order, m.Keys, j, ChunkKey(k, cnt));
      ChunkKeysOrdered(k, c, cnt);
    }
  }

  lemma GatherOneMore(m: map<string, string>, order: seq<string>, accepts: string -> bool, k: string, ps: seq<string>,
                      j: nat, cnt: nat) returns (next: nat)
    requires SortedKeys(order, m.Keys) && 0 < j <= |order|
    requires Clean(m, k, ps, accepts) && LikeInt(accepts)
    requires k in m ==> accepts(Tail(k))
    requires GatheredSo(m, order[..j - 1], accepts, k, ps, cnt)
    ensures GatheredSo(m, order[..j - 1] + [order[j - 1]], accepts, k, ps, next)
  {
    var x := order[j - 1];
    assert x in order && x in m;
    if accepts(Tail(x)) && Head(x) == k {
      NextChunk(m, order, accepts, k, ps, j, cnt);
      GatherOwn(m, order[..j - 1], accepts, k, ps, cnt);
      next := cnt + 1;
    } else {
      GatherOther(m, order[..j - 1], accepts, k, ps, cnt, x);
      next := cnt;
    }
  }

  lemma UpToOneMore(order: seq<string>, j: nat)
    requires 0 < j <= |order|
    ensures order[..j] == order[..j - 1] + [order[j - 1]]
  {
  }

  lemma GatherNothing(m: map<string, string>, accepts: string -> bool, k: string, ps: seq<string>)
    ensures GatheredSo(m, [], accepts, k, ps, 0)
  {
  }

  /** The chunks of k that are among the first j keys are its first ones, and they are put together. */
  lemma {:induction false} GatherUpTo(m: map<string, string>, order: seq<string>, accepts: string -> bool, k: string,
                                      ps: seq<string>, j: nat)
    returns (cnt: nat)
    requires SortedKeys(order, m.Keys) && j <= |order|
    requires Clean(m, k, ps, accepts) && LikeInt(accepts)
    requires k in m ==> accepts(Tail(k))
    ensures GatheredSo(m, order[..j], accepts, k, ps, cnt)
  {
    if j == 0 {
      GatherNothing(m, accepts, k, ps);
      assert order[..j] == [];
      cnt := 0;
    } else {
      UpToOneMore(order, j);
      var before := GatherUpTo(m, order, accepts, k, ps, j - 1);
      cnt := GatherOneMore(m, order, accepts, k, ps, j, before);
    }
  }

  lemma GatherSplit(m: map<string, string>, order: seq<string>, accepts: string -> bool, k: string, ps: seq<string>)
    requires SortedKeys(order, m.Keys) && ps != []
    requires Clean(m, k, ps, accepts) && LikeInt(accepts)
    requires k in m ==> accepts(Tail(k))
    ensures k in Gathered(m, order, accepts) && Gathered(m, order, accepts)[k] == Flat(ps)
  {
    var cnt := GatherUpTo(m, order, accepts, k, ps, |order|);
    assert order[..|order|] == order;
    var c := if cnt < |ps| then cnt else 0;
    assert ChunkKey(k, c) in m && ChunkKey(k, c) in order;
    assert ps[..|ps|] == ps;
  }

  lemma {:induction false} GatherPlain(m: map<string, string>, order: seq<string>, accepts: string -> bool, r: string)
    requires forall x | x in order :: x in m
    requires !accepts(Tail(r)) && forall x | x in m && accepts(Tail(x)) :: Head(x) != r
    ensures r in Gathered(m, order, accepts) <==> r in order
    ensures r in order ==> Gathered(m, order, accepts)[r] == m[r]
  {
    if order != [] {
      GatherPlain(m, order[..|order| - 1], accepts, r);
      assert order == order[..|order| - 1] + [order[|order| - 1]];
    }
  }

  /** Where a gathered key comes from. */
  lemma {:induction false} GatheredKeys(m: map<string, string>, order: seq<string>, accepts: string -> bool, r: string)
    requires forall x | x in order :: x in m
    requires r in Gathered(m, order, accepts)
    ensures exists x | x in order :: r == if accepts(Tail(x)) then Head(x) else x
  {
    var x := order[|order| - 1];
    assert x in order;
    if r != if accepts(Tail(x)) then Head(x) else x {
      GatheredKeys(m, order[..|order| - 1], accepts, r);
    }
  }

  // ----- the theorems -----

  /** Given the keys of a chunked dictionary in order. */
  ghost predicate ChunkedTo(d: Dict<string, string>, n: int, m: map<string, string>, order: seq<string>) {
    HasRoom(d, n) && Chunked(d, n, |d.order|) == Some(m) && SortedKeys(order, m.Keys)
  }

  lemma InOrder(d: Dict<string, string>, k: string)
    ensures k in d.order[..|d.order|] <==> k in d.at
  {
    assert d.order[..|d.order|] == d.order;
  }

  lemma EmittedFrom(d: Dict<string, string>, n: int, m: map<string, string>, order: seq<string>, x: string)
    requires ChunkedTo(d, n, m, order) && x in m
    ensures || (x in d.at && !IsSplit(d, n, x))
            || exists k, c: nat | IsSplit(d, n, k) && c < |Parts(d, n, k)| :: x == ChunkKey(k, c)
  {
    ChunkedKeys(d, n, |d.order|, x);
    InOrder(d, x);
    if !(x in d.at && !IsSplit(d, n, x)) {
      var k, c: nat :| k in d.order[..|d.order|] && IsSplit(d, n, k) && c < |Parts(d, n, k)| && x == ChunkKey(k, c);
    }
  }

  /** A split value comes back, up to its first hundred chunks, where nothing shorter runs over. */
  lemma SplitComesBack(d: Dict<string, string>, n: int, m: map<string, string>, order: seq<string>,
                       accepts: string -> bool, k: string)
    requires ChunkedTo(d, n, m, order) && ChunkLikeSplit(d, n, accepts) && LikeInt(accepts)
    requires IsSplit(d, n, k) && ShorterDo(d, n, k)
    ensures k in Gathered(m, order, accepts) && Gathered(m, order, accepts)[k] == Flat(First100(Parts(d, n, k)))
  {
    CleanUpTo(d, n, accepts, k, |d.order|);
    InOrder(d, k);
    if k in m && !accepts(Tail(k)) {
      EmittedFrom(d, n, m, order, k);
      var j, c: nat :| IsSplit(d, n, j) && c < |Parts(d, n, j)| && k == ChunkKey(j, c);
      TailAccepted(j, c, accepts);
      assert false;
    }
    GatherSplit(m, order, accepts, k, First100(Parts(d, n, k)));
  }

  lemma PlainComesBack(d: Dict<string, string>, n: int, m: map<string, string>, order: seq<string>,
                       accepts: string -> bool, r: string)
    requires ChunkedTo(d, n, m, order) && ChunkLikeSplit(d, n, accepts) && LikeInt(accepts) && TwoDigitsDo(d, n)
    requires r in d.at && !IsSplit(d, n, r)
    ensures r in Gathered(m, order, accepts) && Gathered(m, order, accepts)[r] == d.at[r]
  {
    PlainKept(d, n, accepts, r, |d.order|);
    InOrder(d, r);
    forall x | x in m && accepts(Tail(x)) ensures Head(x) != r {
      EmittedFrom(d, n, m, order, x);
      var k, c: nat :| IsSplit(d, n, k) && c < |Parts(d, n, k)| && x == ChunkKey(k, c);
      ChunkKeyParts(k, c);
    }
    GatherPlain(m, order, accepts, r);
  }

  lemma NothingNew(d: Dict<string, string>, n: int, m: map<string, string>, order: seq<string>, accepts: string -> bool,
                   r: string)
    requires ChunkedTo(d, n, m, order) && ChunkLikeSplit(d, n, accepts) && LikeInt(accepts) && TwoDigitsDo(d, n)
    requires r in Gathered(m, order, accepts)
    ensures r in d.at
  {
    GatheredKeys(m, order, accepts, r);
    var x :| x in order && r == if accepts(Tail(x)) then Head(x) else x;
    EmittedFrom(d, n, m, order, x);
    if !(x in d.at && !IsSplit(d, n, x)) {
      var k, c: nat :| IsSplit(d, n, k) && c < |Parts(d, n, k)| && x == ChunkKey(k, c);
      TailAccepted(k, c, accepts);
      ChunkKeyParts(k, c);
    }
  }

  /** Chunking and unchunking is the identity if every key that looks like a chunk's is split, and two digits do. */
  lemma UnchunkInverts(d: Dict<string, string>, n: int, m: map<string, string>, order: seq<string>,
                       accepts: string -> bool)
    requires ChunkedTo(d, n, m, order) && LikeInt(accepts)
    requires ChunkLikeSplit(d, n, accepts) && TwoDigitsDo(d, n)
    ensures Gathered(m, order, accepts) == d.at
  {
    var g := Gathered(m, order, accepts);
    forall r | r in d.at ensures r in g && g[r] == d.at[r] {
      if IsSplit(d, n, r) {
        SplitComesBack(d, n, m, order, accepts, r);
        PiecesFlat(d.at[r], Room(r, n));
      } else {
        PlainComesBack(d, n, m, order, accepts, r);
      }
    }
    forall r | r in g ensures r in d.at {
      NothingNew(d, n, m, order, accepts, r);
    }
  }

  lemma Longest(keys: set<string>) returns (k: string)
    requires keys != {}
    ensures k in keys && forall x | x in keys :: |x| <= |k|
    decreases keys
  {
    k :| k in keys;
    var rest := keys - {k};
    assert keys == rest + {k};
    if rest != {} {
      var l := Longest(rest);
      k := if |l| > |k| then l else k;
    }
  }

  lemma Shortest(keys: set<string>) returns (k: string)
    requires keys != {}
    ensures k in keys && forall x | x in keys :: |x| >= |k|
    decreases keys
  {
    k :| k in keys;
    var rest := keys - {k};
    assert keys == rest + {k};
    if rest != {} {
      var l := Shortest(rest);
      k := if |l| < |k| then l else k;
    }
  }

  predicate ChunkLikeUnsplit(d: Dict<string, string>, n: int, accepts: string -> bool, x: string) {
    x in d.at && accepts(Tail(x)) && !IsSplit(d, n, x)
  }

  lemma FromLonger(d: Dict<string, string>, n: int, m: map<string, string>, order: seq<string>, accepts: string -> bool,
                   r: string, x: string)
    requires ChunkedTo(d, n, m, order) && LikeInt(accepts) && TwoDigitsDo(d, n)
    requires ChunkLikeUnsplit(d, n, accepts, r) && x in m
    requires r == if accepts(Tail(x)) then Head(x) else x
    ensures ChunkLikeUnsplit(d, n, accepts, x) && |x| > |r|
  {
    EmittedFrom(d, n, m, order, x);
    if !(x in d.at && !IsSplit(d, n, x)) {
      var k, c: nat :| IsSplit(d, n, k) && c < |Parts(d, n, k)| && x == ChunkKey(k, c);
      TailAccepted(k, c, accepts);
      ChunkKeyParts(k, c);
    }
  }

  /** A key that looks like a chunk's but is not split is gone afterwards, if it is the longest such key. */
  lemma ChunkLikeIsLost(d: Dict<string, string>, n: int, m: map<string, string>, order: seq<string>,
                        accepts: string -> bool)
    requires ChunkedTo(d, n, m, order) && LikeInt(accepts) && TwoDigitsDo(d, n)
    requires !ChunkLikeSplit(d, n, accepts)
    ensures Gathered(m, order, accepts) != d.at
  {
    var bad := set k | k in d.at && ChunkLikeUnsplit(d, n, accepts, k);
    assert bad != {} by {
      var k0 :| k0 in d.at && accepts(Tail(k0)) && !IsSplit(d, n, k0);
      assert k0 in bad;
    }
    var r := Longest(bad);
    if r in Gathered(m, order, accepts) {
      GatheredKeys(m, order, accepts, r);
      var x :| x in order && r == if accepts(Tail(x)) then Head(x) else x;
      assert x in bad <==> ChunkLikeUnsplit(d, n, accepts, x);
      FromLonger(d, n, m, order, accepts, r, x);
    }
  }

  /** The shortest key that needs a third digit loses what comes after its hundredth chunk. */
  lemma ThirdDigitLoses(d: Dict<string, string>, n: int, m: map<string, string>, order: seq<string>,
                        accepts: string -> bool)
    requires ChunkedTo(d, n, m, order) && LikeInt(accepts) && ChunkLikeSplit(d, n, accepts)
    requires !TwoDigitsDo(d, n)
    ensures Gathered(m, order, accepts) != d.at
  {
    var long := set k | k in d.at && IsSplit(d, n, k) && |Parts(d, n, k)| > 100;
    var k0 :| IsSplit(d, n, k0) && |Parts(d, n, k0)| > 100;
    assert k0 in long;
    var k := Shortest(long);
    forall j | IsSplit(d, n, j) && |j| < |k| ensures |Parts(d, n, j)| <= 100 {
      assert j !in long;
    }
    SplitComesBack(d, n, m, order, accepts, k);
    PiecesFlat(d.at[k], Room(k, n));
    FlatShorter(Parts(d, n, k), 100);
  }

  /** Every entry that is emitted, with its "=", is within the bound, if two digits do. */
  lemma {:induction false} EntriesAreBounded(d: Dict<string, string>, n: int, i: nat, x: string)
    requires i <= |d.order| && HasRoom(d, n) && TwoDigitsDo(d, n)
    requires Chunked(d, n, i).Some? && x in Chunked(d, n, i).value
    ensures |x| + |Chunked(d, n, i).value[x]| + 1 <= n
  {
    var k := d.order[i - 1];
    assert k in d.order;
    var m := Chunked(d, n, i - 1).value;
    if IsSplit(d, n, k) {
      var ps := Parts(d, n, k);
      PutPiecesKeys(m, k, ps, x);
      if c: nat :| c < |ps| && x == ChunkKey(k, c) {
        PutPiecesAt(m, k, ps, c);
        PaddedSmall(c);
        PiecesFlat(d.at[k], Room(k, n));
        assert ps[c] in ps;
      } else {
        EntriesAreBounded(d, n, i - 1, x);
      }
    } else if x != k {
      EntriesAreBounded(d, n, i - 1, x);
    }
  }
}
