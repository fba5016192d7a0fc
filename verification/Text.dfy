/** The few Python string operations the descriptor encodings use. */
module Text {

  /** What `str.strip` takes off. */
  predicate IsSpace(c: char) {
    var n := c as int;
    || 9 <= n <= 13 || 28 <= n <= 32 || n == 0x85 || n == 0xa0 || n == 0x1680 || 0x2000 <= n <= 0x200a
    || n == 0x2028 || n == 0x2029 || n == 0x202f || n == 0x205f || n == 0x3000
  }

  function Lstrip(s: string): string {
    if s != "" && IsSpace(s[0]) then Lstrip(s[1..]) else s
  }

  function Rstrip(s: string): string {
    if s != "" && IsSpace(s[|s| - 1]) then Rstrip(s[..|s| - 1]) else s
  }

  function Strip(s: string): string {
    Rstrip(Lstrip(s))
  }

  /** The position of the first c, or the length. */
  function Find(s: string, c: char): (i: nat)
    ensures i <= |s|
    ensures forall j | 0 <= j < i :: s[j] != c
    ensures i < |s| ==> s[i] == c
  {
    if s == "" || s[0] == c then 0 else 1 + Find(s[1..], c)
  }

  /** `s.split(c)` */
  function Split(s: string, c: char): (r: seq<string>)
    ensures r != []
  {
    var i := Find(s, c);
    if i == |s| then [s] else [s[..i]] + Split(s[i + 1..], c)
  }

  /** `sep.join(xs)` */
  function Join(sep: string, xs: seq<string>): string {
    if xs == [] then "" else if |xs| == 1 then xs[0] else xs[0] + sep + Join(sep, xs[1..])
  }

  function Digit(n: nat): char
    requires n < 10
  {
    ('0' as int + n) as char
  }

  /** "%d" */
  function Decimal(n: nat): string {
    if n < 10 then [Digit(n)] else Decimal(n / 10) + [Digit(n % 10)]
  }

  predicate IsDigits(s: string) {
    forall c | c in s :: '0' <= c <= '9'
  }

  lemma {:induction false} DecimalNonempty(n: nat)
    ensures Decimal(n) != ""
  {
  }

  lemma {:induction false} DecimalDigits(n: nat)
    ensures IsDigits(Decimal(n))
  {
    if n >= 10 {
      DecimalDigits(n / 10);
    }
  }

  lemma FindAt(s: string, c: char, i: nat)
    requires i <= |s| && (forall j | 0 <= j < i :: s[j] != c) && (i < |s| ==> s[i] == c)
    ensures Find(s, c) == i
  {
  }

  /** Splitting at a known first separator. */
  lemma SplitAt(piece: string, c: char, rest: string)
    requires c !in piece
    ensures Split(piece + [c] + rest, c) == [piece] + Split(rest, c)
  {
    var s := piece + [c] + rest;
    forall j | 0 <= j < |piece| ensures s[j] != c {
      assert s[j] == piece[j];
    }
    FindAt(s, c, |piece|);
    assert s[..|piece|] == piece && s[|piece| + 1..] == rest;
  }

  /** Something put in front of a text goes in front of its first piece. */
  lemma SplitFront(front: string, s: string, c: char)
    requires c !in front
    ensures Split(front + s, c) == [front + Split(s, c)[0]] + Split(s, c)[1..]
  {
    var i := Find(s, c);
    var t := front + s;
    forall j | 0 <= j < |front| + i ensures t[j] != c {
      assert if j < |front| then t[j] == front[j] else t[j] == s[j - |front|];
    }
    FindAt(t, c, |front| + i);
    if i < |s| {
      assert t[..|front| + i] == front + s[..i] && t[|front| + i + 1..] == s[i + 1..];
    }
  }

  lemma {:induction false} RstripAfter(front: string, c: char, back: string)
    requires !IsSpace(c)
    ensures Rstrip(front + [c] + back) == front + [c] + Rstrip(back)
    decreases |back|
  {
    var s := front + [c] + back;
    if back == "" {
      assert s == front + [c] && s[|s| - 1] == c;
    } else {
      assert s[|s| - 1] == back[|back| - 1];
      if IsSpace(back[|back| - 1]) {
        assert s[..|s| - 1] == front + [c] + back[..|back| - 1];
        RstripAfter(front, c, back[..|back| - 1]);
      }
    }
  }

  lemma LstripSpace(s: string)
    ensures Lstrip(" " + s) == Lstrip(s)
  {
    assert (" " + s)[1..] == s;
  }

  /** Lexicographic order, as `sorted` compares strings. */
  predicate Before(s: string, t: string) {
    t != "" && (s == "" || s[0] < t[0] || (s[0] == t[0] && Before(s[1..], t[1..])))
  }

  lemma {:induction false} BeforeWithin(k: string, s: string, t: string)
    ensures Before(k + s, k + t) <==> Before(s, t)
  {
    if k == "" {
      assert k + s == s && k + t == t;
    } else {
      BeforeWithin(k[1..], s, t);
      assert (k + s)[1..] == k[1..] + s && (k + t)[1..] == k[1..] + t;
    }
  }

  lemma {:induction false} BeforeIsStrict(s: string, t: string)
    ensures Before(s, t) ==> !Before(t, s) && s != t
  {
    if s != "" && t != "" {
      BeforeIsStrict(s[1..], t[1..]);
    }
  }
}
