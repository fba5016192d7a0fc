/** Python's insertion-ordered dictionary as a value. */
module OrderedDict {

  ghost predicate NoRepeats<T>(s: seq<T>) {
    forall i, j | 0 <= i < j < |s| :: s[i] != s[j]
  }

  datatype Entries<K(==), V> = Entries(order: seq<K>, at: map<K, V>) {
    /** Every key is listed exactly once. */
    ghost predicate Wf() {
      && (forall k | k in order :: k in at)
      && (forall k | k in at :: k in order)
      && NoRepeats(order)
    }
  }

  type Dict<K(==), V> = d: Entries<K, V> | d.Wf() ghost witness Entries([], map[])

  function Empty<K(==), V>(): Dict<K, V> {
    Entries([], map[])
  }

  /** Assignment keeps the position of an existing key and appends a new one. */
  function Put<K(==), V>(d: Dict<K, V>, k: K, v: V): (r: Dict<K, V>)
    ensures r.at == d.at[k := v]
    ensures k in d.at ==> r.order == d.order
    ensures k !in d.at ==> r.order == d.order + [k]
  {
    Entries(if k in d.at then d.order else d.order + [k], d.at[k := v])
  }

  function Without<K(==)>(s: seq<K>, k: K): (r: seq<K>)
    ensures forall x | x in r :: x in s && x != k
    ensures forall x | x in s && x != k :: x in r
    ensures NoRepeats(s) ==> NoRepeats(r)
  {
    if s == [] then []
    else if s[0] == k then Without(s[1..], k)
    else
      assert forall i, j | 0 <= i < j < |s[1..]| :: s[1..][i] == s[i + 1] && s[1..][j] == s[j + 1];
      assert NoRepeats(s) ==> s[0] !in s[1..];
      [s[0]] + Without(s[1..], k)
  }

  function Drop<K(==), V>(d: Dict<K, V>, k: K): (r: Dict<K, V>)
    ensures r.at == d.at - {k}
    ensures r.order == Without(d.order, k)
  {
    Entries(Without(d.order, k), d.at - {k})
  }

  /** The values in insertion order. */
  function Values<K(==), V>(d: Dict<K, V>): (r: seq<V>)
    ensures |r| == |d.order|
    ensures forall i | 0 <= i < |r| :: r[i] == d.at[d.order[i]]
  {
    seq(|d.order|, i requires 0 <= i < |d.order| => assert d.order[i] in d.order; d.at[d.order[i]])
  }

  lemma NoRepeatsSnoc<T>(s: seq<T>, x: T)
    ensures NoRepeats(s + [x]) <==> NoRepeats(s) && x !in s
  {
    var t := s + [x];
    if NoRepeats(t) {
      forall i, j | 0 <= i < j < |s| ensures s[i] != s[j] {
        assert t[i] == s[i] && t[j] == s[j];
      }
      forall i | 0 <= i < |s| ensures s[i] != x {
        assert t[i] == s[i] && t[|s|] == x;
      }
    }
  }

  lemma {:induction false} WithoutAbsent<T>(s: seq<T>, x: T)
    requires x !in s
    ensures Without(s, x) == s
  {
    if s != [] {
      WithoutAbsent(s[1..], x);
    }
  }
}
