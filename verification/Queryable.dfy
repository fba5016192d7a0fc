/** The index of vula/common.py: `queryable.by`, and the linear scan it stands for. */
module Queryable {

  /**
   * What an attribute can be: a list, a dictionary of switches, or one value.
   * The index does not depend on a list's order, only on how often it holds a key.
   */
  datatype Attr<K(==)> = ListAttr(items: multiset<K>) | DictAttr(flags: map<K, bool>) | Scalar(value: K)

  /** How often an attribute files its owner under k. */
  function Count<K>(a: Attr<K>, k: K): nat {
    match a
    case ListAttr(items) => items[k]
    case DictAttr(flags) => if k in flags && flags[k] then 1 else 0
    case Scalar(value) => if value == k then 1 else 0
  }

  /** `xs` followed by n copies of x. */
  function Grown<T>(xs: seq<T>, x: T, n: nat): seq<T> {
    if n == 0 then xs else Grown(xs, x, n - 1) + [x]
  }

  /** The items that hold k, in order, once for each time they hold it. */
  function Scan<T, K>(items: seq<T>, attr: T -> Attr<K>, k: K): seq<T> {
    if items == [] then []
    else
      var last := |items| - 1;
      Grown(Scan(items[..last], attr, k), items[last], Count(attr(items[last]), k))
  }

  lemma {:induction false} GrownMembers<T>(xs: seq<T>, x: T, n: nat, y: T)
    ensures y in Grown(xs, x, n) <==> y in xs || (y == x && n > 0)
  {
    if n > 0 {
      GrownMembers(xs, x, n - 1, y);
    }
  }

  /** An item is found under k exactly when it is in the list and holds k. */
  lemma {:induction false} ScanMembers<T, K>(items: seq<T>, attr: T -> Attr<K>, k: K, y: T)
    ensures y in Scan(items, attr, k) <==> y in items && Count(attr(y), k) > 0
  {
    if items != [] {
      var last := |items| - 1;
      ScanMembers(items[..last], attr, k, y);
      GrownMembers(Scan(items[..last], attr, k), items[last], Count(attr(items[last]), k), y);
      assert items == items[..last] + [items[last]];
    }
  }

  function Get<K, V>(m: map<K, seq<V>>, k: K): seq<V> {
    if k in m then m[k] else []
  }

  /** `res.setdefault(k, []).append(x)` */
  function File<K, V>(m: map<K, seq<V>>, k: K, x: V): map<K, seq<V>> {
    m[k := Get(m, k) + [x]]
  }

  /** The index agrees with the scan under every key, and files nothing else. */
  ghost predicate Indexes<T, K(!new)>(res: map<K, seq<T>>, items: seq<T>, attr: T -> Attr<K>) {
    forall k {:trigger Get(res, k)} {:trigger k in res} ::
      Get(res, k) == Scan(items, attr, k) && (k in res <==> Scan(items, attr, k) != [])
  }

  /** `res` is `before` with x filed under every k another times(k) times. */
  ghost predicate Files<T, K(!new)>(res: map<K, seq<T>>, before: map<K, seq<T>>, x: T, times: K -> nat) {
    forall k {:trigger Get(res, k)} {:trigger k in res} ::
      Get(res, k) == Grown(Get(before, k), x, times(k)) && (k in res <==> k in before || times(k) > 0)
  }

  /** How often k was filed once all of `items` but `todo` is. */
  function Seen<K(==)>(items: multiset<K>, todo: multiset<K>): K -> nat {
    k => if todo[k] <= items[k] then items[k] - todo[k] else 0
  }

  function Done<K(==)>(value: Attr<K>, todo: set<K>): K -> nat {
    k => if k in todo then 0 else Count(value, k)
  }

  lemma FileOne<T, K(!new)>(was: map<K, seq<T>>, before: map<K, seq<T>>, x: T,
                            items: multiset<K>, todo: multiset<K>, key: K)
    requires todo <= items && key in todo
    requires Files(was, before, x, Seen(items, todo))
    ensures Files(File(was, key, x), before, x, Seen(items, todo - multiset{key}))
  {
    var res := File(was, key, x);
    var rest := todo - multiset{key};
    forall k {:trigger Get(res, k)} {:trigger k in res}
      ensures Get(res, k) == Grown(Get(before, k), x, Seen(items, rest)(k))
              && (k in res <==> k in before || Seen(items, rest)(k) > 0)
    {
      assert Get(was, k) == Grown(Get(before, k), x, Seen(items, todo)(k));
      assert Seen(items, rest)(k) == Seen(items, todo)(k) + if k == key then 1 else 0;
    }
  }

  method FileList<T, K(==, !new)>(before: map<K, seq<T>>, x: T, items: multiset<K>) returns (res: map<K, seq<T>>)
    ensures Files(res, before, x, Done(ListAttr(items), {}))
  {
    res := before;
    var todo := items;
    while todo != multiset{}
      invariant todo <= items
      invariant Files(res, before, x, Seen(items, todo))
      decreases |todo|
    {
      var key :| key in todo;
      FileOne(res, before, x, items, todo, key);
      todo := todo - multiset{key};
      res := File(res, key, x);
    }
  }

  method FileSwitches<T, K(==, !new)>(before: map<K, seq<T>>, x: T, flags: map<K, bool>) returns (res: map<K, seq<T>>)
    ensures Files(res, before, x, Done(DictAttr(flags), {}))
  {
    res := before;
    var todo := flags.Keys;
    while todo != {}
      invariant todo <= flags.Keys
      invariant Files(res, before, x, Done(DictAttr(flags), todo))
      decreases todo
    {
      var key :| key in todo;
      if flags[key] {
        res := File(res, key, x);
      }
      todo := todo - {key};
    }
  }

  /** One item: every key it holds gets it appended, as often as it holds the key. */
  method FileItem<T, K(==, !new)>(before: map<K, seq<T>>, x: T, value: Attr<K>) returns (res: map<K, seq<T>>)
    ensures Files(res, before, x, Done(value, {}))
  {
    match value
    case ListAttr(items) =>
      res := FileList(before, x, items);
    case DictAttr(flags) =>
      res := FileSwitches(before, x, flags);
    case Scalar(key) =>
      res := File(before, key, x);
  }

  lemma {:induction false} GrownEmpty<T>(xs: seq<T>, x: T, n: nat)
    ensures Grown(xs, x, n) == [] <==> xs == [] && n == 0
  {
  }

  /** The index holds, under every key, exactly what a linear scan for that key finds. */
  method By<T, K(==, !new)>(items: seq<T>, attr: T -> Attr<K>) returns (res: map<K, seq<T>>)
    ensures Indexes(res, items, attr)
  {
    res := map[];
    for i := 0 to |items|
      invariant Indexes(res, items[..i], attr)
    {
      assert items[..i + 1][..i] == items[..i];
      res := FileItem(res, items[i], attr(items[i]));
      forall k
        ensures Scan(items[..i + 1], attr, k) == Grown(Scan(items[..i], attr, k), items[i], Count(attr(items[i]), k))
               ensures Scan(items[..i + 1], attr, k) == []
                       <==> Scan(items[..i], attr, k) == [] && Count(attr(items[i]), k) == 0
      {
        GrownEmpty(Scan(items[..i], attr, k), items[i], Count(attr(items[i]), k));
      }
    }
    assert items[..|items|] == items;
  }

  lemma {:induction false} GrownLength<T>(xs: seq<T>, x: T, n: nat)
    ensures |Grown(xs, x, n)| == |xs| + n
  {
    if n > 0 {
      GrownLength(xs, x, n - 1);
    }
  }

  /** At most one item holds the key, and at most once. */
  ghost predicate HeldOnce<T, K>(items: seq<T>, attr: T -> Attr<K>, k: K) {
    && (forall i | 0 <= i < |items| :: Count(attr(items[i]), k) <= 1)
    && (forall i, j | 0 <= i < j < |items| :: Count(attr(items[i]), k) == 0 || Count(attr(items[j]), k) == 0)
  }

  /** The scan is empty exactly when no item holds the key. */
  lemma {:induction false} ScanEmpty<T, K>(items: seq<T>, attr: T -> Attr<K>, k: K)
    ensures Scan(items, attr, k) == [] <==> forall i | 0 <= i < |items| :: Count(attr(items[i]), k) == 0
  {
    if items != [] {
      var last := |items| - 1;
      ScanEmpty(items[..last], attr, k);
      GrownLength(Scan(items[..last], attr, k), items[last], Count(attr(items[last]), k));
      assert forall i | 0 <= i < last :: items[..last][i] == items[i];
    }
  }

  /** A scan finds more than one hit exactly when two items hold the key or one holds it twice. */
  lemma {:induction false} ScanHeldOnce<T, K>(items: seq<T>, attr: T -> Attr<K>, k: K)
    ensures |Scan(items, attr, k)| <= 1 <==> HeldOnce(items, attr, k)
  {
    if items != [] {
      var last := |items| - 1;
      var init := items[..last];
      assert forall i | 0 <= i < last :: init[i] == items[i];
      ScanHeldOnce(init, attr, k);
      ScanEmpty(init, attr, k);
      GrownLength(Scan(init, attr, k), items[last], Count(attr(items[last]), k));
    }
  }
}
