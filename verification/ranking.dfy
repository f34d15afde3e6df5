/** The stable descending sort Stage 2 applies to its analysed spots.

    Python's `list.sort(key=f, reverse=True)` computes every key once, orders by
    key from largest to smallest and keeps items with equal keys in their
    original order. It is modelled as decorate-sort-undecorate: each item is paired
    with its key (`Keyed`), the pairs are sorted by `SortDesc`, and `Items` drops
    the keys again. */
module Ranking {

  datatype Keyed<T> = Keyed(item: T, key: int)

  function Items<T>(xs: seq<Keyed<T>>): (r: seq<T>)
    ensures |r| == |xs|
    ensures forall i :: 0 <= i < |xs| ==> r[i] == xs[i].item
  {
    if xs == [] then [] else [xs[0].item] + Items(xs[1..])
  }

  /** Keys never increase from left to right. */
  predicate NonIncreasing<T>(xs: seq<Keyed<T>>) {
    forall i, j :: 0 <= i < j < |xs| ==> xs[i].key >= xs[j].key
  }

  /** The subsequence of the elements whose key is `k`, in their order. */
  function WithKey<T>(xs: seq<Keyed<T>>, k: int): seq<Keyed<T>> {
    if xs == [] then []
    else (if xs[0].key == k then [xs[0]] else []) + WithKey(xs[1..], k)
  }

  /** Places `x` in front of the first element whose key is not larger. */
  function Insert<T>(x: Keyed<T>, s: seq<Keyed<T>>): seq<Keyed<T>> {
    if s == [] || s[0].key <= x.key then [x] + s
    else [s[0]] + Insert(x, s[1..])
  }

  /** Stable sort by key, largest key first. */
  function SortDesc<T>(xs: seq<Keyed<T>>): seq<Keyed<T>> {
    if xs == [] then [] else Insert(xs[0], SortDesc(xs[1..]))
  }

  /** Dropping the keys commutes with concatenation. */
  lemma ItemsConcat<T>(a: seq<Keyed<T>>, b: seq<Keyed<T>>)
    ensures Items(a + b) == Items(a) + Items(b)
  { }

  lemma {:induction false} InsertPermutes<T>(x: Keyed<T>, s: seq<Keyed<T>>)
    ensures multiset(Insert(x, s)) == multiset([x] + s)
  {
    if s != [] && s[0].key > x.key {
      InsertPermutes(x, s[1..]);
      assert s == [s[0]] + s[1..];
      assert multiset([x] + s) == multiset([s[0]]) + multiset([x] + s[1..]);
    }
  }

  lemma {:induction false} InsertPermutesItems<T>(x: Keyed<T>, s: seq<Keyed<T>>)
    ensures multiset(Items(Insert(x, s))) == multiset(Items([x] + s))
  {
    if s != [] && s[0].key > x.key {
      InsertPermutesItems(x, s[1..]);
      assert s == [s[0]] + s[1..];
      ItemsConcat([s[0]], Insert(x, s[1..]));
      ItemsConcat([x], s[1..]);
      ItemsConcat([x], s);
      ItemsConcat([s[0]], s[1..]);
      assert Items([x] + s) == Items([x]) + (Items([s[0]]) + Items(s[1..]));
    } else {
      assert Insert(x, s) == [x] + s;
    }
  }

  lemma {:induction false} InsertKeepsOrder<T>(x: Keyed<T>, s: seq<Keyed<T>>)
    requires NonIncreasing(s)
    ensures NonIncreasing(Insert(x, s))
  {
    if s != [] && s[0].key > x.key {
      InsertKeepsOrder(x, s[1..]);
      InsertPermutes(x, s[1..]);
      var r := Insert(x, s[1..]);
      forall e | e in r ensures s[0].key >= e.key {
        assert e in multiset(r);
        assert e in multiset([x] + s[1..]);
        assert e == x || e in s[1..];
      }
      assert Insert(x, s) == [s[0]] + r;
    }
  }

  lemma {:induction false} InsertWithKey<T>(x: Keyed<T>, s: seq<Keyed<T>>, k: int)
    ensures WithKey(Insert(x, s), k) == WithKey([x] + s, k)
  {
    if s != [] && s[0].key > x.key {
      InsertWithKey(x, s[1..], k);
      assert ([s[0]] + Insert(x, s[1..]))[1..] == Insert(x, s[1..]);
      assert ([x] + s)[1..] == s;
      assert ([x] + s[1..])[1..] == s[1..];
    }
  }

  /** The sorted sequence is ordered by key, largest first. */
  lemma {:induction false} SortDescOrdered<T>(xs: seq<Keyed<T>>)
    ensures NonIncreasing(SortDesc(xs))
  {
    if xs != [] {
      SortDescOrdered(xs[1..]);
      InsertKeepsOrder(xs[0], SortDesc(xs[1..]));
    }
  }

  /** The sorted sequence is a permutation of its input. */
  lemma {:induction false} SortDescPermutes<T>(xs: seq<Keyed<T>>)
    ensures multiset(SortDesc(xs)) == multiset(xs)
  {
    if xs != [] {
      SortDescPermutes(xs[1..]);
      InsertPermutes(xs[0], SortDesc(xs[1..]));
      assert xs == [xs[0]] + xs[1..];
    }
  }

  /** Dropping the keys, the sorted items are a permutation of the input items. */
  lemma {:induction false} SortDescPermutesItems<T>(xs: seq<Keyed<T>>)
    ensures multiset(Items(SortDesc(xs))) == multiset(Items(xs))
  {
    if xs != [] {
      var rest := SortDesc(xs[1..]);
      SortDescPermutesItems(xs[1..]);
      InsertPermutesItems(xs[0], rest);
      ItemsConcat([xs[0]], rest);
      ItemsConcat([xs[0]], xs[1..]);
      assert xs == [xs[0]] + xs[1..];
      calc {
        multiset(Items(SortDesc(xs)));
        multiset(Items([xs[0]] + rest));
        multiset(Items([xs[0]])) + multiset(Items(rest));
        multiset(Items([xs[0]])) + multiset(Items(xs[1..]));
        multiset(Items(xs));
      }
    }
  }

  /** Stability: the elements with any one key keep their relative order. */
  lemma {:induction false} SortDescStable<T>(xs: seq<Keyed<T>>, k: int)
    ensures WithKey(SortDesc(xs), k) == WithKey(xs, k)
  {
    if xs != [] {
      SortDescStable(xs[1..], k);
      InsertWithKey(xs[0], SortDesc(xs[1..]), k);
      assert ([xs[0]] + SortDesc(xs[1..]))[1..] == SortDesc(xs[1..]);
    }
  }
}
