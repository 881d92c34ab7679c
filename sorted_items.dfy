/** Python's ordering of `str` values and of `(str, int)` tuples, and the
    `sorted(d.items())` that turns a dict into a canonical, hashable tuple.
    A dict is a sequence of (key, value) items in insertion order. */
module SortedItems {

  /** One dict item: a string key and its integer value. */
  type Item = (string, int)

  /** Python's `a < b` on `str`: code point by code point, a proper prefix
      being the smaller. */
  predicate StrLess(a: string, b: string)
  {
    if |a| == 0 then |b| > 0
    else if |b| == 0 then false
    else a[0] < b[0] || (a[0] == b[0] && StrLess(a[1..], b[1..]))
  }

  lemma {:induction false} StrLessIrreflexive(a: string)
    ensures !StrLess(a, a)
  {
    if |a| > 0 {
      StrLessIrreflexive(a[1..]);
    }
  }

  lemma {:induction false} StrLessTransitive(a: string, b: string, c: string)
    requires StrLess(a, b) && StrLess(b, c)
    ensures StrLess(a, c)
  {
    if |a| > 0 && |b| > 0 && |c| > 0 && a[0] == b[0] && b[0] == c[0] {
      StrLessTransitive(a[1..], b[1..], c[1..]);
    }
  }

  lemma {:induction false} StrLessTotal(a: string, b: string)
    requires a != b
    ensures StrLess(a, b) || StrLess(b, a)
  {
    if |a| > 0 && |b| > 0 && a[0] == b[0] {
      assert a == [a[0]] + a[1..] && b == [b[0]] + b[1..];
      StrLessTotal(a[1..], b[1..]);
    }
  }

  /** Python's `<` on a `(str, int)` tuple: by key, then by value. */
  predicate ItemLess(p: Item, q: Item)
  {
    StrLess(p.0, q.0) || (p.0 == q.0 && p.1 < q.1)
  }

  predicate ItemLessEq(p: Item, q: Item)
  {
    p == q || ItemLess(p, q)
  }

  lemma ItemLessEqTransitive(p: Item, q: Item, r: Item)
    requires ItemLessEq(p, q) && ItemLessEq(q, r)
    ensures ItemLessEq(p, r)
  {
    if StrLess(p.0, q.0) && StrLess(q.0, r.0) {
      StrLessTransitive(p.0, q.0, r.0);
    }
  }

  lemma ItemLessEqTotal(p: Item, q: Item)
    ensures ItemLessEq(p, q) || ItemLessEq(q, p)
  {
    if p.0 != q.0 {
      StrLessTotal(p.0, q.0);
    }
  }

  lemma ItemLessEqAntisymmetric(p: Item, q: Item)
    requires ItemLessEq(p, q) && ItemLessEq(q, p)
    ensures p == q
  {
    if p != q {
      if StrLess(p.0, q.0) && StrLess(q.0, p.0) {
        StrLessTransitive(p.0, q.0, p.0);
      }
      StrLessIrreflexive(p.0);
    }
  }

  /** Ascending in Python's tuple order. */
  ghost predicate Sorted(s: seq<Item>)
  {
    forall i, j :: 0 <= i < j < |s| ==> ItemLessEq(s[i], s[j])
  }

  /** `x` is no greater than any item of `s`. */
  ghost predicate LowerBound(x: Item, s: seq<Item>)
  {
    forall k :: 0 <= k < |s| ==> ItemLessEq(x, s[k])
  }

  lemma LowerBoundOfPermutation(x: Item, s: seq<Item>, t: seq<Item>)
    requires LowerBound(x, s) && multiset(t) <= multiset(s)
    ensures LowerBound(x, t)
  {
    forall k | 0 <= k < |t|
      ensures ItemLessEq(x, t[k])
    {
      assert t[k] in multiset(t);
      assert t[k] in multiset(s);
      var i :| 0 <= i < |s| && s[i] == t[k];
    }
  }

  /** Places `x` into the sorted `s`, before the first item not below it. */
  function Insert(x: Item, s: seq<Item>): (r: seq<Item>)
    requires Sorted(s)
    ensures Sorted(r) && multiset(r) == multiset(s) + multiset{x}
  {
    if s == [] then [x]
    else if ItemLessEq(x, s[0]) then
      assert LowerBound(x, s) by {
        forall k | 0 <= k < |s| ensures ItemLessEq(x, s[k]) {
          if k > 0 { ItemLessEqTransitive(x, s[0], s[k]); }
        }
      }
      [x] + s
    else
      var rest := Insert(x, s[1..]);
      assert s == [s[0]] + s[1..];
      assert LowerBound(s[0], rest) by {
        ItemLessEqTotal(x, s[0]);
        assert LowerBound(s[0], s[1..] + [x]);
        LowerBoundOfPermutation(s[0], s[1..] + [x], rest);
      }
      [s[0]] + rest
  }

  /** `sorted(items)`: an insertion sort, which yields the one ascending
      arrangement of the items (see SortedUnique). */
  function Sort(items: seq<Item>): (r: seq<Item>)
    ensures Sorted(r) && multiset(r) == multiset(items)
  {
    if items == [] then []
    else
      assert items == items[..|items| - 1] + [items[|items| - 1]];
      Insert(items[|items| - 1], Sort(items[..|items| - 1]))
  }

  /** The least item of a sorted sequence is its head. */
  lemma SortedHeadIsLeast(a: seq<Item>, x: Item)
    requires Sorted(a) && x in multiset(a)
    ensures ItemLessEq(a[0], x)
  {
  }

  lemma SortedTail(a: seq<Item>)
    requires Sorted(a) && a != []
    ensures Sorted(a[1..])
    ensures multiset(a[1..]) == multiset(a) - multiset{a[0]}
  {
    assert a == [a[0]] + a[1..];
  }

  /** Two ascending sequences holding the same items are equal: the sorted
      tuple depends only on the items, not on their insertion order. */
  lemma {:induction false} SortedUnique(a: seq<Item>, b: seq<Item>)
    requires Sorted(a) && Sorted(b) && multiset(a) == multiset(b)
    ensures a == b
  {
    if a == [] {
      assert |multiset(b)| == 0;
    } else {
      assert a[0] in multiset(a);
      assert b != [];
      assert b[0] in multiset(b);
      SortedHeadIsLeast(a, b[0]);
      SortedHeadIsLeast(b, a[0]);
      ItemLessEqAntisymmetric(a[0], b[0]);
      SortedTail(a);
      SortedTail(b);
      SortedUnique(a[1..], b[1..]);
      assert a == [a[0]] + a[1..] && b == [b[0]] + b[1..];
    }
  }

  /** `sorted(a) == sorted(b)` exactly when `a` and `b` hold the same items. */
  lemma SortEqualIff(a: seq<Item>, b: seq<Item>)
    ensures Sort(a) == Sort(b) <==> multiset(a) == multiset(b)
  {
    if multiset(a) == multiset(b) {
      SortedUnique(Sort(a), Sort(b));
    }
  }

  /** No key occurs twice, as in every dict. */
  ghost predicate DistinctKeys(items: seq<Item>)
  {
    forall i, j :: 0 <= i < j < |items| ==> items[i].0 != items[j].0
  }

  /** The dict as a mapping from keys to values, which is what `==` on two
      dicts compares. */
  function ToMap(items: seq<Item>): map<string, int>
  {
    if items == [] then map[]
    else ToMap(items[..|items| - 1])[items[|items| - 1].0 := items[|items| - 1].1]
  }

  /** In a dict, an item is present exactly when its key maps to its value. */
  lemma {:induction false} ToMapHolds(items: seq<Item>, p: Item)
    requires DistinctKeys(items)
    ensures p in multiset(items) <==> p.0 in ToMap(items) && ToMap(items)[p.0] == p.1
  {
    if items != [] {
      var init, x := items[..|items| - 1], items[|items| - 1];
      assert items == init + [x];
      ToMapHolds(init, p);
      if p in multiset(init) && p != x {
        var i :| 0 <= i < |init| && init[i] == p;
        assert items[i] == p;
      }
    }
  }

  /** In a dict, no item occurs twice. */
  lemma {:induction false} DistinctKeysSingleItems(items: seq<Item>, p: Item)
    requires DistinctKeys(items)
    ensures multiset(items)[p] <= 1
  {
    if items != [] {
      var init, x := items[..|items| - 1], items[|items| - 1];
      assert items == init + [x];
      DistinctKeysSingleItems(init, p);
    }
  }

  /** Two dicts are equal exactly when they hold the same items, whatever
      order they were filled in. */
  lemma EqualDictsIff(a: seq<Item>, b: seq<Item>)
    requires DistinctKeys(a) && DistinctKeys(b)
    ensures ToMap(a) == ToMap(b) <==> multiset(a) == multiset(b)
  {
    if ToMap(a) == ToMap(b) {
      forall p
        ensures multiset(a)[p] == multiset(b)[p]
      {
        ToMapHolds(a, p);
        ToMapHolds(b, p);
        DistinctKeysSingleItems(a, p);
        DistinctKeysSingleItems(b, p);
      }
      assert multiset(a) == multiset(b);
    }
    if multiset(a) == multiset(b) {
      forall k | k in ToMap(a)
        ensures k in ToMap(b) && ToMap(b)[k] == ToMap(a)[k]
      {
        ToMapHolds(a, (k, ToMap(a)[k]));
        ToMapHolds(b, (k, ToMap(a)[k]));
      }
      forall k | k in ToMap(b)
        ensures k in ToMap(a)
      {
        ToMapHolds(b, (k, ToMap(b)[k]));
        ToMapHolds(a, (k, ToMap(b)[k]));
      }
      assert ToMap(a) == ToMap(b);
    }
  }
}
