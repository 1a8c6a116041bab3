// Array helpers shared by the components: `filter`, the include-or-remove
// toggle every selection list uses, and the stable sort that
// Array.prototype.sort performs with a numeric comparator.

module Lists {

  /** `s.filter(p)`. */
  function Filter<T>(s: seq<T>, p: T -> bool): (r: seq<T>)
    ensures |r| <= |s|
    ensures forall i :: 0 <= i < |r| ==> p(r[i])
  {
    if s == [] then []
    else if p(s[0]) then [s[0]] + Filter(s[1..], p)
    else Filter(s[1..], p)
  }

  /** a is obtained from b by deleting elements, the order of the rest kept. */
  predicate IsSubsequence<T(==)>(a: seq<T>, b: seq<T>)
    decreases |b|
  {
    a == [] || (|b| > 0 && if a[0] == b[0] then IsSubsequence(a[1..], b[1..]) else IsSubsequence(a, b[1..]))
  }

  /** Filtering keeps exactly the elements that pass, in their original order. */
  lemma {:induction false} FilterMembers<T>(s: seq<T>, p: T -> bool)
    ensures forall x :: x in Filter(s, p) <==> x in s && p(x)
    ensures IsSubsequence(Filter(s, p), s)
    ensures multiset(Filter(s, p)) <= multiset(s)
  {
    if s != [] {
      FilterMembers(s[1..], p);
      assert s == [s[0]] + s[1..];
      var r := Filter(s, p);
      if p(s[0]) {
        assert r[1..] == Filter(s[1..], p);
      }
    }
  }

  lemma {:induction false} FilterKeepsAll<T>(s: seq<T>, p: T -> bool)
    requires forall i :: 0 <= i < |s| ==> p(s[i])
    ensures Filter(s, p) == s
  {
    if s != [] {
      FilterKeepsAll(s[1..], p);
    }
  }

  lemma {:induction false} FilterKeepsNone<T>(s: seq<T>, p: T -> bool)
    requires forall i :: 0 <= i < |s| ==> !p(s[i])
    ensures Filter(s, p) == []
  {
    if s != [] {
      FilterKeepsNone(s[1..], p);
    }
  }

  /** Two tests that agree on every element keep the same elements. */
  lemma {:induction false} FilterExt<T>(s: seq<T>, p: T -> bool, q: T -> bool)
    requires forall i :: 0 <= i < |s| ==> p(s[i]) == q(s[i])
    ensures Filter(s, p) == Filter(s, q)
  {
    if s != [] {
      FilterExt(s[1..], p, q);
    }
  }

  /** Filtering keeps every copy of a passing element and no copy of a failing one. */
  lemma {:induction false} FilterCount<T>(s: seq<T>, p: T -> bool, x: T)
    ensures multiset(Filter(s, p))[x] == if p(x) then multiset(s)[x] else 0
  {
    if s != [] {
      FilterCount(s[1..], p, x);
      assert s == [s[0]] + s[1..];
      if p(s[0]) {
        assert Filter(s, p) == [s[0]] + Filter(s[1..], p);
      }
    }
  }

  lemma MultisetExt<T>(a: multiset<T>, b: multiset<T>)
    requires forall x :: a[x] == b[x]
    ensures a == b
  {
  }

  /** Filtering two permutations of one list gives permutations of one another. */
  lemma FilterPermutation<T>(a: seq<T>, b: seq<T>, p: T -> bool)
    requires multiset(a) == multiset(b)
    ensures multiset(Filter(a, p)) == multiset(Filter(b, p))
  {
    forall x ensures multiset(Filter(a, p))[x] == multiset(Filter(b, p))[x] {
      FilterCount(a, p, x);
      FilterCount(b, p, x);
    }
    MultisetExt(multiset(Filter(a, p)), multiset(Filter(b, p)));
  }

  /** `s.findIndex(p)`: the first index that passes, or -1. */
  function FindFirst<T>(s: seq<T>, p: T -> bool): (r: int)
    ensures -1 <= r < |s|
    ensures r >= 0 ==> p(s[r]) && forall j :: 0 <= j < r ==> !p(s[j])
    ensures r == -1 ==> forall j :: 0 <= j < |s| ==> !p(s[j])
  {
    if s == [] then -1
    else if p(s[0]) then 0
    else
      var k := FindFirst(s[1..], p);
      if k == -1 then -1 else k + 1
  }

  function Both<T>(p: T -> bool, q: T -> bool): T -> bool
  {
    x => p(x) && q(x)
  }

  /** Filtering in stages is filtering once by the conjunction. */
  lemma {:induction false} FilterFilter<T>(s: seq<T>, p: T -> bool, q: T -> bool)
    ensures Filter(Filter(s, p), q) == Filter(s, Both(p, q))
  {
    if s != [] {
      FilterFilter(s[1..], p, q);
      if p(s[0]) {
        assert Filter(s, p) == [s[0]] + Filter(s[1..], p);
        assert ([s[0]] + Filter(s[1..], p))[1..] == Filter(s[1..], p);
      }
    }
  }

  lemma {:induction false} FilterConcat<T>(a: seq<T>, b: seq<T>, p: T -> bool)
    ensures Filter(a + b, p) == Filter(a, p) + Filter(b, p)
  {
    if a == [] {
      assert a + b == b;
    } else {
      assert (a + b)[1..] == a[1..] + b;
      FilterConcat(a[1..], b, p);
    }
  }

  lemma FilterCons<T>(x: T, s: seq<T>, p: T -> bool)
    ensures Filter([x] + s, p) == if p(x) then [x] + Filter(s, p) else Filter(s, p)
  {
    assert ([x] + s)[1..] == s;
  }

  function Not<T>(p: T -> bool): T -> bool
  {
    x => !p(x)
  }

  /** Every element passes a test or fails it. */
  lemma {:induction false} FilterPartition<T>(s: seq<T>, p: T -> bool)
    ensures |Filter(s, p)| + |Filter(s, Not(p))| == |s|
  {
    if s != [] {
      FilterPartition(s[1..], p);
    }
  }

  predicate Distinct<T(==)>(s: seq<T>)
  {
    forall i, j :: 0 <= i < j < |s| ==> s[i] != s[j]
  }

  lemma {:induction false} FilterDistinct<T>(s: seq<T>, p: T -> bool)
    requires Distinct(s)
    ensures Distinct(Filter(s, p))
  {
    if s != [] {
      FilterDistinct(s[1..], p);
      FilterMembers(s[1..], p);
      if p(s[0]) {
        var r := Filter(s, p);
        assert r == [s[0]] + Filter(s[1..], p);
        assert s[0] !in s[1..];
        forall i, j | 0 <= i < j < |r| ensures r[i] != r[j] {
          if i == 0 {
            assert r[j] in Filter(s[1..], p);
          } else {
            assert r[i] == Filter(s[1..], p)[i - 1];
          }
        }
      }
    }
  }

  function NotEqual<T(==)>(x: T): T -> bool
  {
    y => y != x
  }

  function NotIn<T(==)>(xs: seq<T>): T -> bool
  {
    y => y !in xs
  }

  /** Dropping the values of a list and then one more value is dropping the list extended by it. */
  lemma FilterNotInStep<T>(s: seq<T>, xs: seq<T>, x: T)
    ensures Filter(Filter(s, NotIn(xs)), NotEqual(x)) == Filter(s, NotIn(xs + [x]))
  {
    FilterFilter(s, NotIn(xs), NotEqual(x));
    forall k | 0 <= k < |s|
      ensures Both(NotIn(xs), NotEqual(x))(s[k]) == NotIn(xs + [x])(s[k])
    {
      assert s[k] in xs + [x] <==> s[k] in xs || s[k] == x;
    }
    FilterExt(s, Both(NotIn(xs), NotEqual(x)), NotIn(xs + [x]));
  }

  /**
   * The include-or-remove toggle of the selection lists:
   * `s.includes(x) ? s.filter(y => y !== x) : [...s, x]`.
   */
  function Toggle<T(==,!new)>(s: seq<T>, x: T): (r: seq<T>)
    ensures x in r <==> x !in s
    ensures forall y :: y != x ==> (y in r <==> y in s)
  {
    FilterMembers(s, NotEqual(x));
    if x in s then Filter(s, NotEqual(x)) else s + [x]
  }

  /** Toggling off a value the list holds, after dropping others, drops it as well. */
  lemma ToggleOffStep<T(!new)>(s: seq<T>, xs: seq<T>, x: T)
    requires x in s && x !in xs
    ensures Toggle(Filter(s, NotIn(xs)), x) == Filter(s, NotIn(xs + [x]))
  {
    FilterMembers(s, NotIn(xs));
    assert x in Filter(s, NotIn(xs));
    FilterNotInStep(s, xs, x);
  }

  /** Toggling an absent value in and out again restores the list. */
  lemma ToggleTwiceRestores<T(!new)>(s: seq<T>, x: T)
    requires x !in s
    ensures Toggle(Toggle(s, x), x) == s
  {
    assert x in s + [x];
    FilterKeepsAll(s, NotEqual(x));
    FilterConcat(s, [x], NotEqual(x));
  }

  /** Toggling keeps a selection free of duplicates. */
  lemma ToggleDistinct<T(!new)>(s: seq<T>, x: T)
    requires Distinct(s)
    ensures Distinct(Toggle(s, x))
  {
    if x in s {
      FilterDistinct(s, NotEqual(x));
    }
  }
}

module Sorting {
  import opened Lists

  predicate SortedBy<T>(s: seq<T>, key: T -> int)
  {
    forall i, j :: 0 <= i < j < |s| ==> key(s[i]) <= key(s[j])
  }

  /** Places x in front of the first element whose key is not below x's. */
  function Insert<T>(x: T, s: seq<T>, key: T -> int): (r: seq<T>)
    ensures multiset(r) == multiset(s) + multiset{x}
  {
    if s == [] || key(x) <= key(s[0]) then [x] + s
    else
      assert s == [s[0]] + s[1..];
      [s[0]] + Insert(x, s[1..], key)
  }

  predicate KeysAtLeast<T>(s: seq<T>, key: T -> int, b: int)
  {
    forall i :: 0 <= i < |s| ==> b <= key(s[i])
  }

  lemma {:induction false} InsertKeysAtLeast<T>(x: T, s: seq<T>, key: T -> int, b: int)
    requires KeysAtLeast(s, key, b) && b <= key(x)
    ensures KeysAtLeast(Insert(x, s, key), key, b)
  {
    if s != [] && key(x) > key(s[0]) {
      InsertKeysAtLeast(x, s[1..], key, b);
    }
  }

  lemma {:induction false} InsertSorted<T>(x: T, s: seq<T>, key: T -> int)
    requires SortedBy(s, key)
    ensures SortedBy(Insert(x, s, key), key)
  {
    if s == [] || key(x) <= key(s[0]) {
      assert forall j :: 0 <= j < |s| ==> key(s[0]) <= key(s[j]);
      ConsSorted(x, s, key);
    } else {
      SortedTail(s, key);
      InsertSorted(x, s[1..], key);
      InsertKeysAtLeast(x, s[1..], key, key(s[0]));
      ConsSorted(s[0], Insert(x, s[1..], key), key);
    }
  }

  lemma SortedTail<T>(s: seq<T>, key: T -> int)
    requires s != [] && SortedBy(s, key)
    ensures SortedBy(s[1..], key) && KeysAtLeast(s[1..], key, key(s[0]))
  {
    forall i, j | 0 <= i < j < |s[1..]|
      ensures key(s[1..][i]) <= key(s[1..][j])
    {
      assert s[1..][i] == s[i + 1] && s[1..][j] == s[j + 1];
    }
  }


  /**
   * `[...s].sort((a, b) => key(a) - key(b))`: Array.prototype.sort is stable
   * (section 22.1.3.27 of ECMA-262, 2019 edition), so elements with equal keys keep their order.
   */
  function SortBy<T>(s: seq<T>, key: T -> int): (r: seq<T>)
    ensures SortedBy(r, key)
    ensures multiset(r) == multiset(s)
  {
    if s == [] then []
    else
      assert s == [s[0]] + s[1..];
      var t := SortBy(s[1..], key);
      InsertSorted(s[0], t, key);
      Insert(s[0], t, key)
  }

  function KeyIs<T>(key: T -> int, k: int): T -> bool
  {
    x => key(x) == k
  }

  lemma {:induction false} InsertClass<T>(x: T, s: seq<T>, key: T -> int, k: int)
    ensures Filter(Insert(x, s, key), KeyIs(key, k))
         == if key(x) == k then [x] + Filter(s, KeyIs(key, k)) else Filter(s, KeyIs(key, k))
  {
    if s == [] || key(x) <= key(s[0]) {
    } else {
      InsertClass(x, s[1..], key, k);
      assert Insert(x, s, key) == [s[0]] + Insert(x, s[1..], key);
    }
  }

  /** Stability: the elements with any one key appear in the order they had. */
  lemma {:induction false} SortStable<T>(s: seq<T>, key: T -> int, k: int)
    ensures Filter(SortBy(s, key), KeyIs(key, k)) == Filter(s, KeyIs(key, k))
  {
    if s != [] {
      SortStable(s[1..], key, k);
      InsertClass(s[0], SortBy(s[1..], key), key, k);
    }
  }

  /** Sorting an already sorted list leaves it as it is. */
  lemma {:induction false} SortedIsFixpoint<T>(s: seq<T>, key: T -> int)
    requires SortedBy(s, key)
    ensures SortBy(s, key) == s
  {
    if s != [] {
      assert SortedBy(s[1..], key);
      SortedIsFixpoint(s[1..], key);
      assert s == [s[0]] + s[1..];
    }
  }

  /** A comparator that always answers 0 (or NaN) leaves the order unchanged. */
  lemma ConstantKeyKeepsOrder<T>(s: seq<T>, key: T -> int)
    requires forall i, j :: 0 <= i < |s| && 0 <= j < |s| ==> key(s[i]) == key(s[j])
    ensures SortBy(s, key) == s
  {
    SortedIsFixpoint(s, key);
  }

  function Negate<T>(key: T -> int): T -> int
  {
    x => -key(x)
  }

  predicate SortedDesc<T>(s: seq<T>, key: T -> int)
  {
    forall i, j :: 0 <= i < j < |s| ==> key(s[i]) >= key(s[j])
  }

  /** `[...s].sort((a, b) => key(b) - key(a))`: largest key first, stable. */
  function SortDesc<T>(s: seq<T>, key: T -> int): (r: seq<T>)
    ensures SortedDesc(r, key)
    ensures multiset(r) == multiset(s)
  {
    var r := SortBy(s, Negate(key));
    assert forall i, j :: 0 <= i < j < |r| ==> Negate(key)(r[i]) <= Negate(key)(r[j]);
    r
  }

  lemma SortDescStable<T>(s: seq<T>, key: T -> int, k: int)
    ensures Filter(SortDesc(s, key), KeyIs(key, k)) == Filter(s, KeyIs(key, k))
  {
    NegatedClass(key, k);
    FilterSameTest(SortDesc(s, key), KeyIs(key, k), KeyIs(Negate(key), -k));
    FilterSameTest(s, KeyIs(key, k), KeyIs(Negate(key), -k));
    SortStable(s, Negate(key), -k);
  }

  /** Two tests that agree everywhere filter alike. */
  lemma FilterSameTest<T>(s: seq<T>, p: T -> bool, q: T -> bool)
    requires forall x :: p(x) == q(x)
    ensures Filter(s, p) == Filter(s, q)
  {
    FilterExt(s, p, q);
  }

  /** The class of key `k` is the class of key `-k` under the negated key. */
  lemma NegatedClass<T>(key: T -> int, k: int)
    ensures forall x :: KeyIs(key, k)(x) == KeyIs(Negate(key), -k)(x)
  {
  }

  /** Filtering a sorted list keeps it sorted. */
  lemma {:induction false} FilterKeepsSorted<T>(s: seq<T>, key: T -> int, p: T -> bool)
    requires SortedBy(s, key)
    ensures SortedBy(Filter(s, p), key)
  {
    if s != [] {
      assert SortedBy(s[1..], key);
      FilterKeepsSorted(s[1..], key, p);
      if p(s[0]) {
        var t := Filter(s[1..], p);
        HeadLeads(s, key, p);
        ConsSorted(s[0], t, key);
      }
    }
  }

  /** Every element kept from the tail has a key at least the head's. */
  lemma HeadLeads<T>(s: seq<T>, key: T -> int, p: T -> bool)
    requires s != [] && SortedBy(s, key)
    ensures forall j :: 0 <= j < |Filter(s[1..], p)| ==> key(s[0]) <= key(Filter(s[1..], p)[j])
  {
    assert KeysAtLeast(s[1..], key, key(s[0]));
    FilterKeysAtLeast(s[1..], key, key(s[0]), p);
  }

  lemma {:induction false} FilterKeysAtLeast<T>(s: seq<T>, key: T -> int, b: int, p: T -> bool)
    requires KeysAtLeast(s, key, b)
    ensures KeysAtLeast(Filter(s, p), key, b)
  {
    if s != [] {
      FilterKeysAtLeast(s[1..], key, b, p);
    }
  }

  lemma ConsSorted<T>(x: T, t: seq<T>, key: T -> int)
    requires SortedBy(t, key)
    requires forall j :: 0 <= j < |t| ==> key(x) <= key(t[j])
    ensures SortedBy([x] + t, key)
  {
    var r := [x] + t;
    forall i, j | 0 <= i < j < |r| ensures key(r[i]) <= key(r[j]) {
      assert r[j] == t[j - 1];
      if i > 0 {
        assert r[i] == t[i - 1];
      }
    }
  }

  lemma FilterKeepsSortedDesc<T>(s: seq<T>, key: T -> int, p: T -> bool)
    requires SortedDesc(s, key)
    ensures SortedDesc(Filter(s, p), key)
  {
    assert SortedBy(s, Negate(key));
    FilterKeepsSorted(s, Negate(key), p);
    var r := Filter(s, p);
    assert forall i, j :: 0 <= i < j < |r| ==> Negate(key)(r[i]) <= Negate(key)(r[j]);
  }

  lemma SortedDescTail<T>(a: seq<T>, key: T -> int)
    requires a != [] && SortedDesc(a, key)
    ensures SortedDesc(a[1..], key)
  {
    forall i, j | 0 <= i < j < |a[1..]|
      ensures key(a[1..][i]) >= key(a[1..][j])
    {
      assert a[1..][i] == a[i + 1] && a[1..][j] == a[j + 1];
    }
  }

  /** Two descending arrangements of the same elements with distinct keys start alike. */
  lemma SortedDescSameHead<T>(a: seq<T>, b: seq<T>, key: T -> int)
    requires a != [] && multiset(a) == multiset(b)
    requires SortedDesc(a, key) && SortedDesc(b, key)
    requires forall x, y :: x in a && y in a && key(x) == key(y) ==> x == y
    ensures b != [] && a[0] == b[0]
  {
    assert a[0] in multiset(b);
    var k :| 0 <= k < |b| && b[k] == a[0];
    assert b[0] in multiset(a);
    var m :| 0 <= m < |a| && a[m] == b[0];
    assert key(a[0]) >= key(a[m]) == key(b[0]) >= key(b[k]) == key(a[0]);
  }

  /** Equal heads and equal multisets leave equal multisets of the tails. */
  lemma MultisetTail<T>(a: seq<T>, b: seq<T>)
    requires a != [] && b != [] && a[0] == b[0] && multiset(a) == multiset(b)
    ensures multiset(a[1..]) == multiset(b[1..])
  {
    assert a == [a[0]] + a[1..];
    assert b == [b[0]] + b[1..];
    forall x ensures multiset(a[1..])[x] == multiset(b[1..])[x] {
      assert multiset(a)[x] == multiset{a[0]}[x] + multiset(a[1..])[x];
      assert multiset(b)[x] == multiset{b[0]}[x] + multiset(b[1..])[x];
    }
    MultisetExt(multiset(a[1..]), multiset(b[1..]));
  }

  /**
   * When no two different elements share a key there is only one descending
   * order: any two descending arrangements of the same elements are equal,
   * whatever the comparator did with ties.
   */
  lemma {:induction false} SortedDescUnique<T>(a: seq<T>, b: seq<T>, key: T -> int)
    requires multiset(a) == multiset(b)
    requires SortedDesc(a, key) && SortedDesc(b, key)
    requires forall x, y :: x in a && y in a && key(x) == key(y) ==> x == y
    ensures a == b
  {
    assert |a| == |multiset(a)| == |multiset(b)| == |b|;
    if a != [] {
      SortedDescSameHead(a, b, key);
      MultisetTail(a, b);
      SortedDescTail(a, key);
      SortedDescTail(b, key);
      assert forall x :: x in a[1..] ==> x in a;
      SortedDescUnique(a[1..], b[1..], key);
    }
  }
}
