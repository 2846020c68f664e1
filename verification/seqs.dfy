/**
 * The list idioms the pipeline is built from: `next(x for x in xs if p(x))`, list
 * comprehensions with a filter, `sorted(..., reverse=True)` / `list.sort(..., reverse=True)`,
 * an order-preserving `asyncio.gather`, and `dict(zip(keys, values))`.
 */
module Seqs {
  import opened Wrappers

  // ---------------------------------------------------------------------------
  // First match
  // ---------------------------------------------------------------------------

  /** i is the position of the first element of xs that satisfies p. */
  predicate IsFirst<T>(xs: seq<T>, p: T -> bool, i: int) {
    0 <= i < |xs| && p(xs[i]) && forall j :: 0 <= j < i ==> !p(xs[j])
  }

  /** `next((x for x in xs if p(x)), None)`: the first element satisfying p, if any. */
  function FirstMatch<T>(xs: seq<T>, p: T -> bool): (r: Option<T>)
    ensures r.None? <==> forall j :: 0 <= j < |xs| ==> !p(xs[j])
    ensures r.Some? ==> exists i :: IsFirst(xs, p, i) && xs[i] == r.value
  {
    if |xs| == 0 then None
    else if p(xs[0]) then
      assert IsFirst(xs, p, 0);
      Some(xs[0])
    else
      var r := FirstMatch(xs[1..], p);
      assert r.Some? ==> exists i :: IsFirst(xs, p, i) && xs[i] == r.value by {
        if r.Some? {
          var i :| IsFirst(xs[1..], p, i) && xs[1..][i] == r.value;
          assert IsFirst(xs, p, i + 1);
        }
      }
      r
  }

  /** Two predicates that agree on every element pick the same first match. */
  lemma {:induction false} FirstMatchAgree<T>(xs: seq<T>, p: T -> bool, q: T -> bool)
    requires forall j :: 0 <= j < |xs| ==> p(xs[j]) == q(xs[j])
    ensures FirstMatch(xs, p) == FirstMatch(xs, q)
  {
    if |xs| > 0 && !p(xs[0]) {
      FirstMatchAgree(xs[1..], p, q);
    }
  }

  // ---------------------------------------------------------------------------
  // Filter
  // ---------------------------------------------------------------------------

  /** `[x for x in xs if p(x)]`, defined element by element from the end. */
  function Filter<T>(xs: seq<T>, p: T -> bool): (r: seq<T>)
    ensures |r| <= |xs|
    ensures forall x :: x in r ==> x in xs && p(x)
  {
    if |xs| == 0 then []
    else
      var init := Filter(xs[..|xs| - 1], p);
      if p(xs[|xs| - 1]) then init + [xs[|xs| - 1]] else init
  }

  lemma {:induction false} FilterConcat<T>(a: seq<T>, b: seq<T>, p: T -> bool)
    ensures Filter(a + b, p) == Filter(a, p) + Filter(b, p)
    decreases |b|
  {
    if |b| == 0 {
      assert a + b == a;
    } else {
      var b' := b[..|b| - 1];
      assert (a + b)[..|a + b| - 1] == a + b';
      FilterConcat(a, b', p);
    }
  }

  /** An element occurs in the filtered list as often as in the list when it passes the filter, else never. */
  lemma {:induction false} FilterCount<T>(xs: seq<T>, p: T -> bool, x: T)
    ensures multiset(Filter(xs, p))[x] == if p(x) then multiset(xs)[x] else 0
  {
    if |xs| > 0 {
      var init := xs[..|xs| - 1];
      assert xs == init + [xs[|xs| - 1]];
      FilterCount(init, p, x);
    }
  }

  /** Filtering two permutations of each other gives permutations of each other. */
  lemma FilterPermutation<T(!new)>(xs: seq<T>, ys: seq<T>, p: T -> bool)
    requires multiset(xs) == multiset(ys)
    ensures multiset(Filter(xs, p)) == multiset(Filter(ys, p))
  {
    var a, b := multiset(Filter(xs, p)), multiset(Filter(ys, p));
    forall x ensures a[x] == b[x] {
      FilterCount(xs, p, x);
      FilterCount(ys, p, x);
    }
  }

  /** Two filters commute. */
  lemma {:induction false} FilterCommute<T>(xs: seq<T>, p: T -> bool, q: T -> bool)
    ensures Filter(Filter(xs, p), q) == Filter(Filter(xs, q), p)
  {
    if |xs| > 0 {
      var init, last := xs[..|xs| - 1], xs[|xs| - 1];
      FilterCommute(init, p, q);
      FilterConcat(Filter(init, p), [last], q);
      FilterConcat(Filter(init, q), [last], p);
      assert Filter([last], q) == (if q(last) then [last] else []) by {
        assert [last][..0] == [];
      }
      assert Filter([last], p) == (if p(last) then [last] else []) by {
        assert [last][..0] == [];
      }
    }
  }

  /** A filter with no passing element is empty. */
  lemma {:induction false} FilterNone<T>(xs: seq<T>, p: T -> bool)
    requires forall j :: 0 <= j < |xs| ==> !p(xs[j])
    ensures Filter(xs, p) == []
  {
    if |xs| > 0 {
      FilterNone(xs[..|xs| - 1], p);
    }
  }

  // ---------------------------------------------------------------------------
  // Stable descending sort
  // ---------------------------------------------------------------------------

  predicate SortedDesc<T>(xs: seq<T>, key: T -> real) {
    forall i, j :: 0 <= i < j < |xs| ==> key(xs[i]) >= key(xs[j])
  }

  /** The predicate "has key k", a named value so that every use denotes the same function. */
  function KeyIs<T>(key: T -> real, k: real): T -> bool {
    x => key(x) == k
  }

  /** Inserts x after every element whose key is at least x's key (so after its equals). */
  function Insert<T>(s: seq<T>, x: T, key: T -> real): (r: seq<T>)
    ensures multiset(r) == multiset(s) + multiset{x}
  {
    if |s| == 0 then [x]
    else if key(s[0]) >= key(x) then
      assert s == [s[0]] + s[1..];
      [s[0]] + Insert(s[1..], x, key)
    else
      [x] + s
  }

  lemma {:induction false} InsertSorted<T>(s: seq<T>, x: T, key: T -> real)
    requires SortedDesc(s, key)
    ensures SortedDesc(Insert(s, x, key), key)
  {
    if |s| > 0 && key(s[0]) >= key(x) {
      var rest := Insert(s[1..], x, key);
      InsertSorted(s[1..], x, key);
      forall j | 0 <= j < |rest| ensures key(s[0]) >= key(rest[j]) {
        assert rest[j] in multiset(rest);
        if rest[j] != x {
          assert rest[j] in multiset(s[1..]);
        }
      }
      assert Insert(s, x, key) == [s[0]] + rest;
    }
  }

  /**
   * `sorted(xs, key=key, reverse=True)`: insertion sort that takes the elements in input
   * order, so that elements with equal keys keep their input order (Python's sort is stable,
   * also with reverse=True).
   */
  function SortDesc<T>(xs: seq<T>, key: T -> real): (r: seq<T>)
    ensures SortedDesc(r, key)
    ensures multiset(r) == multiset(xs)
  {
    if |xs| == 0 then []
    else
      var init := xs[..|xs| - 1];
      assert xs == init + [xs[|xs| - 1]];
      InsertSorted(SortDesc(init, key), xs[|xs| - 1], key);
      Insert(SortDesc(init, key), xs[|xs| - 1], key)
  }

  lemma {:induction false} InsertStable<T>(s: seq<T>, x: T, key: T -> real, k: real)
    requires SortedDesc(s, key)
    ensures Filter(Insert(s, x, key), KeyIs(key, k))
         == Filter(s, KeyIs(key, k)) + (if key(x) == k then [x] else [])
  {
    var p := KeyIs(key, k);
    assert Filter([x], p) == (if key(x) == k then [x] else []) by {
      assert [x][..0] == [];
    }
    if |s| == 0 {
    } else if key(s[0]) >= key(x) {
      var rest := s[1..];
      assert s == [s[0]] + rest;
      InsertStable(rest, x, key, k);
      FilterConcat([s[0]], Insert(rest, x, key), p);
      FilterConcat([s[0]], rest, p);
    } else {
      FilterConcat([x], s, p);
      if key(x) == k {
        FilterNone(s, p);
      }
    }
  }

  /** Stability: for every key value, the elements with that key appear in input order. */
  lemma {:induction false} SortDescStable<T>(xs: seq<T>, key: T -> real, k: real)
    ensures Filter(SortDesc(xs, key), KeyIs(key, k)) == Filter(xs, KeyIs(key, k))
  {
    if |xs| > 0 {
      var init, last := xs[..|xs| - 1], xs[|xs| - 1];
      SortDescStable(init, key, k);
      InsertStable(SortDesc(init, key), last, key, k);
    }
  }

  /** Filtering keeps a sorted list sorted. */
  lemma {:induction false} FilterSorted<T>(xs: seq<T>, p: T -> bool, key: T -> real)
    requires SortedDesc(xs, key)
    ensures SortedDesc(Filter(xs, p), key)
  {
    if |xs| > 0 {
      var init := xs[..|xs| - 1];
      FilterSorted(init, p, key);
      var f := Filter(init, p);
      forall y | y in f ensures key(y) >= key(xs[|xs| - 1]) {
        var i :| 0 <= i < |init| && init[i] == y;
      }
    }
  }

  // ---------------------------------------------------------------------------
  // Order-preserving map (asyncio.gather) and dict(zip(...))
  // ---------------------------------------------------------------------------

  /** `[f(x) for x in xs]`, and `asyncio.gather(*(f(x) for x in xs))`: results by position. */
  function Map<A, B>(xs: seq<A>, f: A -> B): (r: seq<B>)
    ensures |r| == |xs|
    ensures forall i :: 0 <= i < |xs| ==> r[i] == f(xs[i])
  {
    if |xs| == 0 then [] else [f(xs[0])] + Map(xs[1..], f)
  }

  /** `dict(zip(ks, vs))`: pairs up by position, stops at the shorter list, a later key overwrites. */
  function Zip<K, V>(ks: seq<K>, vs: seq<V>): (m: map<K, V>)
    ensures forall k :: k in m ==> k in ks
  {
    if |ks| == 0 || |vs| == 0 then map[]
    else map[ks[0] := vs[0]] + Zip(ks[1..], vs[1..])
  }

  /** A key that occurs nowhere later in the list is mapped to the value at its own position. */
  lemma {:induction false} ZipAt<K, V>(ks: seq<K>, vs: seq<V>, i: nat)
    requires i < |ks| && i < |vs|
    requires forall j :: i < j < |ks| ==> ks[j] != ks[i]
    ensures ks[i] in Zip(ks, vs) && Zip(ks, vs)[ks[i]] == vs[i]
  {
    if i == 0 {
      assert ks[0] !in ks[1..];
    } else {
      ZipAt(ks[1..], vs[1..], i - 1);
    }
  }
}
