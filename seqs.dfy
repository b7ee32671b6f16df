/** Folds and filters over sequences: the `reduce`, `filter` and group-by
    shapes that the pages use over the store's collections. Every fold runs
    from the left, as `Array.prototype.reduce` does, so a sum grows at the end. */
module Seqs {

  /** `s.reduce((acc, x) => acc + f(x), 0)` */
  function Sum<T>(s: seq<T>, f: T -> real): real
  {
    if s == [] then 0.0 else Sum(s[..|s| - 1], f) + f(s[|s| - 1])
  }

  lemma {:induction false} SumSnoc<T>(s: seq<T>, x: T, f: T -> real)
    ensures Sum(s + [x], f) == Sum(s, f) + f(x)
  {
    assert (s + [x])[..|s + [x]| - 1] == s;
  }

  lemma {:induction false} SumAppend<T>(a: seq<T>, b: seq<T>, f: T -> real)
    ensures Sum(a + b, f) == Sum(a, f) + Sum(b, f)
  {
    if b == [] {
      assert a + b == a;
    } else {
      assert (a + b)[..|a + b| - 1] == a + b[..|b| - 1];
      SumAppend(a, b[..|b| - 1], f);
    }
  }

  /** Sums agree when the summed values agree element by element. */
  lemma {:induction false} SumCongruent<T>(s: seq<T>, f: T -> real, g: T -> real)
    requires forall x :: x in s ==> f(x) == g(x)
    ensures Sum(s, f) == Sum(s, g)
  {
    if s != [] {
      SumCongruent(s[..|s| - 1], f, g);
    }
  }

  /** A sum of non-negative values is non-negative. */
  lemma {:induction false} SumNonNegative<T>(s: seq<T>, f: T -> real)
    requires forall x :: x in s ==> f(x) >= 0.0
    ensures Sum(s, f) >= 0.0
  {
    if s != [] {
      SumNonNegative(s[..|s| - 1], f);
    }
  }

  /** `s.filter(p)`: the elements satisfying `p`, in their original order. */
  function Filter<T>(s: seq<T>, p: T -> bool): (r: seq<T>)
    ensures |r| <= |s|
    ensures forall i :: 0 <= i < |r| ==> r[i] in s && p(r[i])
    ensures forall i :: 0 <= i < |s| && p(s[i]) ==> s[i] in r
  {
    if s == [] then []
    else
      assert s == s[..|s| - 1] + [s[|s| - 1]];
      var rest := Filter(s[..|s| - 1], p);
      if p(s[|s| - 1]) then rest + [s[|s| - 1]] else rest
  }

  /** The filter keeps every passing element as often as it occurs and
      drops every other: its multiset is that of `s` restricted to `p`. */
  lemma {:induction false} FilterCounts<T>(s: seq<T>, p: T -> bool)
    ensures forall i :: 0 <= i < |s| ==>
      multiset(Filter(s, p))[s[i]] == if p(s[i]) then multiset(s)[s[i]] else 0
  {
    if s != [] {
      var init, last := s[..|s| - 1], s[|s| - 1];
      assert s == init + [last];
      FilterCounts(init, p);
      var r0 := Filter(init, p);
      forall i | 0 <= i < |s|
        ensures multiset(Filter(s, p))[s[i]] == if p(s[i]) then multiset(s)[s[i]] else 0
      {
        var x := s[i];
        if x !in init {
          assert x !in r0;
        } else {
          var j :| 0 <= j < |init| && init[j] == x;
        }
      }
    }
  }

  lemma {:induction false} FilterSnoc<T>(s: seq<T>, x: T, p: T -> bool)
    ensures Filter(s + [x], p) == if p(x) then Filter(s, p) + [x] else Filter(s, p)
  {
    assert (s + [x])[..|s + [x]| - 1] == s;
  }

  /** Filtering distributes over concatenation, so the kept elements stay in order. */
  lemma {:induction false} FilterAppend<T>(a: seq<T>, b: seq<T>, p: T -> bool)
    ensures Filter(a + b, p) == Filter(a, p) + Filter(b, p)
  {
    if b == [] {
      assert a + b == a;
    } else {
      assert (a + b)[..|a + b| - 1] == a + b[..|b| - 1];
      FilterAppend(a, b[..|b| - 1], p);
    }
  }

  /** A filter that every element passes is the identity. */
  lemma {:induction false} FilterKeepsAll<T>(s: seq<T>, p: T -> bool)
    requires forall x :: x in s ==> p(x)
    ensures Filter(s, p) == s
  {
    if s != [] {
      assert s == s[..|s| - 1] + [s[|s| - 1]];
      FilterKeepsAll(s[..|s| - 1], p);
    }
  }

  /** `s.map(x => hit(x) ? g(x) : x)`: rewrites the elements that `hit`
      selects and keeps every other element, the length and the order. */
  function MapWhere<T>(s: seq<T>, hit: T -> bool, g: T -> T): (r: seq<T>)
    ensures |r| == |s|
    ensures forall k :: 0 <= k < |s| && hit(s[k]) ==> r[k] == g(s[k])
    ensures forall k :: 0 <= k < |s| && !hit(s[k]) ==> r[k] == s[k]
  {
    seq(|s|, k requires 0 <= k < |s| => if hit(s[k]) then g(s[k]) else s[k])
  }

  /** A relation that holds between every earlier and later element still
      holds after filtering, since filtering keeps the order. */
  lemma {:induction false} FilterPairwise<T>(s: seq<T>, p: T -> bool, rel: (T, T) -> bool)
    requires forall i, j :: 0 <= i < j < |s| ==> rel(s[i], s[j])
    ensures forall i, j :: 0 <= i < j < |Filter(s, p)| ==> rel(Filter(s, p)[i], Filter(s, p)[j])
  {
    if s != [] {
      var init, last := s[..|s| - 1], s[|s| - 1];
      FilterPairwise(init, p, rel);
      var r0 := Filter(init, p);
      forall i | 0 <= i < |r0|
        ensures rel(r0[i], last)
      {
        var a :| 0 <= a < |init| && init[a] == r0[i];
        assert s[a] == init[a];
      }
      var r := Filter(s, p);
      assert r == if p(last) then r0 + [last] else r0;
      forall i, j | 0 <= i < j < |r|
        ensures rel(r[i], r[j])
      {
        if j < |r0| {
          assert r[i] == r0[i] && r[j] == r0[j];
          assert rel(r0[i], r0[j]);
        } else {
          assert p(last) && j == |r0|;
          assert r[i] == r0[i] && r[j] == last;
          assert rel(r0[i], last);
        }
      }
    }
  }

  /** Sum of `f` over the elements whose `key` is `k`. */
  function SumWhere<T>(s: seq<T>, key: T -> string, k: string, f: T -> real): real
  {
    if s == [] then 0.0
    else SumWhere(s[..|s| - 1], key, k, f) + (if key(s[|s| - 1]) == k then f(s[|s| - 1]) else 0.0)
  }

  /** Number of elements whose `key` is `k`. */
  function CountWhere<T>(s: seq<T>, key: T -> string, k: string): nat
  {
    if s == [] then 0
    else CountWhere(s[..|s| - 1], key, k) + (if key(s[|s| - 1]) == k then 1 else 0)
  }

  lemma {:induction false} SumWhereSnoc<T>(s: seq<T>, x: T, key: T -> string, k: string, f: T -> real)
    ensures SumWhere(s + [x], key, k, f) == SumWhere(s, key, k, f) + (if key(x) == k then f(x) else 0.0)
  {
    assert (s + [x])[..|s + [x]| - 1] == s;
  }

  lemma {:induction false} CountWhereSnoc<T>(s: seq<T>, x: T, key: T -> string, k: string)
    ensures CountWhere(s + [x], key, k) == CountWhere(s, key, k) + (if key(x) == k then 1 else 0)
  {
    assert (s + [x])[..|s + [x]| - 1] == s;
  }

  /** A key carried by no element groups nothing. */
  lemma {:induction false} SumWhereAbsent<T>(s: seq<T>, key: T -> string, k: string, f: T -> real)
    requires forall x :: x in s ==> key(x) != k
    ensures SumWhere(s, key, k, f) == 0.0
  {
    if s != [] {
      SumWhereAbsent(s[..|s| - 1], key, k, f);
    }
  }

  lemma {:induction false} CountWhereAbsent<T>(s: seq<T>, key: T -> string, k: string)
    requires forall x :: x in s ==> key(x) != k
    ensures CountWhere(s, key, k) == 0
  {
    if s != [] {
      CountWhereAbsent(s[..|s| - 1], key, k);
    }
  }

  /** Summing over a filter that selects exactly one key is that key's
      group sum. */
  lemma {:induction false} SumFilterIsSumWhere<T>(s: seq<T>, p: T -> bool, key: T -> string, k: string, f: T -> real)
    requires forall x :: x in s ==> (p(x) <==> key(x) == k)
    ensures Sum(Filter(s, p), f) == SumWhere(s, key, k, f)
    ensures |Filter(s, p)| == CountWhere(s, key, k)
  {
    if s != [] {
      var init, last := s[..|s| - 1], s[|s| - 1];
      SumFilterIsSumWhere(init, p, key, k, f);
      if p(last) {
        SumAppend(Filter(init, p), [last], f);
        assert [last][..0] == [];
      }
    }
  }

  /** The sum of differences is the difference of the sums. */
  lemma {:induction false} SumDifference<T>(s: seq<T>, f: T -> real, g: T -> real, h: T -> real)
    requires forall i :: 0 <= i < |s| ==> h(s[i]) == f(s[i]) - g(s[i])
    ensures Sum(s, h) == Sum(s, f) - Sum(s, g)
  {
    if s != [] {
      SumDifference(s[..|s| - 1], f, g, h);
    }
  }

  /** The keys carried by the elements of `s`. */
  function KeySet<T>(s: seq<T>, key: T -> string): set<string>
  {
    if s == [] then {} else KeySet(s[..|s| - 1], key) + {key(s[|s| - 1])}
  }

  lemma KeySetSnoc<T>(s: seq<T>, x: T, key: T -> string)
    ensures KeySet(s + [x], key) == KeySet(s, key) + {key(x)}
  {
    assert (s + [x])[..|s|] == s;
  }

  /** `KeySet` holds exactly the keys some element carries. */
  lemma {:induction false} KeySetMembers<T>(s: seq<T>, key: T -> string)
    ensures forall k :: k in KeySet(s, key) <==> exists i :: 0 <= i < |s| && key(s[i]) == k
  {
    if s != [] {
      var init := s[..|s| - 1];
      KeySetMembers(init, key);
      assert forall i :: 0 <= i < |init| ==> init[i] == s[i];
    }
  }

  /** A key no element carries has an empty group. */
  lemma {:induction false} KeySetAbsent<T>(s: seq<T>, key: T -> string, k: string, f: T -> real)
    requires k !in KeySet(s, key)
    ensures SumWhere(s, key, k, f) == 0.0
    ensures CountWhere(s, key, k) == 0
  {
    if s != [] {
      KeySetAbsent(s[..|s| - 1], key, k, f);
    }
  }

  /** Counting only the elements that pass a filter never counts more. */
  lemma {:induction false} CountWhereFilter<T>(s: seq<T>, p: T -> bool, key: T -> string, k: string)
    ensures CountWhere(Filter(s, p), key, k) <= CountWhere(s, key, k)
  {
    if s != [] {
      var init, last := s[..|s| - 1], s[|s| - 1];
      assert s == init + [last];
      CountWhereFilter(init, p, key, k);
      CountWhereSnoc(init, last, key, k);
      if p(last) {
        CountWhereSnoc(Filter(init, p), last, key, k);
      }
    }
  }

  ghost predicate Distinct<T>(s: seq<T>)
  {
    forall i, j :: 0 <= i < j < |s| ==> s[i] != s[j]
  }

  /** The group sums over a list of keys, added up in the list's order. */
  function SumOverKeys<T>(s: seq<T>, key: T -> string, f: T -> real, ks: seq<string>): real
  {
    if ks == [] then 0.0
    else SumOverKeys(s, key, f, ks[..|ks| - 1]) + SumWhere(s, key, ks[|ks| - 1], f)
  }

  lemma {:induction false} SumOverKeysEmpty<T>(key: T -> string, f: T -> real, ks: seq<string>)
    ensures SumOverKeys([], key, f, ks) == 0.0
  {
    if ks != [] {
      SumOverKeysEmpty(key, f, ks[..|ks| - 1]);
    }
  }

  /** Adding one element to the grouped sequence adds its value to exactly
      the one group named by its key, if that key is listed. */
  lemma {:induction false} SumOverKeysSnoc<T>(s: seq<T>, x: T, key: T -> string, f: T -> real, ks: seq<string>)
    requires Distinct(ks)
    ensures SumOverKeys(s + [x], key, f, ks)
         == SumOverKeys(s, key, f, ks) + (if key(x) in ks then f(x) else 0.0)
  {
    if ks != [] {
      var init, k := ks[..|ks| - 1], ks[|ks| - 1];
      assert ks == init + [k];
      SumOverKeysSnoc(s, x, key, f, init);
      SumWhereSnoc(s, x, key, k, f);
      assert key(x) in ks <==> key(x) in init || key(x) == k;
      assert key(x) == k ==> key(x) !in init;
    }
  }

  /** Grouping loses nothing: summing the group sums over a duplicate-free
      list that names every key gives the plain sum. */
  lemma {:induction false} SumOverKeysTotal<T>(s: seq<T>, key: T -> string, f: T -> real, ks: seq<string>)
    requires Distinct(ks)
    requires forall x :: x in s ==> key(x) in ks
    ensures SumOverKeys(s, key, f, ks) == Sum(s, f)
  {
    if s == [] {
      SumOverKeysEmpty(key, f, ks);
    } else {
      var init, last := s[..|s| - 1], s[|s| - 1];
      assert s == init + [last];
      SumOverKeysTotal(init, key, f, ks);
      SumOverKeysSnoc(init, last, key, f, ks);
    }
  }
  /** Filtering a list with one element in front. */
  lemma {:induction false} FilterCons<T>(x: T, s: seq<T>, p: T -> bool)
    ensures Filter([x] + s, p) == (if p(x) then [x] else []) + Filter(s, p)
  {
    FilterAppend([x], s, p);
    assert [x][..0] == [];
  }

  /** A sum with one element in front. */
  lemma {:induction false} SumCons<T>(x: T, s: seq<T>, f: T -> real)
    ensures Sum([x] + s, f) == f(x) + Sum(s, f)
  {
    SumAppend([x], s, f);
    assert [x][..0] == [];
  }

  /** Splitting a list by a predicate and its negation splits its sum. */
  lemma {:induction false} SumSplit<T>(s: seq<T>, p: T -> bool, q: T -> bool, f: T -> real)
    requires forall x :: x in s ==> (q(x) <==> !p(x))
    ensures Sum(s, f) == Sum(Filter(s, p), f) + Sum(Filter(s, q), f)
  {
    if s != [] {
      var init, last := s[..|s| - 1], s[|s| - 1];
      assert s == init + [last];
      SumSplit(init, p, q, f);
      if p(last) {
        SumAppend(Filter(init, p), [last], f);
      } else {
        SumAppend(Filter(init, q), [last], f);
      }
    }
  }

  /** Two lists of the same length whose values are no larger position by
      position have no larger sum. */
  lemma {:induction false} SumPointwiseLe<T>(a: seq<T>, b: seq<T>, f: T -> real)
    requires |a| == |b|
    requires forall i :: 0 <= i < |a| ==> f(a[i]) <= f(b[i])
    ensures Sum(a, f) <= Sum(b, f)
  {
    if a != [] {
      SumPointwiseLe(a[..|a| - 1], b[..|b| - 1], f);
    }
  }

  lemma SumPointwiseEq<T>(a: seq<T>, b: seq<T>, f: T -> real)
    requires |a| == |b|
    requires forall i :: 0 <= i < |a| ==> f(a[i]) == f(b[i])
    ensures Sum(a, f) == Sum(b, f)
  {
    SumPointwiseLe(a, b, f);
    SumPointwiseLe(b, a, f);
  }

  /** A filter that no element passes keeps nothing. */
  lemma {:induction false} FilterDropsAll<T>(s: seq<T>, p: T -> bool)
    requires forall x :: x in s ==> !p(x)
    ensures Filter(s, p) == []
  {
    if s != [] {
      FilterDropsAll(s[..|s| - 1], p);
    }
  }
}
