/** The two orders the report pages sort `Object.entries` by: descending
    by value (`(a, b) => b[1] - a[1]`) and ascending by key
    (`a[0].localeCompare(b[0])`). Both are insertion sorts. The value sort
    keeps entries of equal value in their original order, as the stable
    `Array.prototype.sort` does (`SortDescStable`); the key sort only ever
    sees distinct keys, so its order is fully determined. */
module Sorting {
  import opened Text
  import opened Seqs

  /** An `Object.entries` pair of a string-keyed record of numbers. */
  type Entry = (string, real)

  function EntryValue(e: Entry): real { e.1 }

  ghost predicate NonIncreasing(s: seq<Entry>)
  {
    forall i, j :: 0 <= i < j < |s| ==> s[i].1 >= s[j].1
  }

  /** Inserts `e` in front of the first element it is not smaller than. */
  function InsertDesc(e: Entry, s: seq<Entry>): (r: seq<Entry>)
    requires NonIncreasing(s)
    ensures |r| == |s| + 1
    ensures NonIncreasing(r)
    ensures multiset(r) == multiset(s) + multiset{e}
    ensures r[0] == e || (s != [] && r[0] == s[0])
  {
    if s == [] || e.1 >= s[0].1 then
      ConsNonIncreasing(e, s);
      [e] + s
    else
      var t := InsertDesc(e, s[1..]);
      assert s == [s[0]] + s[1..];
      HeadDominates(e, s, t);
      ConsNonIncreasing(s[0], t);
      [s[0]] + t
  }

  lemma ConsNonIncreasing(x: Entry, t: seq<Entry>)
    requires NonIncreasing(t)
    requires forall k :: 0 <= k < |t| ==> x.1 >= t[k].1
    ensures NonIncreasing([x] + t)
  {
    var r := [x] + t;
    forall i, j | 0 <= i < j < |r|
      ensures r[i].1 >= r[j].1
    {
      assert r[j] == t[j - 1];
      if i > 0 {
        assert r[i] == t[i - 1];
      }
    }
  }

  /** An element of `t`, a rearrangement of the tail of `s` plus `e`, is
      `e` or an element of that tail. */
  lemma FromTailOrNew<T>(e: T, s: seq<T>, t: seq<T>)
    requires s != [] && multiset(t) == multiset(s[1..]) + multiset{e}
    ensures forall k :: 0 <= k < |t| ==> t[k] == e || exists m :: 1 <= m < |s| && s[m] == t[k]
  {
    forall k | 0 <= k < |t|
      ensures t[k] == e || exists m :: 1 <= m < |s| && s[m] == t[k]
    {
      assert t[k] in multiset(t);
      if t[k] != e {
        assert t[k] in multiset(s[1..]);
        var m :| 0 <= m < |s[1..]| && s[1..][m] == t[k];
        assert s[m + 1] == t[k];
      }
    }
  }

  /** The head of a sorted list is no smaller than anything inserted
      after it. */
  lemma HeadDominates(e: Entry, s: seq<Entry>, t: seq<Entry>)
    requires NonIncreasing(s) && s != [] && e.1 < s[0].1
    requires multiset(t) == multiset(s[1..]) + multiset{e}
    ensures forall k :: 0 <= k < |t| ==> s[0].1 >= t[k].1
  {
    FromTailOrNew(e, s, t);
  }

  /** Sorted by descending value, ties in their original order. */
  function SortDesc(s: seq<Entry>): (r: seq<Entry>)
    ensures |r| == |s|
    ensures NonIncreasing(r)
    ensures multiset(r) == multiset(s)
  {
    if s == [] then []
    else
      assert s == [s[0]] + s[1..];
      InsertDesc(s[0], SortDesc(s[1..]))
  }

  /** Already sorted input comes back unchanged, so sorting twice is
      sorting once. */
  lemma {:induction false} SortDescSorted(s: seq<Entry>)
    requires NonIncreasing(s)
    ensures SortDesc(s) == s
  {
    if s != [] {
      SortDescSorted(s[1..]);
      assert s == [s[0]] + s[1..];
    }
  }

  lemma SortDescIdempotent(s: seq<Entry>)
    ensures SortDesc(SortDesc(s)) == SortDesc(s)
  {
    SortDescSorted(SortDesc(s));
  }

  lemma {:induction false} InsertDescSum(e: Entry, s: seq<Entry>)
    requires NonIncreasing(s)
    ensures Sum(InsertDesc(e, s), EntryValue) == e.1 + Sum(s, EntryValue)
  {
    if s == [] || e.1 >= s[0].1 {
      SumCons(e, s, EntryValue);
    } else {
      InsertDescSum(e, s[1..]);
      SumCons(s[0], InsertDesc(e, s[1..]), EntryValue);
      SumCons(s[0], s[1..], EntryValue);
      assert s == [s[0]] + s[1..];
    }
  }

  /** Sorting by value keeps the total of the values. */
  lemma {:induction false} SortDescSum(s: seq<Entry>)
    ensures Sum(SortDesc(s), EntryValue) == Sum(s, EntryValue)
  {
    if s != [] {
      SortDescSum(s[1..]);
      InsertDescSum(s[0], SortDesc(s[1..]));
      SumCons(s[0], s[1..], EntryValue);
      assert s == [s[0]] + s[1..];
    }
  }

  /** The entries carrying value `v`. */
  function WithValue(v: real): Entry -> bool
  {
    (e: Entry) => e.1 == v
  }

  lemma {:induction false} InsertDescStable(e: Entry, s: seq<Entry>, v: real)
    requires NonIncreasing(s)
    ensures Filter(InsertDesc(e, s), WithValue(v)) == Filter([e] + s, WithValue(v))
  {
    if s != [] && e.1 < s[0].1 {
      var p := WithValue(v);
      var t := InsertDesc(e, s[1..]);
      var fe: seq<Entry> := if p(e) then [e] else [];
      var f0: seq<Entry> := if p(s[0]) then [s[0]] else [];
      var rest := Filter(s[1..], p);
      assert InsertDesc(e, s) == [s[0]] + t;
      assert Filter([s[0]] + t, p) == f0 + (fe + rest) by {
        InsertDescStable(e, s[1..], v);
        FilterCons(e, s[1..], p);
        FilterCons(s[0], t, p);
      }
      assert Filter([e] + s, p) == fe + (f0 + rest) by {
        assert s == [s[0]] + s[1..];
        FilterCons(s[0], s[1..], p);
        FilterCons(e, s, p);
      }
      SwapFront(f0, fe, rest);
    }
  }

  lemma SwapFront<T>(a: seq<T>, b: seq<T>, c: seq<T>)
    requires a == [] || b == []
    ensures a + (b + c) == b + (a + c)
  {
    if a == [] {
      assert a + (b + c) == b + c == b + (a + c);
    } else {
      assert a + (b + c) == a + c == b + (a + c);
    }
  }

  /** Sorting by value is stable: the entries of each value come out in
      the order they went in. */
  lemma {:induction false} SortDescStable(s: seq<Entry>, v: real)
    ensures Filter(SortDesc(s), WithValue(v)) == Filter(s, WithValue(v))
  {
    if s != [] {
      var t := SortDesc(s[1..]);
      SortDescStable(s[1..], v);
      InsertDescStable(s[0], t, v);
      FilterCons(s[0], t, WithValue(v));
      FilterCons(s[0], s[1..], WithValue(v));
      assert s == [s[0]] + s[1..];
    }
  }

  /** Keys in strictly increasing code-point order. */
  ghost predicate StrictlyAscending<V>(s: seq<(string, V)>)
  {
    forall i, j :: 0 <= i < j < |s| ==> StrLess(s[i].0, s[j].0)
  }

  ghost predicate DistinctKeys<V>(s: seq<(string, V)>)
  {
    forall i, j :: 0 <= i < j < |s| ==> s[i].0 != s[j].0
  }

  lemma {:induction false} InsertDescDistinctKeys(e: Entry, s: seq<Entry>)
    requires NonIncreasing(s)
    requires DistinctKeys(s)
    requires forall i :: 0 <= i < |s| ==> s[i].0 != e.0
    ensures DistinctKeys(InsertDesc(e, s))
  {
    if s != [] && e.1 < s[0].1 {
      InsertDescDistinctKeys(e, s[1..]);
      var t := InsertDesc(e, s[1..]);
      FromTailOrNew(e, s, t);
      var r := [s[0]] + t;
      forall i, j | 0 <= i < j < |r|
        ensures r[i].0 != r[j].0
      {
        assert r[j] == t[j - 1];
        if i > 0 {
          assert r[i] == t[i - 1];
        }
      }
    }
  }

  /** Sorting by value keeps the keys distinct. */
  lemma {:induction false} SortDescDistinctKeys(s: seq<Entry>)
    requires DistinctKeys(s)
    ensures DistinctKeys(SortDesc(s))
  {
    if s != [] {
      SortDescDistinctKeys(s[1..]);
      var t := SortDesc(s[1..]);
      forall i | 0 <= i < |t|
        ensures t[i].0 != s[0].0
      {
        assert t[i] in multiset(s[1..]);
      }
      InsertDescDistinctKeys(s[0], t);
    }
  }

  /** Inserts `e`, whose key is new, in front of the first larger key. */
  function InsertByKey<V(==)>(e: (string, V), s: seq<(string, V)>): (r: seq<(string, V)>)
    requires StrictlyAscending(s)
    requires forall i :: 0 <= i < |s| ==> s[i].0 != e.0
    ensures |r| == |s| + 1
    ensures StrictlyAscending(r)
    ensures multiset(r) == multiset(s) + multiset{e}
    ensures r[0] == e || (s != [] && r[0] == s[0])
  {
    if s == [] || StrLess(e.0, s[0].0) then
      forall k | 1 <= k < |s|
        ensures StrLess(e.0, s[k].0)
      {
        StrLessTransitive(e.0, s[0].0, s[k].0);
      }
      ConsAscending(e, s);
      [e] + s
    else
      StrLessTotal(e.0, s[0].0);
      var t := InsertByKey(e, s[1..]);
      assert s == [s[0]] + s[1..];
      FromTailOrNew(e, s, t);
      ConsAscending(s[0], t);
      [s[0]] + t
  }

  lemma ConsAscending<V>(x: (string, V), t: seq<(string, V)>)
    requires StrictlyAscending(t)
    requires forall k :: 0 <= k < |t| ==> StrLess(x.0, t[k].0)
    ensures StrictlyAscending([x] + t)
  {
    var r := [x] + t;
    forall i, j | 0 <= i < j < |r|
      ensures StrLess(r[i].0, r[j].0)
    {
      assert r[j] == t[j - 1];
      if i > 0 {
        assert r[i] == t[i - 1];
      }
    }
  }

  /** Sorted by key. The keys of an object are distinct, so the order is
      strict and fully determined by the keys. */
  function SortByKey<V(==)>(s: seq<(string, V)>): (r: seq<(string, V)>)
    requires DistinctKeys(s)
    ensures |r| == |s|
    ensures StrictlyAscending(r)
    ensures multiset(r) == multiset(s)
  {
    if s == [] then []
    else
      assert s == [s[0]] + s[1..];
      var t := SortByKey(s[1..]);
      forall i | 0 <= i < |t|
        ensures t[i].0 != s[0].0
      {
        assert t[i] in multiset(s[1..]);
      }
      InsertByKey(s[0], t)
  }

  /** Two strictly increasing lists of strings with the same members are
      the same list. */
  lemma {:induction false} AscendingUnique(a: seq<string>, b: seq<string>)
    requires forall i, j :: 0 <= i < j < |a| ==> StrLess(a[i], a[j])
    requires forall i, j :: 0 <= i < j < |b| ==> StrLess(b[i], b[j])
    requires forall m :: m in a <==> m in b
    ensures a == b
  {
    if a != [] && b != [] {
      assert a[0] in b && b[0] in a;
      if a[0] != b[0] {
        var i :| 0 <= i < |a| && a[i] == b[0];
        var j :| 0 <= j < |b| && b[j] == a[0];
        StrLessAsymmetric(a[0], a[i]);
        assert false;
      }
      forall m
        ensures m in a[1..] <==> m in b[1..]
      {
        if m in a[1..] {
          var i :| 1 <= i < |a| && a[i] == m;
          StrLessIrreflexive(m);
          assert m in b;
          var j :| 0 <= j < |b| && b[j] == m;
          assert b[1..][j - 1] == m;
        }
        if m in b[1..] {
          var j :| 1 <= j < |b| && b[j] == m;
          StrLessIrreflexive(m);
          assert m in a;
          var i :| 0 <= i < |a| && a[i] == m;
          assert a[1..][i - 1] == m;
        }
      }
      AscendingUnique(a[1..], b[1..]);
      assert a == [a[0]] + a[1..] && b == [b[0]] + b[1..];
    } else {
      HeadIsMember(a);
      HeadIsMember(b);
    }
  }

  lemma HeadIsMember(s: seq<string>)
    ensures s != [] ==> s[0] in s
  {
  }
}
