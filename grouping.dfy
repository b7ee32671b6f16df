/** Grouping into a string-keyed record, as the pages do with
    `acc[key] = (acc[key] || 0) + value`: the keys in the order they are
    first met (the order `Object.entries` lists them in) and the sum per key. */
module Grouping {
  import opened Seqs
  import opened Sorting

  /** The distinct keys of `s`, in order of first occurrence. */
  function FirstKeys<T>(s: seq<T>, key: T -> string): (r: seq<string>)
    ensures Distinct(r)
    ensures forall k :: k in r <==> exists i :: 0 <= i < |s| && key(s[i]) == k
  {
    if s == [] then []
    else
      var init, last := s[..|s| - 1], s[|s| - 1];
      var r0 := FirstKeys(init, key);
      assert forall i :: 0 <= i < |init| ==> s[i] == init[i];
      if key(last) in r0 then r0 else r0 + [key(last)]
  }

  lemma FirstKeysSnoc<T>(s: seq<T>, x: T, key: T -> string)
    ensures FirstKeys(s + [x], key) ==
      if key(x) in FirstKeys(s, key) then FirstKeys(s, key) else FirstKeys(s, key) + [key(x)]
  {
    assert (s + [x])[..|s|] == s;
  }

  /** A key that is not listed is carried by no element. */
  lemma NotAKey<T>(s: seq<T>, key: T -> string, k: string)
    requires k !in FirstKeys(s, key)
    ensures forall x :: x in s ==> key(x) != k
  {
    forall x | x in s
      ensures key(x) != k
    {
      var i :| 0 <= i < |s| && s[i] == x;
    }
  }

  /** Sums `f` per key over `s`: the record's keys in insertion order and
      its values. */
  method GroupSums<T>(s: seq<T>, key: T -> string, f: T -> real)
    returns (keys: seq<string>, sums: map<string, real>)
    ensures keys == FirstKeys(s, key) && sums == KeySums(s, key, f)
    ensures Grouped(s, key, f, keys, sums)
  {
    keys, sums := [], map[];
    var i := 0;
    while i < |s|
      invariant 0 <= i <= |s|
      invariant keys == FirstKeys(s[..i], key) && sums == KeySums(s[..i], key, f)
    {
      var x := s[i];
      var k := key(x);
      KeysOfSums(s[..i], key, f, k);
      assert s[..i + 1][..i] == s[..i];
      // a key met for the first time joins the record's key order
      keys := if k in sums then keys else keys + [k];
      sums := sums[k := (if k in sums then sums[k] else 0.0) + f(x)];
      i := i + 1;
    }
    assert s[..|s|] == s;
    KeySumsGrouped(s, key, f);
  }

  /** The record `acc[key] = (acc[key] || 0) + value` builds over `s`. */
  function KeySums<T>(s: seq<T>, key: T -> string, f: T -> real): map<string, real>
  {
    if s == [] then map[]
    else
      var m := KeySums(s[..|s| - 1], key, f);
      var k := key(s[|s| - 1]);
      m[k := (if k in m then m[k] else 0.0) + f(s[|s| - 1])]
  }

  /** The record holds a key exactly when the key order lists it. */
  lemma KeysOfSums<T>(s: seq<T>, key: T -> string, f: T -> real, k: string)
    ensures k in KeySums(s, key, f) <==> k in FirstKeys(s, key)
  {
    KeySumsGrouped(s, key, f);
  }

  /** The record and its key order are the grouping of `s`. */
  lemma {:induction false} KeySumsGrouped<T>(s: seq<T>, key: T -> string, f: T -> real)
    ensures Grouped(s, key, f, FirstKeys(s, key), KeySums(s, key, f))
  {
    if s != [] {
      var init, last := s[..|s| - 1], s[|s| - 1];
      KeySumsGrouped(init, key, f);
      assert s == init + [last];
      GroupStep(init, last, s, key, f, FirstKeys(init, key), KeySums(init, key, f),
                FirstKeys(s, key), KeySums(s, key, f));
    }
  }

  /** `keys` and `sums` are the grouping of `s`: the keys met, in order of
      first occurrence, each mapped to the sum of `f` over its elements. */
  ghost predicate Grouped<T>(s: seq<T>, key: T -> string, f: T -> real, keys: seq<string>, sums: map<string, real>)
  {
    && keys == FirstKeys(s, key)
    && (forall k :: k in sums <==> k in keys)
    && (forall k :: k in sums ==> sums[k] == SumWhere(s, key, k, f))
  }

  /** One step of the grouping loop: `seen'` is `seen` with `x` appended,
      and `keys'`, `sums'` are the record after adding `x`. */
  lemma {:induction false} GroupStep<T>(seen: seq<T>, x: T, seen': seq<T>, key: T -> string, f: T -> real,
                                        keys: seq<string>, sums: map<string, real>,
                                        keys': seq<string>, sums': map<string, real>)
    requires Grouped(seen, key, f, keys, sums)
    requires seen' == seen + [x]
    requires keys' == if key(x) in sums then keys else keys + [key(x)]
    requires sums' == sums[key(x) := (if key(x) in sums then sums[key(x)] else 0.0) + f(x)]
    ensures Grouped(seen', key, f, keys', sums')
  {
    var k := key(x);
    assert keys' == FirstKeys(seen', key) by {
      FirstKeysSnoc(seen, x, key);
    }
    assert forall k' :: k' in sums' <==> k' in keys';
    forall k' | k' in sums'
      ensures sums'[k'] == SumWhere(seen', key, k', f)
    {
      SumWhereSnoc(seen, x, key, k', f);
      if k' == k && k !in sums {
        NotAKey(seen, key, k);
        SumWhereAbsent(seen, key, k, f);
      }
    }
  }

  /** `Object.entries` of a grouped record. */
  function Entries(keys: seq<string>, sums: map<string, real>): (r: seq<Entry>)
    requires forall k :: k in keys ==> k in sums
    ensures |r| == |keys|
    ensures forall i :: 0 <= i < |r| ==> r[i] == (keys[i], sums[keys[i]])
  {
    seq(|keys|, i requires 0 <= i < |keys| => (keys[i], sums[keys[i]]))
  }

  /** The entries of a grouping have distinct keys. */
  lemma EntriesDistinct(keys: seq<string>, sums: map<string, real>)
    requires Distinct(keys)
    requires forall k :: k in keys ==> k in sums
    ensures DistinctKeys(Entries(keys, sums))
  {
  }

  /** Grouping loses nothing: the group sums add up to the plain sum. */
  lemma {:induction false} GroupTotal<T>(s: seq<T>, key: T -> string, f: T -> real, keys: seq<string>, sums: map<string, real>)
    requires Grouped(s, key, f, keys, sums)
    ensures Sum(Entries(keys, sums), EntryValue) == Sum(s, f)
  {
    forall x | x in s
      ensures key(x) in keys
    {
      var i :| 0 <= i < |s| && s[i] == x;
    }
    SumOverKeysTotal(s, key, f, keys);
    EntriesSumOverKeys(s, key, f, keys, sums);
  }

  lemma {:induction false} EntriesSumOverKeys<T>(s: seq<T>, key: T -> string, f: T -> real, keys: seq<string>, sums: map<string, real>)
    requires forall k :: k in keys ==> k in sums && sums[k] == SumWhere(s, key, k, f)
    ensures Sum(Entries(keys, sums), EntryValue) == SumOverKeys(s, key, f, keys)
  {
    if keys != [] {
      var init := keys[..|keys| - 1];
      EntriesSumOverKeys(s, key, f, init, sums);
      assert Entries(keys, sums)[..|keys| - 1] == Entries(init, sums);
    }
  }
}
