/** Sums over finite sets of keys, and over sequences that enumerate them. */
module Sums {
  /** The sum of the values of a map; the order does not matter, as SumRemove shows. */
  ghost function SumMap<K>(m: map<K, int>): int
    decreases |m|
  {
    if m == map[] then 0
    else
      var k :| k in m;
      m[k] + SumMap(m - {k})
  }

  lemma {:induction false} SumRemove<K>(m: map<K, int>, k: K)
    requires k in m
    ensures SumMap(m) == m[k] + SumMap(m - {k})
    decreases |m|
  {
    var j :| j in m && SumMap(m) == m[j] + SumMap(m - {j});
    if j != k {
      SumRemove(m - {j}, k);
      SumRemove(m - {k}, j);
      assert m - {j} - {k} == m - {k} - {j};
    }
  }

  lemma SumInsert<K>(m: map<K, int>, k: K, v: int)
    requires k !in m
    ensures SumMap(m[k := v]) == v + SumMap(m)
  {
    SumRemove(m[k := v], k);
    assert m[k := v] - {k} == m;
  }

  lemma SplitUnion<K>(m: map<K, int>, n: map<K, int>, k: K)
    requires k in n && m.Keys !! n.Keys
    ensures m + n == (m + (n - {k}))[k := n[k]]
  {
    var split := (m + (n - {k}))[k := n[k]];
    assert (m + n).Keys == split.Keys;
    assert forall x | x in m + n :: (m + n)[x] == split[x];
  }

  lemma {:induction false} SumUnion<K>(m: map<K, int>, n: map<K, int>)
    requires m.Keys !! n.Keys
    ensures SumMap(m + n) == SumMap(m) + SumMap(n)
    decreases |n|
  {
    if n == map[] {
      assert m + n == m;
    } else {
      var k :| k in n;
      var rest := n - {k};
      SumRemove(n, k);
      SumUnion(m, rest);
      SplitUnion(m, n, k);
      SumInsert(m + rest, k, n[k]);
    }
  }

  function Sum(xs: seq<int>): int {
    if xs == [] then 0 else Sum(xs[..|xs| - 1]) + xs[|xs| - 1]
  }

  predicate Distinct<T(==)>(xs: seq<T>) {
    forall i, j | 0 <= i < j < |xs| :: xs[i] != xs[j]
  }

  function Values<K>(m: map<K, int>, keys: seq<K>): seq<int>
    requires forall k | k in keys :: k in m
  {
    seq(|keys|, i requires 0 <= i < |keys| => m[keys[i]])
  }

  /** keys lists every key of the map. */
  predicate Covers<K(==)>(m: map<K, int>, keys: seq<K>) {
    (forall k | k in keys :: k in m) && (forall k | k in m :: k in keys)
  }

  /** Listing every key once and adding the values up gives the sum of the map. */
  lemma {:induction false} SumEnumerates<K>(m: map<K, int>, keys: seq<K>)
    requires Distinct(keys) && Covers(m, keys)
    ensures Sum(Values(m, keys)) == SumMap(m)
    decreases |keys|
  {
    if keys == [] {
      assert m == map[];
    } else {
      var rest, k := keys[..|keys| - 1], keys[|keys| - 1];
      SumRemove(m, k);
      DropLast(m, keys);
      SumEnumerates(m - {k}, rest);
    }
  }

  lemma DropLast<K>(m: map<K, int>, keys: seq<K>)
    requires Distinct(keys) && Covers(m, keys) && keys != []
    ensures
      var rest, k := keys[..|keys| - 1], keys[|keys| - 1];
      && Distinct(rest) && Covers(m - {k}, rest)
      && Values(m, keys)[..|keys| - 1] == Values(m - {k}, rest)
  {
    var rest, k := keys[..|keys| - 1], keys[|keys| - 1];
    assert k in keys;
    forall x | x in rest
      ensures x in keys && x != k
    {
    }
    forall x | x in m && x != k
      ensures x in rest
    {
      var i :| 0 <= i < |keys| && keys[i] == x;
      assert rest[i] == x;
    }
  }

  /** The union of the first sets of a sequence. */
  function Union<T>(sets: seq<set<T>>): set<T> {
    if sets == [] then {} else Union(sets[..|sets| - 1]) + sets[|sets| - 1]
  }

  function Sizes<T>(sets: seq<set<T>>): seq<int> {
    seq(|sets|, i requires 0 <= i < |sets| => |sets[i]|)
  }

  lemma {:induction false} UnionMember<T>(sets: seq<set<T>>, x: T)
    ensures x in Union(sets) <==> exists i :: 0 <= i < |sets| && x in sets[i]
  {
    if sets != [] {
      var rest := sets[..|sets| - 1];
      UnionMember(rest, x);
      if x in Union(rest) {
        var i :| 0 <= i < |rest| && x in rest[i];
        assert sets[i] == rest[i];
      }
      if i :| 0 <= i < |sets| && x in sets[i] {
        if i < |rest| {
          assert rest[i] == sets[i];
        }
      }
    }
  }

  lemma {:induction false} DisjointUnionSize<T>(sets: seq<set<T>>)
    requires forall i, j | 0 <= i < j < |sets| :: sets[i] !! sets[j]
    ensures |Union(sets)| == Sum(Sizes(sets))
  {
    if sets != [] {
      var rest, last := sets[..|sets| - 1], sets[|sets| - 1];
      DisjointUnionSize(rest);
      assert Sizes(sets)[..|sets| - 1] == Sizes(rest);
      assert Union(rest) !! last by {
        forall x | x in Union(rest)
          ensures x !in last
        {
          UnionMember(rest, x);
        }
      }
    }
  }
}
