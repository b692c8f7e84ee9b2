/**
 * A JavaScript `Map`: a finite map that also remembers the order in which its keys were
 * first inserted. `set` on a key already present replaces the value and keeps the key's
 * position; `values()` enumerates in key order.
 */
module JsMap {
  import opened Wrappers

  /** `keys` lists the map's keys in insertion order; `entries` holds the values. */
  datatype OrderedMap<K(==), V> = OrderedMap(keys: seq<K>, entries: map<K, V>) {
    /** What every map the program builds satisfies: each key is listed once, and the listed keys are the domain. */
    ghost predicate Valid() {
      (forall i, j :: 0 <= i < j < |keys| ==> keys[i] != keys[j])
      && entries.Keys == (set k | k in keys)
    }
  }

  function Empty<K(==), V>(): (r: OrderedMap<K, V>)
    ensures r.entries == map[] && r.keys == [] && r.Valid()
  {
    OrderedMap([], map[])
  }

  /** `m.set(k, v)`. */
  function Set<K(==), V>(m: OrderedMap<K, V>, k: K, v: V): (r: OrderedMap<K, V>)
    ensures r.entries == m.entries[k := v]
    ensures r.keys == if k in m.entries then m.keys else m.keys + [k]
  {
    if k in m.entries then OrderedMap(m.keys, m.entries[k := v])
    else OrderedMap(m.keys + [k], m.entries[k := v])
  }

  /** `set` keeps a map well formed. */
  lemma SetValid<K, V>(m: OrderedMap<K, V>, k: K, v: V)
    requires m.Valid()
    ensures Set(m, k, v).Valid()
  {
    if k !in m.entries {
      var keys := m.keys + [k];
      assert forall i :: 0 <= i < |m.keys| ==> keys[i] == m.keys[i];
      assert forall x :: x in keys <==> x in m.keys || x == k;
    }
  }

  /** `m.get(k)`, `undefined` being None. */
  function Get<K(==), V>(m: OrderedMap<K, V>, k: K): (r: Option<V>)
    ensures r.Some? <==> k in m.entries
    ensures r.Some? ==> r.value == m.entries[k]
  {
    if k in m.entries then Some(m.entries[k]) else None
  }

  /** `[...m.values()]`. */
  function Values<K(==), V>(m: OrderedMap<K, V>): (r: seq<V>)
    requires m.Valid()
    ensures |r| == |m.keys|
    ensures forall i :: 0 <= i < |m.keys| ==> m.keys[i] in m.entries && r[i] == m.entries[m.keys[i]]
  {
    seq(|m.keys|, i requires 0 <= i < |m.keys| => m.entries[m.keys[i]])
  }

  /** `new Map(pairs)`: the pairs are set one after the other, so a later pair wins. */
  function FromPairs<K(==), V>(pairs: seq<(K, V)>): (r: OrderedMap<K, V>)
    decreases |pairs|
  {
    if pairs == [] then Empty()
    else
      var last := pairs[|pairs| - 1];
      Set(FromPairs(pairs[..|pairs| - 1]), last.0, last.1)
  }

  lemma {:induction false} FromPairsValid<K, V>(pairs: seq<(K, V)>)
    ensures FromPairs(pairs).Valid()
    decreases |pairs|
  {
    if pairs != [] {
      var last := pairs[|pairs| - 1];
      FromPairsValid(pairs[..|pairs| - 1]);
      SetValid(FromPairs(pairs[..|pairs| - 1]), last.0, last.1);
    }
  }

  /** Setting one more pair of a list extends the map built from the pairs before it. */
  lemma FromPairsPrefixStep<K, V>(pairs: seq<(K, V)>, n: nat)
    requires n < |pairs|
    ensures FromPairs(pairs[..n + 1]) == Set(FromPairs(pairs[..n]), pairs[n].0, pairs[n].1)
  {
    assert pairs[..n + 1][..n] == pairs[..n];
  }

  /** A key is in `new Map(pairs)` iff some pair carries it, and its value is that of the last such pair. */
  lemma {:induction false} FromPairsLastWins<K, V>(pairs: seq<(K, V)>, k: K, i: nat)
    requires i < |pairs| && pairs[i].0 == k
    requires forall j :: i < j < |pairs| ==> pairs[j].0 != k
    ensures k in FromPairs(pairs).entries && FromPairs(pairs).entries[k] == pairs[i].1
    decreases |pairs|
  {
    var n := |pairs| - 1;
    var front := pairs[..n];
    assert FromPairs(pairs) == Set(FromPairs(front), pairs[n].0, pairs[n].1);
    if i < n {
      assert front[i] == pairs[i];
      assert forall j :: i < j < n ==> front[j] == pairs[j];
      FromPairsLastWins(front, k, i);
    }
  }

  lemma {:induction false} FromPairsKeys<K, V>(pairs: seq<(K, V)>, k: K)
    ensures k in FromPairs(pairs).entries <==> exists i :: 0 <= i < |pairs| && pairs[i].0 == k
    decreases |pairs|
  {
    if pairs != [] {
      var n := |pairs| - 1;
      FromPairsKeys(pairs[..n], k);
      if k in FromPairs(pairs[..n]).entries {
        var i :| 0 <= i < n && pairs[..n][i].0 == k;
        assert pairs[i].0 == k;
      }
      if exists i :: 0 <= i < |pairs| && pairs[i].0 == k {
        var i :| 0 <= i < |pairs| && pairs[i].0 == k;
        if i < n {
          assert pairs[..n][i].0 == k;
        }
      }
    }
  }

  /** The key of every pair is in the map. */
  lemma FromPairsHasIndex<K, V>(pairs: seq<(K, V)>, i: nat)
    requires i < |pairs|
    ensures pairs[i].0 in FromPairs(pairs).entries
  {
    FromPairsKeys(pairs, pairs[i].0);
  }

  /** Every key of the map comes from some pair. */
  lemma FromPairsKeyIndex<K, V>(pairs: seq<(K, V)>, k: K) returns (i: nat)
    requires k in FromPairs(pairs).entries
    ensures i < |pairs| && pairs[i].0 == k
  {
    FromPairsKeys(pairs, k);
    i :| 0 <= i < |pairs| && pairs[i].0 == k;
  }

  /** Sets every entry of `m`, in `m`'s own key order, into `acc` (the inner loop of a merge). */
  function SetAll<K(==), V>(acc: OrderedMap<K, V>, m: OrderedMap<K, V>): (r: OrderedMap<K, V>)
  {
    SetPrefix(acc, m, |m.keys|)
  }

  /** The first `n` keys of `m` set into `acc`; a listed key `m` has no entry for (a well-formed map has none) is skipped. */
  function SetPrefix<K(==), V>(acc: OrderedMap<K, V>, m: OrderedMap<K, V>, n: nat): (r: OrderedMap<K, V>)
    requires n <= |m.keys|
  {
    if n == 0 then acc
    else
      var prev := SetPrefix(acc, m, n - 1);
      var k := m.keys[n - 1];
      if k in m.entries then Set(prev, k, m.entries[k]) else prev
  }

  /**
   * After the first `n` keys of `m` are set into `acc`, key `k` holds `m`'s value if it is
   * among them (and `m` has it), else `acc`'s.
   */
  lemma {:induction false} SetPrefixAt<K, V>(acc: OrderedMap<K, V>, m: OrderedMap<K, V>, n: nat, k: K)
    requires n <= |m.keys|
    ensures k in SetPrefix(acc, m, n).entries <==> k in acc.entries || (k in m.keys[..n] && k in m.entries)
    ensures k in SetPrefix(acc, m, n).entries ==>
      SetPrefix(acc, m, n).entries[k] == if k in m.keys[..n] && k in m.entries then m.entries[k] else acc.entries[k]
  {
    if n > 0 {
      SetPrefixAt(acc, m, n - 1, k);
      PrefixSnoc(m.keys, n - 1, k);
    }
  }

  /** `SetPrefix` unfolded once: the n-th key of `m` is set last. */
  lemma SetPrefixUnfold<K, V>(acc: OrderedMap<K, V>, m: OrderedMap<K, V>, n: nat)
    requires 0 < n <= |m.keys| && m.keys[n - 1] in m.entries
    ensures SetPrefix(acc, m, n) == Set(SetPrefix(acc, m, n - 1), m.keys[n - 1], m.entries[m.keys[n - 1]])
  {
  }

  /** A well-formed map lists only keys it has. */
  lemma ListedKey<K, V>(m: OrderedMap<K, V>, i: nat)
    requires m.Valid() && i < |m.keys|
    ensures m.keys[i] in m.entries
  {
  }

  /** Membership in a prefix one element longer. */
  lemma PrefixSnoc<T>(s: seq<T>, n: nat, x: T)
    requires n < |s|
    ensures x in s[..n + 1] <==> x in s[..n] || x == s[n]
  {
    assert s[..n + 1] == s[..n] + [s[n]];
  }

  /** Setting entries into a well-formed map keeps it well formed. */
  lemma {:induction false} SetPrefixValid<K, V>(acc: OrderedMap<K, V>, m: OrderedMap<K, V>, n: nat)
    requires acc.Valid() && m.Valid() && n <= |m.keys|
    ensures SetPrefix(acc, m, n).Valid()
  {
    if n > 0 {
      SetPrefixValid(acc, m, n - 1);
      ListedKey(m, n - 1);
      SetPrefixUnfold(acc, m, n);
      SetValid(SetPrefix(acc, m, n - 1), m.keys[n - 1], m.entries[m.keys[n - 1]]);
    }
  }

  /** After all of `m` is set into `acc`, key `k` holds `m`'s value if `m` has it, else `acc`'s. */
  lemma SetAllAt<K, V>(acc: OrderedMap<K, V>, m: OrderedMap<K, V>, k: K)
    requires m.Valid()
    ensures k in SetAll(acc, m).entries <==> k in acc.entries || k in m.entries
    ensures k in SetAll(acc, m).entries ==>
      SetAll(acc, m).entries[k] == if k in m.entries then m.entries[k] else acc.entries[k]
  {
    SetPrefixAt(acc, m, |m.keys|, k);
    assert m.keys[..|m.keys|] == m.keys;
    assert k in m.entries <==> k in m.keys;
  }

  /** Setting all of `m` into `acc` is the right-biased union: `m`'s values win. */
  lemma SetAllEntries<K, V>(acc: OrderedMap<K, V>, m: OrderedMap<K, V>)
    requires m.Valid()
    ensures SetAll(acc, m).entries == acc.entries + m.entries
  {
    var r := SetAll(acc, m);
    var u := acc.entries + m.entries;
    forall k ensures (k in r.entries <==> k in u) && (k in r.entries ==> r.entries[k] == u[k]) {
      SetAllAt(acc, m, k);
    }
    MapExtensionality(r.entries, u);
  }

  /** Setting every entry of `m` into an empty map rebuilds `m`, key order included. */
  lemma SetAllIntoEmpty<K, V>(m: OrderedMap<K, V>)
    requires m.Valid()
    ensures SetAll(Empty(), m) == m
  {
    FirstListings(m);
    SetPrefixIntoEmptyKeys(m, |m.keys|);
    SetAllEntries(Empty(), m);
    assert m.keys[..|m.keys|] == m.keys;
    assert map[] + m.entries == m.entries;
  }

  /** Setting keys that each come for the first time into an empty map lists them in that order. */
  lemma {:induction false} SetPrefixIntoEmptyKeys<K, V>(m: OrderedMap<K, V>, n: nat)
    requires n <= |m.keys|
    requires forall i :: 0 <= i < n ==> NewKeyAt(m, i)
    ensures SetPrefix(Empty(), m, n).keys == m.keys[..n]
  {
    if n > 0 {
      var k := m.keys[n - 1];
      SetPrefixIntoEmptyKeys(m, n - 1);
      assert NewKeyAt(m, n - 1);
      SetPrefixAt(Empty(), m, n - 1, k);
      SetPrefixUnfold(Empty(), m, n);
      assert m.keys[..n] == m.keys[..n - 1] + [k];
    }
  }

  /** The i-th listed key is one the map has, listed there for the first time. */
  ghost predicate NewKeyAt<K, V>(m: OrderedMap<K, V>, i: nat)
    requires i < |m.keys|
  {
    m.keys[i] in m.entries && m.keys[i] !in m.keys[..i]
  }

  /** In a well-formed map every listed key is new where it is listed. */
  lemma FirstListings<K, V>(m: OrderedMap<K, V>)
    requires m.Valid()
    ensures forall i :: 0 <= i < |m.keys| ==> NewKeyAt(m, i)
  {
    forall i | 0 <= i < |m.keys| ensures NewKeyAt(m, i) {
      FirstListing(m, i);
    }
  }

  lemma FirstListing<K, V>(m: OrderedMap<K, V>, i: nat)
    requires m.Valid() && i < |m.keys|
    ensures NewKeyAt(m, i)
  {
    forall j | 0 <= j < i ensures m.keys[..i][j] != m.keys[i] {
      assert m.keys[..i][j] == m.keys[j];
    }
  }

  /** Setting every entry of `m` into `m` itself changes nothing. */
  lemma {:induction false} SetPrefixSelf<K, V>(m: OrderedMap<K, V>, n: nat)
    requires n <= |m.keys|
    ensures SetPrefix(m, m, n) == m
  {
    if n > 0 {
      SetPrefixSelf(m, n - 1);
      var k := m.keys[n - 1];
      if k in m.entries {
        SetPrefixUnfold(m, m, n);
        assert m.entries[k := m.entries[k]] == m.entries;
      }
    }
  }

  lemma MapExtensionality<K, V>(a: map<K, V>, b: map<K, V>)
    requires forall k :: (k in a <==> k in b) && (k in a ==> a[k] == b[k])
    ensures a == b
  {
  }
}
