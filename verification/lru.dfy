/** Option, standing in for Go's nil pointers and `ok` flags. */
module Wrappers {
  datatype Option<+T> = None | Some(value: T)
}

/**
 * The bounded least-recently-used map the pod tracker keeps its records in.
 *
 * Its state is the list of entries in recency order: index 0 holds the least
 * recently used entry, the last index the most recently used one. `Get` on a
 * hit and `Add` move an entry to the end; `Add` of a new key into a full cache
 * drops the entry at index 0.
 */
module Lru {
  import opened Wrappers

  /** No key occurs in two entries. */
  ghost predicate DistinctKeys<K, V>(s: seq<(K, V)>) {
    forall i, j :: 0 <= i < j < |s| ==> s[i].0 != s[j].0
  }

  /** The invariant of a cache of the given capacity. */
  ghost predicate WellFormed<K, V>(s: seq<(K, V)>, capacity: nat) {
    |s| <= capacity && DistinctKeys(s)
  }

  /** The value stored under `k`, if any (a look-up that does not count as a use). */
  function Find<K(==,!new), V>(s: seq<(K, V)>, k: K): (r: Option<V>)
    ensures r.Some? ==> (k, r.value) in s
    ensures r.None? <==> forall i :: 0 <= i < |s| ==> s[i].0 != k
  {
    if s == [] then None
    else if s[0].0 == k then Some(s[0].1)
    else
      var r := Find(s[1..], k);
      assert forall i :: 1 <= i < |s| ==> s[i] == s[1..][i - 1];
      r
  }

  /** `s` with the entry for `k` taken out; the other entries keep their order. */
  function Without<K(==,!new), V>(s: seq<(K, V)>, k: K): (r: seq<(K, V)>)
    ensures |r| <= |s|
    ensures Find(r, k) == None
    ensures forall j :: j != k ==> Find(r, j) == Find(s, j)
    ensures Find(s, k) == None ==> r == s
  {
    if s == [] then []
    else if s[0].0 == k then Without(s[1..], k)
    else
      var rest := Without(s[1..], k);
      assert ([s[0]] + rest)[1..] == rest;
      [s[0]] + rest
  }

  /** The entries after `Add(k, v)`: `k` becomes the most recently used entry,
      holding `v`; if that makes the list longer than the capacity, the least
      recently used entry is dropped. */
  function Put<K(==,!new), V>(s: seq<(K, V)>, k: K, v: V, capacity: nat): (r: seq<(K, V)>)
    ensures |s| <= capacity ==> |r| <= capacity
    ensures 0 < capacity ==> r != [] && r[|r| - 1] == (k, v)
  {
    var w := Without(s, k);
    var t := w + [(k, v)];
    if |t| > capacity then
      t[1..]
    else t
  }

  /** The entries after a `Get(k)`: on a hit, `k` becomes the most recently used entry. */
  function Touch<K(==,!new), V>(s: seq<(K, V)>, k: K): (r: seq<(K, V)>)
    ensures |r| <= |s|
    ensures Find(s, k).None? ==> r == s
    ensures Find(s, k).Some? ==> r != [] && r[|r| - 1] == (k, Find(s, k).value)
  {
    match Find(s, k)
    case Some(v) => WithoutShrinks(s, k); Without(s, k) + [(k, v)]
    case None => s
  }

  /** The entries after `ContainsOrAdd(k, v)`: an existing entry is left alone. */
  function PutIfAbsent<K(==,!new), V>(s: seq<(K, V)>, k: K, v: V, capacity: nat): (r: seq<(K, V)>)
    ensures Find(s, k).Some? ==> r == s
    ensures |s| <= capacity ==> |r| <= capacity
    ensures 0 < capacity && Find(s, k).None? ==> r != [] && r[|r| - 1] == (k, v)
  {
    if Find(s, k).Some? then s else Put(s, k, v, capacity)
  }

  /** Removing a present key shortens the list, whether or not keys are distinct. */
  lemma {:induction false} WithoutShrinks<K(!new), V>(s: seq<(K, V)>, k: K)
    requires Find(s, k).Some?
    ensures |Without(s, k)| < |s|
  {
    if s[0].0 != k {
      WithoutShrinks(s[1..], k);
    }
  }

  /** With distinct keys, `Find` returns the value of the one entry for the key. */
  lemma FindEntry<K(!new), V>(s: seq<(K, V)>, i: nat)
    requires DistinctKeys(s) && i < |s|
    ensures Find(s, s[i].0) == Some(s[i].1)
  {
    var r := Find(s, s[i].0);
    var j :| 0 <= j < |s| && s[j] == (s[i].0, r.value);
    assert i == j;
  }

  /** Removing a key keeps the other keys distinct. */
  lemma {:induction false} WithoutKeepsDistinct<K(!new), V>(s: seq<(K, V)>, k: K)
    requires DistinctKeys(s)
    ensures DistinctKeys(Without(s, k))
  {
    if s != [] {
      WithoutKeepsDistinct(s[1..], k);
      if s[0].0 != k {
        var rest := Without(s[1..], k);
        assert Find(s[1..], s[0].0) == None by {
          assert forall i :: 0 <= i < |s| - 1 ==> s[1..][i] == s[i + 1];
        }
        assert Find(rest, s[0].0) == None;
        assert forall i :: 0 <= i < |rest| ==> rest[i].0 != s[0].0;
        assert Without(s, k) == [s[0]] + rest;
      }
    }
  }

  /** Removing a present key shortens the list by exactly one entry. */
  lemma {:induction false} WithoutPresentLength<K(!new), V>(s: seq<(K, V)>, k: K)
    requires DistinctKeys(s) && Find(s, k).Some?
    ensures |Without(s, k)| == |s| - 1
  {
    if s[0].0 == k {
      assert Find(s[1..], k) == None by {
        assert forall i :: 0 <= i < |s| - 1 ==> s[1..][i] == s[i + 1];
      }
    } else {
      WithoutPresentLength(s[1..], k);
    }
  }

  /** With distinct keys, removing the key at index `i` takes out exactly that
      entry and keeps the others in their recency order. */
  lemma {:induction false} WithoutAt<K(!new), V>(s: seq<(K, V)>, i: nat)
    requires DistinctKeys(s) && i < |s|
    ensures Without(s, s[i].0) == s[..i] + s[i + 1..]
  {
    var k := s[i].0;
    var tail := s[1..];
    assert forall j :: 0 <= j < |tail| ==> tail[j] == s[j + 1];
    if i == 0 {
      assert Find(tail, k) == None;
      assert Without(s, k) == Without(tail, k) == tail;
      assert s[..0] + s[1..] == tail;
    } else {
      assert s[0].0 != k;
      assert DistinctKeys(tail);
      assert tail[i - 1] == s[i];
      WithoutAt(tail, i - 1);
      assert Without(s, k) == [s[0]] + (tail[..i - 1] + tail[i..]);
      assert s[..i] == [s[0]] + tail[..i - 1];
      assert s[i + 1..] == tail[i..];
    }
  }

  /** Appending an entry for `k` changes the look-up of `k` only, and only if `k` was absent. */
  lemma {:induction false} FindAppend<K(!new), V>(s: seq<(K, V)>, k: K, v: V, j: K)
    ensures Find(s + [(k, v)], j) ==
            if Find(s, j).Some? then Find(s, j) else if j == k then Some(v) else None
  {
    if s != [] {
      assert (s + [(k, v)])[1..] == s[1..] + [(k, v)];
      FindAppend(s[1..], k, v, j);
    } else {
      assert [(k, v)][1..] == [];
    }
  }

  /** Moving `k` to the most recently used position: what the look-up of every
      key gives, and the invariant, are unchanged. */
  lemma MoveToBack<K(!new), V>(s: seq<(K, V)>, k: K, v: V, capacity: nat)
    requires WellFormed(s, capacity) && Find(s, k) == Some(v)
    ensures var r := Without(s, k) + [(k, v)];
      && WellFormed(r, capacity) && |r| == |s|
      && forall j :: Find(r, j) == Find(s, j)
  {
    var w := Without(s, k);
    WithoutPresentLength(s, k);
    WithoutKeepsDistinct(s, k);
    forall j ensures Find(w + [(k, v)], j) == Find(s, j) {
      FindAppend(w, k, v, j);
    }
  }

  /** `Get` on a hit or a miss: every look-up gives what it gave before and the
      invariant holds. A miss leaves the list as it was; a hit on the entry at
      index `i` moves that entry to the most recently used position and keeps
      the others in their order. */
  lemma TouchSpec<K(!new), V>(s: seq<(K, V)>, k: K, capacity: nat)
    requires WellFormed(s, capacity)
    ensures var r := Touch(s, k);
      && WellFormed(r, capacity) && |r| == |s|
      && (forall j :: Find(r, j) == Find(s, j))
      && (Find(s, k).None? ==> r == s)
      && (forall i :: 0 <= i < |s| && s[i].0 == k ==> r == s[..i] + s[i + 1..] + [s[i]])
  {
    if Find(s, k).Some? {
      MoveToBack(s, k, Find(s, k).value, capacity);
      forall i | 0 <= i < |s| && s[i].0 == k
        ensures Touch(s, k) == s[..i] + s[i + 1..] + [s[i]]
      {
        FindEntry(s, i);
        WithoutAt(s, i);
      }
    }
  }

  /** `Add(k, v)` on a well-formed cache keeps it well formed and makes `k`
      map to `v` as the most recently used entry, overwriting any old value;
      every other key keeps its value unless it was the one evicted. */
  lemma PutSpec<K(!new), V>(s: seq<(K, V)>, k: K, v: V, capacity: nat)
    requires 0 < capacity && WellFormed(s, capacity)
    ensures var r := Put(s, k, v, capacity);
      && WellFormed(r, capacity)
      && r[|r| - 1] == (k, v)
      && Find(r, k) == Some(v)
      && (Find(s, k).Some? || |s| < capacity ==> forall j :: j != k ==> Find(r, j) == Find(s, j))
  {
    var w := Without(s, k);
    var t := w + [(k, v)];
    WithoutKeepsDistinct(s, k);
    forall j ensures Find(t, j) == if j == k then Some(v) else Find(s, j) {
      FindAppend(w, k, v, j);
    }
    if Find(s, k).Some? {
      WithoutPresentLength(s, k);
      assert Put(s, k, v, capacity) == t;
    } else if |s| < capacity {
      assert Put(s, k, v, capacity) == t;
    } else {
      assert w == s;
      assert Put(s, k, v, capacity) == s[1..] + [(k, v)];
      DropOldest(s, k, v);
      assert s[0].0 != k;
    }
  }

  /** Dropping the oldest entry of `s + [(k, v)]` forgets its key and nothing else. */
  lemma DropOldest<K(!new), V>(s: seq<(K, V)>, k: K, v: V)
    requires DistinctKeys(s) && s != [] && Find(s, k) == None
    ensures var r := s[1..] + [(k, v)];
      && Find(r, s[0].0) == None
      && forall j :: j != s[0].0 ==> Find(r, j) == Find(s + [(k, v)], j)
  {
    var t := s + [(k, v)];
    assert t[1..] == s[1..] + [(k, v)];
    assert t[0] == s[0];
    assert forall i :: 0 <= i < |s| - 1 ==> s[1..][i] == s[i + 1];
  }

  /** Eviction: `Add` drops an entry only when `k` is new and the cache is
      full, and then it drops exactly the least recently used entry. */
  lemma PutEvictsLeastRecent<K(!new), V>(s: seq<(K, V)>, k: K, v: V, capacity: nat)
    requires 0 < capacity && WellFormed(s, capacity)
    ensures var r := Put(s, k, v, capacity);
      && (|Without(s, k)| + 1 > capacity <==> Find(s, k).None? && |s| == capacity)
      && (Find(s, k).Some? ==> |r| == |s|)
      && (Find(s, k).None? && |s| < capacity ==> r == s + [(k, v)])
      && (Find(s, k).None? && |s| == capacity ==>
            r == s[1..] + [(k, v)] && Find(r, s[0].0) == None
            && forall j :: j != k && j != s[0].0 ==> Find(r, j) == Find(s, j))
  {
    if Find(s, k).Some? {
      WithoutPresentLength(s, k);
    } else if |s| == capacity {
      var r := s[1..] + [(k, v)];
      assert Put(s, k, v, capacity) == r;
      DropOldest(s, k, v);
      forall j | j != k && j != s[0].0 ensures Find(r, j) == Find(s, j) {
        FindAppend(s, k, v, j);
      }
    }
  }

  /** `Add` of a key already present at index `i`: the entry moves to the most
      recently used position with the new value, nothing is evicted, and the
      other entries keep their order. */
  lemma PutOverwriteKeepsOrder<K(!new), V>(s: seq<(K, V)>, k: K, v: V, capacity: nat, i: nat)
    requires WellFormed(s, capacity)
    requires i < |s| && s[i].0 == k
    ensures Put(s, k, v, capacity) == s[..i] + s[i + 1..] + [(k, v)]
  {
    WithoutAt(s, i);
  }

  /** `ContainsOrAdd` never overwrites: a present key leaves the cache as it
      was, value and recency alike; an absent one is added as by `Add`. */
  lemma PutIfAbsentSpec<K(!new), V>(s: seq<(K, V)>, k: K, v: V, capacity: nat)
    requires 0 < capacity && WellFormed(s, capacity)
    ensures var r := PutIfAbsent(s, k, v, capacity);
      && WellFormed(r, capacity)
      && (Find(s, k).Some? ==> r == s && Find(r, k) == Find(s, k))
      && (Find(s, k).None? ==> Find(r, k) == Some(v) && r == Put(s, k, v, capacity))
  {
    if Find(s, k).None? {
      PutSpec(s, k, v, capacity);
    }
  }

  /** `Remove` keeps the invariant, forgets `k`, keeps every other key, and
      changes nothing when `k` is absent. */
  lemma WithoutSpec<K(!new), V>(s: seq<(K, V)>, k: K, capacity: nat)
    requires WellFormed(s, capacity)
    ensures var r := Without(s, k);
      && WellFormed(r, capacity)
      && Find(r, k) == None
      && (forall j :: j != k ==> Find(r, j) == Find(s, j))
      && (Find(s, k).None? ==> r == s)
      && (Find(s, k).Some? ==> |r| == |s| - 1)
      && (forall i :: 0 <= i < |s| && s[i].0 == k ==> r == s[..i] + s[i + 1..])
  {
    forall i | 0 <= i < |s| && s[i].0 == k ensures Without(s, k) == s[..i] + s[i + 1..] {
      WithoutAt(s, i);
    }
    WithoutKeepsDistinct(s, k);
    if Find(s, k).Some? {
      WithoutPresentLength(s, k);
    }
  }

  /**
   * The cache object: a capacity fixed at construction and the entries in
   * recency order.
   */
  class LruCache<K(==,!new), V> {
    const capacity: nat
    var entries: seq<(K, V)>

    ghost predicate Valid()
      reads this
    {
      0 < capacity && WellFormed(entries, capacity)
    }

    /** A cache of `size` entries; a size that is not positive is refused. */
    constructor (size: nat)
      requires 0 < size
      ensures Valid()
      ensures capacity == size && entries == []
    {
      capacity := size;
      entries := [];
    }

    /** The value under `k`; a hit makes `k` the most recently used entry. */
    method Get(k: K) returns (r: Option<V>)
      requires Valid()
      modifies this
      ensures Valid()
      ensures r == Find(old(entries), k)
      ensures entries == Touch(old(entries), k)
    {
      TouchSpec(entries, k, capacity);
      r := Find(entries, k);
      entries := Touch(entries, k);
    }

    /** Stores `v` under `k`, overwriting, and reports whether an entry was evicted. */
    method Add(k: K, v: V) returns (evicted: bool)
      requires Valid()
      modifies this
      ensures Valid()
      ensures entries == Put(old(entries), k, v, capacity)
      ensures evicted <==> Find(old(entries), k).None? && |old(entries)| == capacity
    {
      PutSpec(entries, k, v, capacity);
      PutEvictsLeastRecent(entries, k, v, capacity);
      evicted := |Without(entries, k)| + 1 > capacity;
      entries := Put(entries, k, v, capacity);
    }

    /** Adds `v` under `k` only if `k` is absent; `ok` says it was present. */
    method ContainsOrAdd(k: K, v: V) returns (ok: bool, evicted: bool)
      requires Valid()
      modifies this
      ensures Valid()
      ensures ok <==> Find(old(entries), k).Some?
      ensures entries == PutIfAbsent(old(entries), k, v, capacity)
      ensures evicted <==> !ok && |old(entries)| == capacity
    {
      if Find(entries, k).Some? {
        return true, false;
      }
      ok := false;
      evicted := Add(k, v);
    }

    /** Deletes the entry for `k`, if there is one. */
    method Remove(k: K)
      requires Valid()
      modifies this
      ensures Valid()
      ensures entries == Without(old(entries), k)
    {
      WithoutSpec(entries, k, capacity);
      entries := Without(entries, k);
    }
  }
}
