/** The LRU cache of wechat_agent: an ordered map whose order is recency,
    least recently used first, trimmed to its capacity after each put. */
module Lru {
  import opened Wrappers

  predicate Distinct<K(==)>(s: seq<K>)
  {
    forall i, j :: 0 <= i < j < |s| ==> s[i] != s[j]
  }

  /** `s` without `k`, the others in their order. */
  function Remove<K(==, !new)>(s: seq<K>, k: K): (r: seq<K>)
    ensures forall x :: x in r <==> x in s && x != k
    ensures k !in s ==> r == s
    ensures Distinct(s) ==> Distinct(r) && |r| == (if k in s then |s| - 1 else |s|)
  {
    if s == [] then []
    else if s[0] == k then Remove(s[1..], k)
    else
      var rest := Remove(s[1..], k);
      assert Distinct(s) ==> s[0] !in s[1..];
      [s[0]] + rest
  }

  /** move_to_end, or insertion of a new key: `k` becomes the most recent. */
  function Touch<K(==, !new)>(s: seq<K>, k: K): (r: seq<K>)
    ensures Distinct(s) ==> Distinct(r)
    ensures forall x :: x in r <==> x in s || x == k
    ensures r != [] && r[|r| - 1] == k
  {
    Remove(s, k) + [k]
  }

  /** Removing a key twice, or from the end it was just appended to, is
      removing it once. */
  lemma {:induction false} RemoveAfterAppend<K(!new)>(s: seq<K>, k: K)
    ensures Remove(s + [k], k) == Remove(s, k)
    decreases |s|
  {
    if s == [] {
      assert Remove([k], k) == Remove([k][1..], k);
    } else {
      assert (s + [k])[1..] == s[1..] + [k];
      RemoveAfterAppend(s[1..], k);
    }
  }

  lemma RemoveTwice<K(!new)>(s: seq<K>, k: K)
    ensures Remove(Remove(s, k), k) == Remove(s, k)
  {
  }

  /** Touching a key leaves the relative order of all the other keys as it
      was. */
  lemma TouchKeepsOthersInOrder<K(!new)>(s: seq<K>, k: K)
    ensures Remove(Touch(s, k), k) == Remove(s, k)
  {
    RemoveAfterAppend(Remove(s, k), k);
    RemoveTwice(s, k);
  }

  /** At most `capacity` entries, and none at all when it is not positive. */
  function Bound(capacity: int): nat
  {
    if capacity > 0 then capacity else 0
  }

  /** The recency order and the mapping after put(k, v): `k` becomes the
      most recent with value `v`; if that makes one entry too many, the
      least recent one is dropped. */
  function AfterPut<K(==, !new), V>(keys: seq<K>, values: map<K, V>, capacity: int, k: K, v: V): (seq<K>, map<K, V>)
  {
    var ks := Touch(keys, k);
    var vs := values[k := v];
    if |ks| > capacity then (ks[1..], vs - {ks[0]}) else (ks, vs)
  }

  /** The cache invariant: the order lists each key of the map once, and
      the size stays within the bound. */
  ghost predicate Cache<K(!new), V>(keys: seq<K>, values: map<K, V>, capacity: int)
  {
    Distinct(keys) && (forall x :: x in keys <==> x in values) && |keys| <= Bound(capacity)
  }

  lemma PutKeepsInvariant<K(!new), V>(keys: seq<K>, values: map<K, V>, capacity: int, k: K, v: V)
    requires Cache(keys, values, capacity)
    ensures var (ks, vs) := AfterPut(keys, values, capacity, k, v); Cache(ks, vs, capacity)
  {
  }

  /** After put(k, v) with a positive capacity, `k` is the most recent key
      and maps to `v`; with capacity below 1 the cache is left empty. */
  lemma PutMakesMostRecent<K(!new), V>(keys: seq<K>, values: map<K, V>, capacity: int, k: K, v: V)
    requires Cache(keys, values, capacity)
    ensures var (ks, vs) := AfterPut(keys, values, capacity, k, v);
            && (capacity >= 1 ==> ks != [] && ks[|ks| - 1] == k && k in vs && vs[k] == v)
            && (capacity < 1 ==> ks == [] && vs == map[])
  {
  }

  /** A put evicts at most one key, and only the least recently used one;
      every other key keeps its value. */
  lemma PutEvictsOnlyLeastRecent<K(!new), V>(keys: seq<K>, values: map<K, V>, capacity: int, k: K, v: V)
    requires Cache(keys, values, capacity)
    ensures var (ks, vs) := AfterPut(keys, values, capacity, k, v);
            && (forall x :: x in values && x !in vs ==> x == keys[0])
            && (forall x :: x in vs && x != k ==> x in values && vs[x] == values[x])
            && |ks| >= |keys|
  {
  }

  /** A put keeps the relative order of the other keys: the order loses its
      front when a key is evicted, and nothing else. */
  lemma PutKeepsOthersInOrder<K(!new), V>(keys: seq<K>, values: map<K, V>, capacity: int, k: K, v: V)
    requires Cache(keys, values, capacity)
    ensures var (ks, vs) := AfterPut(keys, values, capacity, k, v);
            && (values.Keys <= vs.Keys ==> Remove(ks, k) == Remove(keys, k))
            && (!(values.Keys <= vs.Keys) ==> keys != [] && Remove(ks, k) == Remove(keys, k)[1..])
  {
    var ks := Touch(keys, k);
    TouchKeepsOthersInOrder(keys, k);
    if |ks| > capacity {
      // Only a new key can overflow the cache, so the old front is evicted.
      assert k !in keys;
      if keys != [] {
        EvictFront(keys, k);
        assert keys[0] in values && keys[0] !in values[k := v] - {ks[0]};
      }
    }
  }

  /** Appending a new key and dropping the front leaves the rest in order. */
  lemma EvictFront<K(!new)>(keys: seq<K>, k: K)
    requires keys != [] && k !in keys
    ensures Touch(keys, k)[0] == keys[0] && Remove(Touch(keys, k)[1..], k) == keys[1..]
  {
    assert Touch(keys, k) == keys + [k];
    assert (keys + [k])[1..] == keys[1..] + [k];
    RemoveAfterAppend(keys[1..], k);
  }

  /** put on a key already present updates its value and evicts nothing. */
  lemma PutExistingKeyNoEviction<K(!new), V>(keys: seq<K>, values: map<K, V>, capacity: int, k: K, v: V)
    requires Cache(keys, values, capacity) && k in values
    ensures var (ks, vs) := AfterPut(keys, values, capacity, k, v);
            vs == values[k := v] && |ks| == |keys|
  {
  }

  class LRUCache<K(==, !new), V> {
    const capacity: int
    /** Keys from least to most recently used. */
    var keys: seq<K>
    var values: map<K, V>

    ghost predicate Valid()
      reads this
    {
      Cache(keys, values, capacity)
    }

    constructor (capacity: int)
      ensures Valid() && this.capacity == capacity && keys == [] && values == map[]
    {
      this.capacity := capacity;
      keys, values := [], map[];
    }

    /** get: a present key is returned and becomes the most recent; a missing
        key gives None and changes nothing. */
    method Get(key: K) returns (v: Option<V>)
      requires Valid()
      modifies this`keys
      ensures Valid() && values == old(values)
      ensures key in values ==> v == Some(values[key]) && keys == Touch(old(keys), key)
      ensures key !in values ==> v == None && keys == old(keys)
      ensures Remove(keys, key) == Remove(old(keys), key)
    {
      if key in values {
        TouchKeepsOthersInOrder(keys, key);
        keys := Touch(keys, key);
        return Some(values[key]);
      }
      return None;
    }

    method Put(key: K, value: V)
      requires Valid()
      modifies this
      ensures Valid()
      ensures (keys, values) == AfterPut(old(keys), old(values), capacity, key, value)
    {
      PutKeepsInvariant(keys, values, capacity, key, value);
      values := values[key := value];
      keys := Touch(keys, key);
      if |keys| > capacity {
        values := values - {keys[0]};
        keys := keys[1..];
      }
    }

    /** `key in cache`: reads the mapping and changes nothing. */
    function Contains(key: K): (present: bool)
      reads this
      ensures Valid() ==> (present <==> key in keys)
    {
      key in values
    }
  }


}
