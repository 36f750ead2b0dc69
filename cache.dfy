/** `createCache` (src/utils.ts, dist/utils.js): a bounded list of key/value
    entries. `set` drops the oldest entry once the list holds `cacheSize`
    entries and appends the new one; `get` returns the value of the oldest
    entry with the key. Keys are strings; a value absent from the cache is
    `undefined`, modelled as `None`. */
module Cache {
  import opened Common

  /** `CacheStorageItem`: one `{ key, value }` entry. */
  datatype Entry<V> = Entry(key: string, value: V)

  /** The position `Array.prototype.find` stops at: the first entry with the
      key, or the length of the list when no entry has it. */
  function FirstIndex<V>(storage: seq<Entry<V>>, key: string): (i: nat)
    ensures i <= |storage|
    ensures forall j :: 0 <= j < i ==> storage[j].key != key
    ensures i < |storage| ==> storage[i].key == key
  {
    if |storage| == 0 then 0
    else if storage[0].key == key then 0
    else 1 + FirstIndex(storage[1..], key)
  }

  /** What `get` returns for a given storage: the value of the first entry
      with the key, `None` (`undefined`) when there is none. */
  function Lookup<V>(storage: seq<Entry<V>>, key: string): (r: Option<V>)
    ensures r.None? <==> forall j :: 0 <= j < |storage| ==> storage[j].key != key
    ensures r.Some? ==> exists j :: 0 <= j < |storage| && storage[j] == Entry(key, r.value)
  {
    var i := FirstIndex(storage, key);
    if i < |storage| then Some(storage[i].value) else None
  }

  /** The most entries a cache of the given size holds: `cacheSize`, and 1
      when `cacheSize` is 0 or less (every `set` then shifts first). */
  function Capacity(cacheSize: int): (c: int)
    ensures c >= 1 && c >= cacheSize
  {
    if cacheSize >= 1 then cacheSize else 1
  }

  /** The storage after the eviction step of `set`: the oldest entry is
      shifted out once the length has reached `cacheSize` (`shift` on an
      empty list does nothing). */
  function Evict<V>(storage: seq<Entry<V>>, cacheSize: int): seq<Entry<V>> {
    if |storage| >= cacheSize && |storage| > 0 then storage[1..] else storage
  }

  /** The storage after `set(key, value)`. */
  function AfterSet<V>(storage: seq<Entry<V>>, cacheSize: int, key: string, value: V): seq<Entry<V>> {
    Evict(storage, cacheSize) + [Entry(key, value)]
  }

  /** The object `createCache(cacheSize)` returns. */
  class Cache<V> {
    const cacheSize: int
    var storage: seq<Entry<V>>

    ghost predicate Valid()
      reads this
    {
      |storage| <= Capacity(cacheSize)
    }

    constructor (cacheSize: int)
      ensures this.cacheSize == cacheSize && storage == []
      ensures Valid()
    {
      this.cacheSize := cacheSize;
      storage := [];
    }

    /** `get`: scan the entries from the oldest and stop at the first with the key. */
    method Get(key: string) returns (r: Option<V>)
      ensures r == Lookup(storage, key)
    {
      var i := 0;
      while i < |storage|
        invariant 0 <= i <= |storage|
        invariant forall j :: 0 <= j < i ==> storage[j].key != key
      {
        if storage[i].key == key {
          FirstIndexUnique(storage, key, i);
          return Some(storage[i].value);
        }
        i := i + 1;
      }
      FirstIndexUnique(storage, key, i);
      r := None;
    }

    /** `set`: evict the oldest entry when full, then append the new entry. */
    method Set(key: string, value: V)
      requires Valid()
      modifies this
      ensures Valid()
      ensures storage == AfterSet(old(storage), cacheSize, key, value)
    {
      if |storage| >= cacheSize && |storage| > 0 {
        storage := storage[1..];
      }
      storage := storage + [Entry(key, value)];
      SetKeepsCapacity(old(storage), cacheSize, key, value);
    }
  }

  /** The three properties of `FirstIndex` determine it. */
  lemma FirstIndexUnique<V>(storage: seq<Entry<V>>, key: string, i: nat)
    requires i <= |storage|
    requires forall j :: 0 <= j < i ==> storage[j].key != key
    requires i < |storage| ==> storage[i].key == key
    ensures FirstIndex(storage, key) == i
  {
  }

  /** Looking a key up in two lists one after the other: the first list wins. */
  lemma {:induction false} LookupAppend<V>(s: seq<Entry<V>>, t: seq<Entry<V>>, key: string)
    ensures Lookup(s + t, key) == if Lookup(s, key).Some? then Lookup(s, key) else Lookup(t, key)
  {
    var i := FirstIndex(s, key);
    if i < |s| {
      FirstIndexUnique(s + t, key, i);
    } else {
      var k := FirstIndex(t, key);
      assert forall j :: 0 <= j < |s| + k ==> (s + t)[j].key != key by {
        forall j | 0 <= j < |s| + k
          ensures (s + t)[j].key != key
        {
          if j >= |s| {
            assert (s + t)[j] == t[j - |s|];
          }
        }
      }
      FirstIndexUnique(s + t, key, |s| + k);
    }
  }

  /** `set` never replaces an entry: after `set(key, value)`, `get(key)`
      still returns the value of an older entry with the key when one
      survived the eviction, and `value` otherwise. */
  lemma {:induction false} GetAfterSet<V>(storage: seq<Entry<V>>, cacheSize: int, key: string, value: V)
    ensures Lookup(AfterSet(storage, cacheSize, key, value), key)
         == if Lookup(Evict(storage, cacheSize), key).Some? then Lookup(Evict(storage, cacheSize), key)
            else Some(value)
  {
    LookupAppend(Evict(storage, cacheSize), [Entry(key, value)], key);
    FirstIndexUnique([Entry(key, value)], key, 0);
  }

  /** A key the cache does not hold is found with the value just set. */
  lemma {:induction false} GetAfterSetOfNewKey<V>(storage: seq<Entry<V>>, cacheSize: int, key: string, value: V)
    requires Lookup(storage, key).None?
    ensures Lookup(AfterSet(storage, cacheSize, key, value), key) == Some(value)
  {
    GetAfterSet(storage, cacheSize, key, value);
    var e := Evict(storage, cacheSize);
    assert forall j :: 0 <= j < |e| ==> e[j] == storage[j + |storage| - |e|];
  }

  /** `set(key, value)` does not change what `get` returns for another key,
      except that the evicted oldest entry is gone. */
  lemma {:induction false} SetLeavesOtherKeys<V>(storage: seq<Entry<V>>, cacheSize: int, key: string, value: V, other: string)
    requires other != key
    ensures Lookup(AfterSet(storage, cacheSize, key, value), other) == Lookup(Evict(storage, cacheSize), other)
  {
    LookupAppend(Evict(storage, cacheSize), [Entry(key, value)], other);
  }

  /** `set` keeps the bound: from at most `Capacity` entries it grows by one
      until the length reaches `cacheSize`, and stays at the capacity from
      then on; with `cacheSize <= 0` the storage holds exactly one entry. */
  lemma {:induction false} SetKeepsCapacity<V>(storage: seq<Entry<V>>, cacheSize: int, key: string, value: V)
    requires |storage| <= Capacity(cacheSize)
    ensures |AfterSet(storage, cacheSize, key, value)|
         == if |storage| < cacheSize then |storage| + 1 else Capacity(cacheSize)
    ensures cacheSize <= 0 ==> |AfterSet(storage, cacheSize, key, value)| == 1
  {
  }

  /** The entry `set` evicts is the oldest one, and only when the storage is full. */
  lemma {:induction false} SetEvictsOnlyTheOldest<V>(storage: seq<Entry<V>>, cacheSize: int, key: string, value: V)
    ensures var after := AfterSet(storage, cacheSize, key, value);
      && after[|after| - 1] == Entry(key, value)
      && (|storage| < cacheSize || |storage| == 0 ==> after[..|after| - 1] == storage)
      && (|storage| >= cacheSize && |storage| > 0 ==> after[..|after| - 1] == storage[1..])
  {
    var after := AfterSet(storage, cacheSize, key, value);
    assert after[..|after| - 1] == Evict(storage, cacheSize);
  }
}
