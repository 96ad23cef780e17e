/** CHAINING_VALUES_CACHE: a bounded map from a route's keyFlag to its
    resolved chains. When it is full, storing a new key evicts one entry. */
module LruCache {
  import opened ThingsTypes

  /** The capacity the executor creates its cache with. */
  const CACHE_CAPACITY: nat := 1000

  /** `after` is `before` with `value` stored under `key`: every other entry
      stays as it was, and only a new key arriving when `before` holds
      `capacity` entries evicts one other entry (which one is left open). */
  ghost predicate Stored<V>(before: map<string, V>, after: map<string, V>, key: string, value: V, capacity: nat) {
    && key in after && after[key] == value
    && (forall k :: k in after && k != key ==> k in before && after[k] == before[k])
    && (key in before || |before| < capacity ==> after == before[key := value])
    && (key !in before && |before| == capacity ==>
          exists victim :: victim in before && after == (before - {victim})[key := value])
  }

  class LruCache<V> {
    const capacity: nat
    var entries: map<string, V>

    ghost predicate Valid()
      reads this
    {
      0 < capacity && |entries| <= capacity
    }

    constructor (capacity: nat)
      requires 0 < capacity
      ensures Valid() && this.capacity == capacity && entries == map[]
    {
      this.capacity := capacity;
      entries := map[];
    }

    /** The stored value, if any. */
    method Get(key: string) returns (v: Option<V>)
      ensures key in entries ==> v == Some(entries[key])
      ensures key !in entries ==> v == None
    {
      if key in entries {
        v := Some(entries[key]);
      } else {
        v := None;
      }
    }

    /** Stores `value` under `key`. A new key in a full cache first evicts
        one other entry; which one is left open. */
    method Put(key: string, value: V)
      requires Valid()
      modifies this
      ensures Valid()
      ensures Stored(old(entries), entries, key, value, capacity)
    {
      if key !in entries && |entries| >= capacity {
        var victim :| victim in entries;
        entries := entries - {victim};
      }
      entries := entries[key := value];
    }
  }
}
