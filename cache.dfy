/** The best-effort key/value cache with expiry that the analytics handlers
    use (app/utils/redis_client.py), as a map from key to value and expiry
    time. A read may fail and a write may fail; the failures are parameters,
    and both are swallowed exactly as the client swallows them. */
module RedisCache {
  import opened Wrappers

  datatype Entry<V> = Entry(value: V, expiresAt: int)

  /** What a read at time `now` finds: the value stored under `key` if it has
      not yet expired. */
  function Lookup<V>(entries: map<string, Entry<V>>, key: string, now: int): (r: Option<V>)
    ensures r.Some? <==> key in entries && now < entries[key].expiresAt
    ensures r.Some? ==> r.value == entries[key].value
  {
    if key in entries && now < entries[key].expiresAt then Some(entries[key].value) else None
  }

  /** A value written at `now` with a time-to-live of `ttl` seconds is read
      back unchanged until it expires, and writing one key leaves every other
      key as it was. */
  lemma LookupAfterStore<V>(entries: map<string, Entry<V>>, key: string, value: V, ttl: int, now: int, later: int, other: string)
    requires now <= later < now + ttl
    ensures Lookup(entries[key := Entry(value, now + ttl)], key, later) == Some(value)
    ensures other != key ==> Lookup(entries[key := Entry(value, now + ttl)], other, later) == Lookup(entries, other, later)
  {
  }

  class Cache<V> {
    var entries: map<string, Entry<V>>

    constructor ()
      ensures entries == map[]
    {
      entries := map[];
    }

    /** `cache_get`: a miss, an expired entry and a failed read all give None. */
    method Get(key: string, now: int, fails: bool) returns (r: Option<V>)
      ensures r.Some? <==> !fails && key in entries && now < entries[key].expiresAt
      ensures r.Some? ==> r.value == entries[key].value
    {
      if fails {
        return None;
      }
      r := Lookup(entries, key, now);
    }

    /** `cache_set`: stores the value until `now + ttl`, or silently does
        nothing when the write fails. */
    method Set(key: string, value: V, ttl: int, now: int, fails: bool)
      modifies this
      ensures entries == if fails then old(entries) else old(entries)[key := Entry(value, now + ttl)]
    {
      if !fails {
        entries := entries[key := Entry(value, now + ttl)];
      }
    }
  }
}
