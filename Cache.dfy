/**
 * The process-local key-value cache the views share. Entries map keys to
 * JSON values; every `set` is also recorded, with its time-to-live, in a
 * write log that specifications use to count writes. Expiry and eviction
 * are not modelled: the time-to-live is kept only as metadata.
 */
module Cache {
  import opened Json

  /** One `cache.set(key, value, timeout=ttl)`. */
  datatype Write = Write(key: string, value: Json, ttl: int)

  /** `cache.get(key)`: the stored value, or None when there is none. */
  function Read(entries: map<string, Json>, key: string): (v: Json)
    ensures key !in entries ==> v == JNull
    ensures key in entries ==> v == entries[key]
  {
    if key in entries then entries[key] else JNull
  }

  class Store {
    var entries: map<string, Json>
    ghost var log: seq<Write>

    constructor ()
      ensures entries == map[] && log == []
    {
      entries := map[];
      log := [];
    }

    /** `cache.get(key)`; changes nothing. */
    method Get(key: string) returns (v: Json)
      ensures v == Read(entries, key)
    {
      v := if key in entries then entries[key] else JNull;
    }

    /** `cache.set(key, value, timeout=ttl)`: overwrites the entry and logs the write. */
    method Set(key: string, value: Json, ttl: int)
      modifies this
      ensures entries == old(entries)[key := value]
      ensures log == old(log) + [Write(key, value, ttl)]
    {
      entries := entries[key := value];
      log := log + [Write(key, value, ttl)];
    }
  }
}
