/** The response cache of a run directory (src/llm_eval/cache.py): one JSON
    file per request key, held here as a map from key to payload. */
module Cache {
  import opened Wrappers

  /** The token usage a provider reports, by counter name. */
  type Usage = map<string, int>

  /** What the runner stores for a successful provider call. */
  datatype Payload = Payload(text: string, latencyMs: int, usage: Option<Usage>)

  class ResponseCache {
    /** The files present under the cache directory, by key. */
    var entries: map<string, Payload>

    /** Opening a cache directory that already holds `existing`. */
    constructor (existing: map<string, Payload>)
      ensures entries == existing
    {
      entries := existing;
    }

    /** What `get` returns for `key`. */
    function Lookup(key: string): (r: Option<Payload>)
      reads this
      ensures r.Some? <==> key in entries
      ensures r.Some? ==> r.value == entries[key]
    {
      if key in entries then Some(entries[key]) else None
    }

    /** `has`: whether a file exists for `key`; the cache is not changed. */
    method Has(key: string) returns (b: bool)
      ensures b <==> key in entries
      ensures b <==> Lookup(key).Some?
    {
      b := key in entries;
    }

    /** `get`: the stored payload, or `None` when there is none; the cache is
        not changed. */
    method Get(key: string) returns (r: Option<Payload>)
      ensures r.None? <==> key !in entries
      ensures r.Some? ==> r.value == entries[key]
    {
      if key !in entries {
        return None;
      }
      return Some(entries[key]);
    }

    /** `set`: writes the payload for `key`, replacing any earlier one; every
        other key keeps its payload. */
    method Set(key: string, payload: Payload)
      modifies this
      ensures entries == old(entries)[key := payload]
      ensures Lookup(key) == Some(payload)
      ensures forall k :: k != key ==> Lookup(k) == old(Lookup(k))
    {
      entries := entries[key := payload];
    }
  }

  /** `get` after `set` returns what was set, and a second `set` of the same
      key replaces the first. */
  method SetThenGet(cache: ResponseCache, key: string, first: Payload, second: Payload)
    returns (afterFirst: Option<Payload>, afterSecond: Option<Payload>)
    modifies cache
    ensures afterFirst == Some(first) && afterSecond == Some(second)
    ensures cache.entries == old(cache.entries)[key := second]
  {
    cache.Set(key, first);
    afterFirst := cache.Get(key);
    cache.Set(key, second);
    afterSecond := cache.Get(key);
  }
}
