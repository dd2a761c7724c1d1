/**
 * The in-memory response cache of cache.py: a dictionary from the fingerprint
 * of an input text to the response generated for it.
 *
 * The fingerprint (an MD5 hex digest in the source) is a deterministic function
 * `key` fixed when the cache is built. Nothing here assumes it is injective:
 * two texts with the same fingerprint share one entry.
 */
module Cache {
  import opened Wrappers

  type Fingerprint = string

  class Cache {
    /** The fingerprint function (`_get_key`). */
    const key: string -> Fingerprint
    /** The dictionary `memory_cache`, from fingerprint to response. */
    var memoryCache: map<Fingerprint, string>

    /** A new cache is empty: every text misses. */
    constructor (key: string -> Fingerprint)
      ensures this.key == key
      ensures memoryCache == map[]
      ensures forall t :: Get(t) == None
    {
      this.key := key;
      memoryCache := map[];
    }

    /**
     * `get`: the response stored under the text's fingerprint, or `None`.
     * A function of the current state, so it changes nothing.
     */
    function Get(text: string): (r: Option<string>)
      reads this
      ensures r.Some? <==> key(text) in memoryCache
      ensures r.Some? ==> r.value == memoryCache[key(text)]
    {
      if key(text) in memoryCache then Some(memoryCache[key(text)]) else None
    }

    /**
     * `set`: store `response` under the text's fingerprint, replacing any
     * previous entry; every other fingerprint keeps its entry or its absence.
     */
    method Set(text: string, response: string)
      modifies this
      ensures memoryCache == old(memoryCache)[key(text) := response]
      ensures Get(text) == Some(response)
      ensures forall t :: key(t) == key(text) ==> Get(t) == Some(response)
      ensures forall t :: key(t) != key(text) ==> Get(t) == old(Get(t))
    {
      memoryCache := memoryCache[key(text) := response];
    }
  }

  /** Texts with equal fingerprints see the same cached value, whatever it is. */
  lemma SameKeySameEntry(c: Cache, t1: string, t2: string)
    requires c.key(t1) == c.key(t2)
    ensures c.Get(t1) == c.Get(t2)
  {
  }
}
