// The stats-cache handler for added or updated entries: a cookie or meter key is
// put into its own shared cache map, overwriting what was there.

module CacheAddUpdateHandler {
  /** A flow cookie on a switch. */
  datatype CookieCacheKey = CookieCacheKey(switchId: string, cookie: nat)

  /** A meter on a switch. */
  datatype MeterCacheKey = MeterCacheKey(switchId: string, meterId: nat)

  /** What a cached cookie or meter belongs to, as the stats topology describes it. */
  datatype KildaEntryDescriptor = KildaEntryDescriptor(flowId: string, description: string)

  /** A map after a put: the key maps to the entry, every other key is kept. */
  function Put<K, V>(m: map<K, V>, key: K, entry: V): (r: map<K, V>)
    ensures key in r && r[key] == entry
    ensures r.Keys == m.Keys + {key}
    ensures forall k :: k in m && k != key ==> r[k] == m[k]
  {
    m[key := entry]
  }

  /** Putting the same entry twice leaves the map as one put does. */
  lemma PutIdempotent<K, V>(m: map<K, V>, key: K, entry: V)
    ensures Put(Put(m, key, entry), key, entry) == Put(m, key, entry)
  {
  }

  /** The handler over the two cache maps it shares with the other cache handlers. */
  class CacheAddUpdateHandler {
    var cookieToEntry: map<CookieCacheKey, KildaEntryDescriptor>
    var meterToEntry: map<MeterCacheKey, KildaEntryDescriptor>

    constructor (cookieToEntry: map<CookieCacheKey, KildaEntryDescriptor>,
                 meterToEntry: map<MeterCacheKey, KildaEntryDescriptor>)
      ensures this.cookieToEntry == cookieToEntry && this.meterToEntry == meterToEntry
    {
      this.cookieToEntry := cookieToEntry;
      this.meterToEntry := meterToEntry;
    }

    /** Caches the entry under a cookie key; the meter map is not touched. */
    method CookieCacheAction(key: CookieCacheKey, entry: KildaEntryDescriptor)
      modifies this`cookieToEntry
      ensures cookieToEntry == Put(old(cookieToEntry), key, entry)
    {
      cookieToEntry := cookieToEntry[key := entry];
    }

    /** Caches the entry under a meter key; the cookie map is not touched. */
    method MeterCacheAction(key: MeterCacheKey, entry: KildaEntryDescriptor)
      modifies this`meterToEntry
      ensures meterToEntry == Put(old(meterToEntry), key, entry)
    {
      meterToEntry := meterToEntry[key := entry];
    }
  }
}
