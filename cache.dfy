/** The in-memory routing cache: entries are shared `CacheResult` objects, stamped when stored and
    considered live for one hour; an expired entry is dropped the first time it is read. Time is
    an explicit `now` in nanoseconds. */
module ResultCache {
  /** One hour in nanoseconds: the fixed lifetime of an in-memory entry. */
  const Hour: int := 3_600_000_000_000

  /** `CacheResult`; the response body is kept as its serialised text. */
  class CacheResult {
    const response: string
    const provider: string
    const model: string
    const cachedKey: string
    var createdAt: int

    constructor (response: string, provider: string, model: string, cachedKey: string, createdAt: int)
      ensures this.response == response && this.provider == provider && this.model == model
      ensures this.cachedKey == cachedKey && this.createdAt == createdAt
    {
      this.response := response;
      this.provider := provider;
      this.model := model;
      this.cachedKey := cachedKey;
      this.createdAt := createdAt;
    }
  }

  /** An entry stamped at `createdAt` is still live at `now`. */
  predicate Live(createdAt: int, now: int)
  {
    now - createdAt < Hour
  }

  /** `InMemoryCache`. */
  class InMemoryCache {
    var data: map<string, CacheResult>

    /** `NewInMemoryCache`. */
    constructor ()
      ensures data == map[]
    {
      data := map[];
    }

    /** `Get`: a live entry is returned and nothing changes; an expired one is removed and the
        read misses; an absent key misses and nothing changes. */
    method Get(key: string, now: int) returns (r: CacheResult?)
      modifies this
      ensures key in old(data) && Live(old(data[key].createdAt), now) ==>
                r == old(data[key]) && data == old(data)
      ensures key in old(data) && !Live(old(data[key].createdAt), now) ==>
                r == null && data == old(data) - {key}
      ensures key !in old(data) ==> r == null && data == old(data)
    {
      if key in data {
        var result := data[key];
        if now - result.createdAt < Hour {
          return result;
        }
        data := data - {key};
      }
      return null;
    }

    /** `Set`: stamps the entry with the current time and stores it under `key`, replacing what
        was there. The requested expiration is not used. Every key sharing the same object sees
        the new stamp. */
    method Set(key: string, result: CacheResult, expiration: int, now: int)
      modifies this, result
      ensures data == old(data)[key := result]
      ensures result.createdAt == now
    {
      result.createdAt := now;
      data := data[key := result];
    }

    /** `Delete`: removes the key, if present, and nothing else. */
    method Delete(key: string)
      modifies this
      ensures data == old(data) - {key}
      ensures key !in old(data) ==> data == old(data)
    {
      data := data - {key};
    }
  }

  /** Storing then reading: the entry comes back for reads within the hour after it was stored
      and is evicted by the first read after that, whatever expiration was requested. */
  method StoreThenRead(cache: InMemoryCache, key: string, result: CacheResult, expiration: int,
                       storedAt: int, readAt: int)
    returns (r: CacheResult?)
    modifies cache, result
    ensures readAt - storedAt < Hour ==> r == result && cache.data == old(cache.data)[key := result]
    ensures readAt - storedAt >= Hour ==> r == null && cache.data == old(cache.data) - {key}
  {
    cache.Set(key, result, expiration, storedAt);
    r := cache.Get(key, readAt);
  }
}
