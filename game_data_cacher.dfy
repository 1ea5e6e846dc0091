/** `GameDataCacher`: the in-memory map from user id to `UserGameData`,
    written through to the cache named "GameDataCacher". */
module GameDataCaching {
  import opened Primitives
  import opened GameData
  import opened Caching

  const CACHE_NAME: string := "GameDataCacher"

  type Ledger = map<U64, UserGameData>

  /** The ledger after looking up `uid`: unchanged when `uid` is known,
      otherwise extended by a default record for `uid`. */
  function WithUser(m: Ledger, uid: U64): (r: Ledger)
    ensures uid in r && r.Keys == m.Keys + {uid}
    ensures forall k | k in m :: r[k] == m[k]
    ensures uid !in m ==> r[uid] == Default()
  {
    if uid in m then m else m[uid := Default()]
  }

  /** The ledger after `ModifyUserData(uid, data)`: `uid` holds `data` and
      every other user keeps the record it had. */
  function Modified(m: Ledger, uid: U64, data: UserGameData): (r: Ledger)
    ensures r.Keys == m.Keys + {uid}
    ensures r[uid] == data
    ensures forall k | k in m && k != uid :: r[k] == m[k]
  {
    WithUser(m, uid)[uid := data]
  }

  /** Looking a user up twice is the same as looking it up once. */
  lemma WithUserIdempotent(m: Ledger, uid: U64)
    ensures WithUser(WithUser(m, uid), uid) == WithUser(m, uid)
  {
  }

  /** Modifying a user after looking it up is the same as modifying it
      directly: the default inserted by the lookup is overwritten. */
  lemma ModifiedAfterLookup(m: Ledger, uid: U64, data: UserGameData)
    ensures Modified(WithUser(m, uid), uid, data) == Modified(m, uid, data)
  {
  }

  class GameDataCacher {
    var cachedData: Ledger
    const cache: Cache<Ledger>

    /** The in-memory ledger is what the cache file holds. */
    ghost predicate Persisted()
      reads this, cache
    {
      var p := CachePath(cache.cacheDirectory, CACHE_NAME);
      p in cache.files && cache.files[p] == Json(cachedData)
    }

    /** Loads the ledger from the cache; an absent or empty file gives an
        empty ledger. */
    constructor (cache: Cache<Ledger>, readFails: bool)
      modifies cache
      ensures this.cache == cache
      ensures var l := Load(old(cache.State()), cache.cacheDirectory, CACHE_NAME, readFails);
        cache.State() == l.disk && cachedData == l.value.GetOr(map[])
    {
      this.cache := cache;
      var loaded := cache.LoadCached(CACHE_NAME, readFails);
      cachedData := loaded.GetOr(map[]);
    }

    /** The record of `uid`. An unknown user gets a default record, which is
        stored and saved with the whole ledger; a known user's record is
        returned without any change or save. */
    method GetUserGameData(uid: U64, writeFails: bool) returns (r: UserGameData)
      modifies this, cache
      ensures cachedData == WithUser(old(cachedData), uid) && r == cachedData[uid]
      ensures uid in old(cachedData) ==> r == old(cachedData)[uid]
      ensures uid in old(cachedData) ==> cache.State() == old(cache.State())
      ensures uid !in old(cachedData) ==>
        cache.State() == Save(old(cache.State()), cache.cacheDirectory, CACHE_NAME,
                              cachedData, writeFails)
      ensures uid !in old(cachedData) && !writeFails ==> Persisted()
    {
      if uid !in cachedData {
        r := Default();
        cachedData := cachedData[uid := r];
        cache.SaveCached(cachedData, CACHE_NAME, writeFails);
      } else {
        r := cachedData[uid];
      }
    }

    /** Stores `data` as the record of `uid` and saves the whole ledger. */
    method ModifyUserData(uid: U64, data: UserGameData, writeFails: bool)
      modifies this, cache
      ensures cachedData == Modified(old(cachedData), uid, data)
      ensures cache.State() == Save(old(cache.State()), cache.cacheDirectory, CACHE_NAME,
                                    cachedData, writeFails)
      ensures !writeFails ==> Persisted()
    {
      if uid !in cachedData {
        cachedData := cachedData[uid := Default()];
      }
      cachedData := cachedData[uid := data];
      cache.SaveCached(cachedData, CACHE_NAME, writeFails);
    }

    /** Saves the whole ledger one last time. */
    method Dispose(writeFails: bool)
      modifies cache
      ensures cache.State() == Save(old(cache.State()), cache.cacheDirectory, CACHE_NAME,
                                    cachedData, writeFails)
      ensures !writeFails ==> Persisted()
    {
      cache.SaveCached(cachedData, CACHE_NAME, writeFails);
    }
  }
}
