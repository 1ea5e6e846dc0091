/** `MessageCacher`: the append-only list of role-button bindings, written
    through to the cache named "MessageCacher". */
module MessageCaching {
  import opened Primitives
  import opened Caching
  import opened RoleMessages

  const CACHE_NAME: string := "MessageCacher"

  class MessageCacher {
    var cachedMessages: seq<RoleMessageCache>
    const cache: Cache<seq<RoleMessageCache>>

    /** The in-memory list is what the cache file holds, in the same order. */
    ghost predicate Persisted()
      reads this, cache
    {
      var p := CachePath(cache.cacheDirectory, CACHE_NAME);
      p in cache.files && cache.files[p] == Json(cachedMessages)
    }

    /** Loads the list from the cache, in stored order; an absent or empty
        file gives an empty list. */
    constructor (cache: Cache<seq<RoleMessageCache>>, readFails: bool)
      modifies cache
      ensures this.cache == cache
      ensures var l := Load(old(cache.State()), cache.cacheDirectory, CACHE_NAME, readFails);
        cache.State() == l.disk && cachedMessages == l.value.GetOr([])
    {
      this.cache := cache;
      var loaded := cache.LoadCached(CACHE_NAME, readFails);
      cachedMessages := loaded.GetOr([]);
    }

    /** Appends `binding`, with no check for an existing binding of the same
        message, and saves the whole list. */
    method AddMessage(binding: RoleMessageCache, writeFails: bool)
      modifies this, cache
      ensures cachedMessages == old(cachedMessages) + [binding]
      ensures cache.State() == Save(old(cache.State()), cache.cacheDirectory, CACHE_NAME,
                                    cachedMessages, writeFails)
      ensures !writeFails ==> Persisted()
    {
      cachedMessages := cachedMessages + [binding];
      cache.SaveCached(cachedMessages, CACHE_NAME, writeFails);
    }

    /** The binding that a click on message `messageId` resolves to: the
        first one recorded for that message, or `null`. */
    function FindMessage(messageId: U64): (r: Option<RoleMessageCache>)
      reads this
      ensures r.Some? ==> r.value in cachedMessages && r.value.messageId == messageId
      ensures r.None? <==> forall m | m in cachedMessages :: m.messageId != messageId
      ensures forall i | 0 <= i < |cachedMessages| && cachedMessages[i].messageId == messageId
                         && (forall j | 0 <= j < i :: cachedMessages[j].messageId != messageId)
                :: r == Some(cachedMessages[i])
    {
      FindFirst(cachedMessages, messageId)
    }

    /** Saves the whole list one last time. */
    method Dispose(writeFails: bool)
      modifies cache
      ensures cache.State() == Save(old(cache.State()), cache.cacheDirectory, CACHE_NAME,
                                    cachedMessages, writeFails)
      ensures !writeFails ==> Persisted()
    {
      cache.SaveCached(cachedMessages, CACHE_NAME, writeFails);
    }
  }
}
