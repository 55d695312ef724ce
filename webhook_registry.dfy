/**
 * Tenant webhooks on the registering side: `RegisterWebhook` checks the
 * body and the tenant header, upserts the tenant's URL, and only then
 * writes the cache.
 */
module WebhookRegistry {
  import opened Common
  import opened WebhookNotifier

  const BadRequest: int := 400
  const InternalError: int := 500
  const OK: int := 200

  /**
   * The response code: a body that does not bind (`None`) or a missing
   * tenant header is a bad request, a failed upsert an internal error.
   */
  function RegisterStatus(body: Option<string>, tenantHeader: string, storeWritable: bool): (code: int)
    ensures code == OK <==> body.Some? && tenantHeader != "" && storeWritable
    ensures code == InternalError <==> body.Some? && tenantHeader != "" && !storeWritable
    ensures code == BadRequest <==> body.None? || tenantHeader == ""
  {
    if body.None? then BadRequest
    else if tenantHeader == "" then BadRequest
    else if !storeWritable then InternalError
    else OK
  }

  /** The store after a registration: the tenant's URL replaced or added once the request is accepted. */
  function RegisteredURLs(urls: map<string, string>, body: Option<string>, tenantHeader: string,
                          storeWritable: bool): map<string, string>
  {
    if RegisterStatus(body, tenantHeader, storeWritable) == OK then urls[tenantHeader := body.value] else urls
  }

  /** The cache after a registration: written only after the upsert succeeded. */
  function RegisteredEntries(entries: map<string, string>, body: Option<string>, tenantHeader: string,
                             storeWritable: bool, cacheWritable: bool): map<string, string>
  {
    if RegisterStatus(body, tenantHeader, storeWritable) == OK && cacheWritable
    then entries[CacheKey(tenantHeader) := body.value]
    else entries
  }

  /** `RegisterWebhook`; `body` is the bound URL, `None` when binding fails. */
  method RegisterWebhook(body: Option<string>, tenantHeader: string, store: WebhookStore, cache: RedisCache)
    returns (code: int)
    modifies store, cache
    ensures code == RegisterStatus(body, tenantHeader, store.writable)
    ensures store.urls == RegisteredURLs(old(store.urls), body, tenantHeader, store.writable)
    ensures cache.entries == RegisteredEntries(old(cache.entries), body, tenantHeader, store.writable, cache.writable)
    ensures store.lookups == old(store.lookups)
  {
    if body.None? {
      return BadRequest;
    }
    if tenantHeader == "" {
      return BadRequest;
    }
    var ok := store.Upsert(tenantHeader, body.value);
    if !ok {
      return InternalError;
    }
    CacheWebhookURL(cache, tenantHeader, body.value);
    return OK;
  }

  /** A rejected or failed registration writes neither the store nor the cache. */
  lemma FailureWritesNothing(urls: map<string, string>, entries: map<string, string>, body: Option<string>,
                             tenantHeader: string, storeWritable: bool, cacheWritable: bool)
    requires RegisterStatus(body, tenantHeader, storeWritable) != OK
    ensures RegisteredURLs(urls, body, tenantHeader, storeWritable) == urls
    ensures RegisteredEntries(entries, body, tenantHeader, storeWritable, cacheWritable) == entries
  {
  }

  /** Registering again for a tenant replaces its URL: the store holds one record per tenant, the latest. */
  lemma RegistrationIsUpsert(urls: map<string, string>, first: string, second: string, tenantId: string)
    requires tenantId != ""
    ensures var after := RegisteredURLs(RegisteredURLs(urls, Some(first), tenantId, true), Some(second), tenantId, true);
            after[tenantId] == second && after.Keys == urls.Keys + {tenantId}
  {
  }

  /**
   * After a fully successful registration, a notification for the tenant
   * posts to the new URL, as long as the cache or the store can be read
   * (binding only accepts a non-empty URL).
   */
  lemma RegisterThenNotify(urls: map<string, string>, entries: map<string, string>, url: string, tenantId: string,
                           cacheReadable: bool, storeReadable: bool)
    requires tenantId != "" && url != ""
    requires cacheReadable || storeReadable
    ensures NotifyURL(RegisteredEntries(entries, Some(url), tenantId, true, true), cacheReadable,
                      RegisteredURLs(urls, Some(url), tenantId, true), storeReadable, tenantId) == Some(url)
  {
  }

  /**
   * When the upsert succeeds but the cache write fails, a URL cached
   * earlier keeps being used: the cache entry has no expiry.
   */
  lemma StaleCacheAfterFailedCacheWrite(urls: map<string, string>, entries: map<string, string>, url: string,
                                        tenantId: string, storeReadable: bool)
    requires tenantId != ""
    requires CacheKey(tenantId) in entries && entries[CacheKey(tenantId)] != ""
    ensures NotifyURL(RegisteredEntries(entries, Some(url), tenantId, true, false), true,
                      RegisteredURLs(urls, Some(url), tenantId, true), storeReadable, tenantId) ==
            Some(entries[CacheKey(tenantId)])
  {
  }
}
