/**
 * Tenant webhooks on the notifying side: the URL cache under
 * `webhook:<tenant>`, the store of registered webhooks, and the notifier
 * that reads the cache first, falls back to the store, back-fills the cache
 * and then posts the order.
 */
module WebhookNotifier {
  import opened Common

  const CachePrefix: string := "webhook:"

  function CacheKey(tenantId: string): string {
    CachePrefix + tenantId
  }

  /** Distinct tenants never share a cache entry. */
  lemma CacheKeyInjective(a: string, b: string)
    ensures CacheKey(a) == CacheKey(b) <==> a == b
  {
    if CacheKey(a) == CacheKey(b) {
      assert a == CacheKey(a)[|CachePrefix|..];
      assert b == CacheKey(b)[|CachePrefix|..];
    }
  }

  /** The cache: its entries never expire; reads and writes may fail. */
  class RedisCache {
    var entries: map<string, string>
    const readable: bool
    const writable: bool

    constructor(entries: map<string, string>, readable: bool, writable: bool)
      ensures this.entries == entries && this.readable == readable && this.writable == writable
    {
      this.entries := entries;
      this.readable := readable;
      this.writable := writable;
    }

    method Set(key: string, value: string) returns (ok: bool)
      modifies this
      ensures ok == writable
      ensures entries == if ok then old(entries)[key := value] else old(entries)
    {
      ok := writable;
      if ok {
        entries := entries[key := value];
      }
    }

    /** A missing key is an error, like a failed read. */
    method Get(key: string) returns (value: string, ok: bool)
      ensures ok <==> readable && key in entries
      ensures ok ==> value == entries[key]
      ensures !ok ==> value == ""
    {
      if readable && key in entries {
        return entries[key], true;
      }
      return "", false;
    }
  }

  /** The registered webhooks, one URL per tenant id, and the lookups made in it. */
  class WebhookStore {
    var urls: map<string, string>
    const readable: bool
    const writable: bool
    var lookups: seq<string>

    constructor(urls: map<string, string>, readable: bool, writable: bool)
      ensures this.urls == urls && this.readable == readable && this.writable == writable && lookups == []
    {
      this.urls := urls;
      this.readable := readable;
      this.writable := writable;
      lookups := [];
    }

    /** `FindOne({tenant_id: tenantId})`; `None` when no record decodes. */
    method FindOne(tenantId: string) returns (url: Option<string>)
      modifies this
      ensures url == StoredURL(urls, readable, tenantId)
      ensures urls == old(urls) && lookups == old(lookups) + [tenantId]
    {
      lookups := lookups + [tenantId];
      url := if readable && tenantId in urls then Some(urls[tenantId]) else None;
    }

    /** `UpdateOne({tenant_id: tenantId}, {$set: …}, upsert)`: replace or add the tenant's URL. */
    method Upsert(tenantId: string, url: string) returns (ok: bool)
      modifies this
      ensures ok == writable
      ensures urls == if ok then old(urls)[tenantId := url] else old(urls)
      ensures lookups == old(lookups)
    {
      ok := writable;
      if ok {
        urls := urls[tenantId := url];
      }
    }
  }

  /** What a store lookup for the tenant finds. */
  function StoredURL(urls: map<string, string>, readable: bool, tenantId: string): (r: Option<string>)
    ensures r.Some? <==> readable && tenantId in urls
    ensures r.Some? ==> r.value == urls[tenantId]
  {
    if readable && tenantId in urls then Some(urls[tenantId]) else None
  }

  /** What `GetCachedWebhookURL` reports: the cached URL, or `""` on a miss or a failed read. */
  function CachedURL(entries: map<string, string>, readable: bool, tenantId: string): (url: string)
    ensures url != "" ==> readable && CacheKey(tenantId) in entries && entries[CacheKey(tenantId)] == url
    ensures readable && CacheKey(tenantId) in entries ==> url == entries[CacheKey(tenantId)]
    ensures !readable ==> url == ""
  {
    if readable && CacheKey(tenantId) in entries then entries[CacheKey(tenantId)] else ""
  }

  /** `CacheWebhookURL`: a failed write is only logged. */
  method CacheWebhookURL(cache: RedisCache, tenantId: string, url: string)
    modifies cache
    ensures cache.entries == if cache.writable then old(cache.entries)[CacheKey(tenantId) := url] else old(cache.entries)
  {
    var ok := cache.Set(CacheKey(tenantId), url);
  }

  method GetCachedWebhookURL(cache: RedisCache, tenantId: string) returns (url: string)
    ensures url == CachedURL(cache.entries, cache.readable, tenantId)
  {
    var value, ok := cache.Get(CacheKey(tenantId));
    if !ok {
      return "";
    }
    return value;
  }

  /** One webhook `POST` of an order. */
  datatype Post = Post(url: string, payload: Order)

  /** The outgoing HTTP client: whether a request to a URL builds, and the posts attempted. */
  class HttpOutbox {
    const builds: string -> bool
    var posts: seq<Post>

    constructor(builds: string -> bool)
      ensures this.builds == builds && posts == []
    {
      this.builds := builds;
      posts := [];
    }

    /** A failed post is logged and not retried; the attempt is what is recorded. */
    method Send(url: string, payload: Order)
      modifies this
      ensures posts == old(posts) + [Post(url, payload)]
    {
      posts := posts + [Post(url, payload)];
    }
  }

  /** The URL `NotifyTenantWebhook` posts to, if it gets that far: the cache first, then the store. */
  function NotifyURL(entries: map<string, string>, cacheReadable: bool, urls: map<string, string>,
                     storeReadable: bool, tenantId: string): (r: Option<string>)
    ensures CachedURL(entries, cacheReadable, tenantId) != "" ==> r == Some(CachedURL(entries, cacheReadable, tenantId))
    ensures CachedURL(entries, cacheReadable, tenantId) == "" ==> r == StoredURL(urls, storeReadable, tenantId)
  {
    var cached := CachedURL(entries, cacheReadable, tenantId);
    if cached != "" then Some(cached) else StoredURL(urls, storeReadable, tenantId)
  }

  /** The posts a notification makes: one to the URL, unless there is none or its request does not build. */
  function NotifyPosts(target: Option<string>, builds: string -> bool, payload: Order): (r: seq<Post>)
    ensures |r| <= 1
    ensures |r| == 1 <==> target.Some? && builds(target.value)
    ensures |r| == 1 ==> r[0] == Post(target.value, payload)
  {
    match target
    case None => []
    case Some(url) => if builds(url) then [Post(url, payload)] else []
  }

  /** The cache after a notification: back-filled only on a miss that the store answered. */
  function NotifyEntries(entries: map<string, string>, cacheReadable: bool, cacheWritable: bool,
                         urls: map<string, string>, storeReadable: bool, tenantId: string): map<string, string>
  {
    if CachedURL(entries, cacheReadable, tenantId) == "" && StoredURL(urls, storeReadable, tenantId).Some? && cacheWritable
    then entries[CacheKey(tenantId) := StoredURL(urls, storeReadable, tenantId).value]
    else entries
  }

  /** `NotifyTenantWebhook`: cache, then store and back-fill, then post. */
  method NotifyTenantWebhook(tenantId: string, payload: Order, cache: RedisCache, store: WebhookStore, outbox: HttpOutbox)
    modifies cache, store, outbox
    ensures outbox.posts == old(outbox.posts) +
              NotifyPosts(NotifyURL(old(cache.entries), cache.readable, store.urls, store.readable, tenantId),
                          outbox.builds, payload)
    ensures store.urls == old(store.urls)
    ensures store.lookups == old(store.lookups) +
              (if CachedURL(old(cache.entries), cache.readable, tenantId) == "" then [tenantId] else [])
    ensures cache.entries ==
              NotifyEntries(old(cache.entries), cache.readable, cache.writable, store.urls, store.readable, tenantId)
  {
    var url := GetCachedWebhookURL(cache, tenantId);
    if url == "" {
      var found := store.FindOne(tenantId);
      if found.None? {
        return;
      }
      url := found.value;
      CacheWebhookURL(cache, tenantId, url);
    }
    if !outbox.builds(url) {
      return;
    }
    outbox.Send(url, payload);
  }

  /** A cache hit posts to the cached URL and never consults the store or writes the cache. */
  lemma CacheHitSkipsStore(entries: map<string, string>, cacheReadable: bool, cacheWritable: bool,
                           urls: map<string, string>, storeReadable: bool, tenantId: string)
    requires cacheReadable && CacheKey(tenantId) in entries && entries[CacheKey(tenantId)] != ""
    ensures NotifyURL(entries, cacheReadable, urls, storeReadable, tenantId) == Some(entries[CacheKey(tenantId)])
    ensures NotifyEntries(entries, cacheReadable, cacheWritable, urls, storeReadable, tenantId) == entries
  {
  }

  /** A miss with no stored record posts nothing and leaves the cache alone. */
  lemma MissWithoutRecordDoesNothing(entries: map<string, string>, cacheReadable: bool, cacheWritable: bool,
                                     urls: map<string, string>, storeReadable: bool, tenantId: string,
                                     builds: string -> bool, payload: Order)
    requires CachedURL(entries, cacheReadable, tenantId) == ""
    requires !storeReadable || tenantId !in urls
    ensures NotifyPosts(NotifyURL(entries, cacheReadable, urls, storeReadable, tenantId), builds, payload) == []
    ensures NotifyEntries(entries, cacheReadable, cacheWritable, urls, storeReadable, tenantId) == entries
  {
  }

  /** A miss with a stored record back-fills the cache with it and posts to it. */
  lemma MissWithRecordBackfills(entries: map<string, string>, cacheReadable: bool, cacheWritable: bool,
                                urls: map<string, string>, storeReadable: bool, tenantId: string)
    requires CachedURL(entries, cacheReadable, tenantId) == ""
    requires storeReadable && tenantId in urls
    ensures NotifyURL(entries, cacheReadable, urls, storeReadable, tenantId) == Some(urls[tenantId])
    ensures cacheWritable ==>
              NotifyEntries(entries, cacheReadable, cacheWritable, urls, storeReadable, tenantId) ==
              entries[CacheKey(tenantId) := urls[tenantId]]
  {
  }
}
