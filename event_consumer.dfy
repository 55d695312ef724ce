/**
 * The `order.created` consumer: decode the order, run the inventory check
 * and status update once, then notify the tenant's webhook when the
 * message names a tenant.
 */
module EventConsumer {
  import opened Common
  import opened OrderStore
  import opened EventProducer
  import opened Lifecycle
  import opened WebhookNotifier

  /** The value did not decode into an order. */
  datatype HandleError = UnmarshalFailed

  /** The tenant a message names: its `X-Tenant-ID` header, `""` when absent. */
  function HeaderTenant(msg: Message): (t: string)
    ensures TenantHeader in msg.headers ==> t == msg.headers[TenantHeader]
    ensures TenantHeader !in msg.headers ==> t == ""
  {
    if TenantHeader in msg.headers then msg.headers[TenantHeader] else ""
  }

  /** Whether handling the message notifies a webhook: it decodes and names a tenant. */
  predicate Notifies(msg: Message) {
    msg.value.OrderBody? && HeaderTenant(msg) != ""
  }

  /**
   * The effects of handling a message: a value that does not decode has
   * none; otherwise one check-and-update of the order, then a notification
   * exactly when the message names a tenant, whatever the check found.
   */
  twostate predicate Handled(msg: Message, inventory: InventoryService, collection: OrderCollection,
                             cache: RedisCache, store: WebhookStore, outbox: HttpOutbox)
    reads inventory, collection, cache, store, outbox
  {
    (msg.value.Unreadable? ==>
       inventory.requests == old(inventory.requests) &&
       collection.docs == old(collection.docs) && collection.updates == old(collection.updates)) &&
    (msg.value.OrderBody? ==>
       var o := msg.value.order;
       inventory.requests == old(inventory.requests) + [RequestFor(o)] &&
       collection.docs ==
         CheckAndUpdateDocs(old(collection.docs), o, inventory.reply(RequestFor(o)), collection.updateAccepts) &&
       collection.updates == old(collection.updates) + CheckAndUpdateCalls(o, inventory.reply(RequestFor(o)))) &&
    (!Notifies(msg) ==>
       outbox.posts == old(outbox.posts) && cache.entries == old(cache.entries) &&
       store.lookups == old(store.lookups)) &&
    (Notifies(msg) ==>
       var tenantId := HeaderTenant(msg);
       outbox.posts == old(outbox.posts) +
         NotifyPosts(NotifyURL(old(cache.entries), cache.readable, store.urls, store.readable, tenantId),
                     outbox.builds, msg.value.order) &&
       cache.entries ==
         NotifyEntries(old(cache.entries), cache.readable, cache.writable, store.urls, store.readable, tenantId) &&
       store.lookups == old(store.lookups) +
         (if CachedURL(old(cache.entries), cache.readable, tenantId) == "" then [tenantId] else [])) &&
    store.urls == old(store.urls)
  }

  /** `Handle`: the decode error is the only error it returns. */
  method Handle(msg: Message, inventory: InventoryService, collection: OrderCollection,
                cache: RedisCache, store: WebhookStore, outbox: HttpOutbox)
    returns (e: Option<HandleError>)
    modifies inventory, collection, cache, store, outbox
    ensures e == if msg.value.Unreadable? then Some(UnmarshalFailed) else None
    ensures Handled(msg, inventory, collection, cache, store, outbox)
  {
    if msg.value.Unreadable? {
      return Some(UnmarshalFailed);
    }
    var order := msg.value.order;
    CheckAndUpdateOrder(order, inventory, collection);
    var tenantId := HeaderTenant(msg);
    if tenantId != "" {
      NotifyTenantWebhook(tenantId, order, cache, store, outbox);
    }
    return None;
  }

  /** `Process`, the entry point the consumer calls, delegates to `Handle`. */
  method Process(msg: Message, inventory: InventoryService, collection: OrderCollection,
                 cache: RedisCache, store: WebhookStore, outbox: HttpOutbox)
    returns (e: Option<HandleError>)
    modifies inventory, collection, cache, store, outbox
    ensures e == if msg.value.Unreadable? then Some(UnmarshalFailed) else None
    ensures Handled(msg, inventory, collection, cache, store, outbox)
  {
    e := Handle(msg, inventory, collection, cache, store, outbox);
  }

  /**
   * A message the one-argument producer builds has no `X-Tenant-ID` header,
   * so handling it updates the status but never notifies a webhook. The
   * order in its value still carries its tenant id; only the header routes
   * a notification.
   */
  lemma ProducedEventsNeverNotify(o: Order)
    ensures BuildMessage(o).value.OrderBody? && HeaderTenant(BuildMessage(o)) == ""
    ensures !Notifies(BuildMessage(o))
  {
    NoTenantHeader(o);
  }
}
