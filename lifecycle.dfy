/**
 * The order lifecycle helpers: the inventory check that moves an order out
 * of `on_hold`, the targeted status write, the on-hold query the retry sweep
 * starts from, the filter of the order listing, and the catalog check of a
 * SKU and a hub.
 */
module Lifecycle {
  import opened Common
  import opened OrderStore

  /**
   * The inventory reply as `json.Unmarshal` into the `available` struct sees
   * it: `Fail` when it does not decode into the struct (not JSON, or a field
   * of the wrong type), or an object whose `available` is absent or `null`
   * (`Obj(None)`) or a boolean.
   */
  datatype Parsed = Fail | Obj(available: Option<bool>)

  /**
   * `EvaluateInventoryResponse`: an unparseable body is an error, an
   * explicit `available: true` makes a new order, and anything else,
   * a missing or null field included, keeps the order on hold.
   */
  function EvaluateInventoryResponse(body: Parsed): (status: string)
    ensures status == StatusError <==> body.Fail?
    ensures status == NewOrder <==> body == Obj(Some(true))
    ensures status == OnHold <==> body.Obj? && body.available != Some(true)
  {
    match body
    case Fail => StatusError
    case Obj(available) => if available == Some(true) then NewOrder else OnHold
  }

  /** The `POST /inventory/check-and-update` request for an order. */
  datatype InventoryRequest = InventoryRequest(skuId: Uuid, hubId: Uuid, quantity: int)

  function RequestFor(o: Order): InventoryRequest {
    InventoryRequest(o.skuId, o.hubId, o.quantity)
  }

  /** The inventory service: the body it answers each request with, `None` for a failed call. */
  class InventoryService {
    const reply: InventoryRequest -> Option<Parsed>
    var requests: seq<InventoryRequest>

    constructor(reply: InventoryRequest -> Option<Parsed>)
      ensures this.reply == reply && requests == []
    {
      this.reply := reply;
      requests := [];
    }

    method Send(req: InventoryRequest) returns (body: Option<Parsed>)
      modifies this
      ensures body == reply(req)
      ensures requests == old(requests) + [req]
    {
      requests := requests + [req];
      body := reply(req);
    }
  }

  /**
   * `CheckOrder` on the reply to the request: a failed call is an error,
   * otherwise the reply body is evaluated, so the result is one of the
   * three statuses.
   */
  function CheckOutcome(reply: Option<Parsed>): (status: string)
    ensures status == StatusError || status == NewOrder || status == OnHold
    ensures status == StatusError <==> reply.None? || reply == Some(Fail)
    ensures status == NewOrder <==> reply == Some(Obj(Some(true)))
  {
    match reply
    case None => StatusError
    case Some(body) => EvaluateInventoryResponse(body)
  }

  method CheckOrder(o: Order, inventory: InventoryService) returns (status: string)
    modifies inventory
    ensures status == CheckOutcome(inventory.reply(RequestFor(o)))
    ensures inventory.requests == old(inventory.requests) + [RequestFor(o)]
  {
    var body := inventory.Send(RequestFor(o));
    if body.None? {
      return StatusError;
    }
    status := EvaluateInventoryResponse(body.value);
  }

  /** A failed status write: the collection is unreachable or the update is refused. */
  datatype StoreError = StoreError

  /** `UpdateOrderStatus`: one update by order id that sets the status and nothing else. */
  method UpdateOrderStatus(id: Uuid, status: string, collection: OrderCollection) returns (e: Option<StoreError>)
    modifies collection
    ensures e.None? <==> collection.updateAccepts
    ensures collection.docs == if e.None? then SetStatus(old(collection.docs), id, status) else old(collection.docs)
    ensures collection.updates == old(collection.updates) + [StatusUpdate(id, status)]
  {
    var ok := collection.UpdateOne(id, status);
    e := if ok then None else Some(StoreError);
  }

  /** The documents after `CheckAndUpdateOrder` of `o` with the given inventory reply. */
  function CheckAndUpdateDocs(docs: seq<Document>, o: Order, reply: Option<Parsed>, updateAccepts: bool): seq<Document> {
    var status := CheckOutcome(reply);
    if status == StatusError || !updateAccepts then docs else SetStatus(docs, o.orderId, status)
  }

  /** The status updates `CheckAndUpdateOrder` of `o` issues: none on an error, else exactly one. */
  function CheckAndUpdateCalls(o: Order, reply: Option<Parsed>): (r: seq<StatusUpdate>)
    ensures |r| <= 1
    ensures |r| == 1 <==> CheckOutcome(reply) != StatusError
    ensures |r| == 1 ==> r[0].orderId == o.orderId && (r[0].status == NewOrder || r[0].status == OnHold)
  {
    var status := CheckOutcome(reply);
    if status == StatusError then [] else [StatusUpdate(o.orderId, status)]
  }

  /** `CheckAndUpdateOrder`: check the inventory; on an error write nothing, else update the status. */
  method CheckAndUpdateOrder(o: Order, inventory: InventoryService, collection: OrderCollection)
    modifies inventory, collection
    ensures inventory.requests == old(inventory.requests) + [RequestFor(o)]
    ensures collection.docs ==
              CheckAndUpdateDocs(old(collection.docs), o, inventory.reply(RequestFor(o)), collection.updateAccepts)
    ensures collection.updates == old(collection.updates) + CheckAndUpdateCalls(o, inventory.reply(RequestFor(o)))
  {
    var status := CheckOrder(o, inventory);
    if status == StatusError {
      return;
    }
    var e := UpdateOrderStatus(o.orderId, status, collection);
  }

  /** An inventory error leaves every document as it was. */
  lemma ErrorWritesNothing(docs: seq<Document>, o: Order, reply: Option<Parsed>, updateAccepts: bool)
    requires CheckOutcome(reply) == StatusError
    ensures CheckAndUpdateDocs(docs, o, reply, updateAccepts) == docs
  {
  }

  /**
   * A check-and-update changes at most the status of the first document
   * with the order's id, and writes only `new_order` or `on_hold`.
   */
  lemma CheckAndUpdateTargets(docs: seq<Document>, o: Order, reply: Option<Parsed>, updateAccepts: bool, j: nat)
    requires j < |docs|
    ensures var r := CheckAndUpdateDocs(docs, o, reply, updateAccepts);
            |r| == |docs| &&
            r[j].decodes == docs[j].decodes && r[j].order.(status := docs[j].order.status) == docs[j].order &&
            (r[j] != docs[j] ==> FirstMatch(docs, o.orderId) == Some(j) &&
                                 (r[j].order.status == NewOrder || r[j].order.status == OnHold))
  {
  }

  /** The query failed. */
  datatype QueryError = QueryError

  /**
   * `GetOnHoldOrders`: the on-hold documents that decode, in store order;
   * a document that does not decode is skipped, and a failed query is an
   * error with no orders. The cursor's own error is never checked: when
   * `Next` fails part-way, the orders read so far come back with no error.
   */
  method GetOnHoldOrders(collection: OrderCollection) returns (orders: seq<Order>, e: Option<QueryError>)
    ensures e.None? <==> collection.findAccepts
    ensures e.None? ==> orders == FetchedOnHold(collection.docs, collection.cursorCut)
    ensures e.None? ==> orders <= OnHoldOrders(collection.docs)
    ensures e.None? && collection.cursorCut >= |collection.docs| ==> orders == OnHoldOrders(collection.docs)
    ensures e.Some? ==> orders == []
  {
    if !collection.findAccepts {
      return [], Some(QueryError);
    }
    var docs := collection.docs;
    var n := if collection.cursorCut < |docs| then collection.cursorCut else |docs|;
    orders := [];
    var i := 0;
    while i < n
      invariant 0 <= i <= n
      invariant orders == OnHoldOrders(docs[..i])
    {
      assert docs[..i + 1][..i] == docs[..i];
      var d := docs[i];
      if d.order.status == OnHold && d.decodes {
        orders := orders + [d.order];
      }
      i := i + 1;
    }
    FetchedIsPrefix(docs, collection.cursorCut);
    return orders, None;
  }

  /** A point in time; `sinceZero == 0` is Go's zero time. */
  datatype Time = Time(sinceZero: int)

  predicate IsZero(t: Time) {
    t.sinceZero == 0
  }

  /** A value of the listing filter. */
  datatype FilterValue = IdValue(id: Uuid) | TextValue(text: string) | Range(bounds: map<string, Time>)

  /** The filter `FetchOrders` builds, one insertion per criterion given. */
  method FetchFilter(sellerId: Uuid, status: string, start: Time, end: Time) returns (filter: map<string, FilterValue>)
    ensures "seller_id" in filter <==> sellerId != NilUuid
    ensures "seller_id" in filter ==> filter["seller_id"] == IdValue(sellerId)
    ensures "status" in filter <==> status != ""
    ensures "status" in filter ==> filter["status"] == TextValue(status)
    ensures "created_at" in filter <==> !IsZero(start) || !IsZero(end)
    ensures "created_at" in filter ==>
              filter["created_at"].Range? &&
              ("$gte" in filter["created_at"].bounds <==> !IsZero(start)) &&
              ("$gte" in filter["created_at"].bounds ==> filter["created_at"].bounds["$gte"] == start) &&
              ("$lte" in filter["created_at"].bounds <==> !IsZero(end)) &&
              ("$lte" in filter["created_at"].bounds ==> filter["created_at"].bounds["$lte"] == end) &&
              filter["created_at"].bounds.Keys <= {"$gte", "$lte"}
    ensures filter.Keys <= {"seller_id", "status", "created_at"}
  {
    filter := map[];
    if sellerId != NilUuid {
      filter := filter["seller_id" := IdValue(sellerId)];
    }
    if status != "" {
      filter := filter["status" := TextValue(status)];
    }
    if !IsZero(start) || !IsZero(end) {
      var dateRange: map<string, Time> := map[];
      if !IsZero(start) {
        dateRange := dateRange["$gte" := start];
      }
      if !IsZero(end) {
        dateRange := dateRange["$lte" := end];
      }
      filter := filter["created_at" := Range(dateRange)];
    }
  }

  /** A catalog `GET` request and the tenant header it carries. */
  datatype CatalogRequest = CatalogRequest(uri: string, tenantHeader: string)

  /**
   * The catalog client: whether a request builds, and the status code it is
   * answered with, `None` for a transport error.
   */
  datatype CatalogClient = CatalogClient(builds: CatalogRequest -> bool, status: CatalogRequest -> Option<int>)

  /** A request that did not build. */
  datatype BuildError = BuildError

  /** What `ValidateSKUAndHubs` returns, and the requests it sent, in order. */
  datatype CatalogVerdict = CatalogVerdict(valid: bool, err: Option<BuildError>, sent: seq<CatalogRequest>)

  function SkuRequest(skuId: Uuid, tenantId: Uuid): CatalogRequest {
    CatalogRequest("/skus/" + skuId.text, tenantId.text)
  }

  function HubRequest(hubId: Uuid, tenantId: Uuid): CatalogRequest {
    CatalogRequest("/hubs/" + hubId.text, tenantId.text)
  }

  predicate Answers200(client: CatalogClient, req: CatalogRequest) {
    client.builds(req) && client.status(req) == Some(200)
  }

  /**
   * `ValidateSKUAndHubs`: the SKU, then the hub. Valid exactly when both
   * answer 200; the hub is not asked when the SKU check fails; a request
   * that does not build is an error, a failed or non-200 answer is not.
   */
  function ValidateSKUAndHubs(skuId: Uuid, hubId: Uuid, tenantId: Uuid, client: CatalogClient): (v: CatalogVerdict)
    ensures v.valid <==> Answers200(client, SkuRequest(skuId, tenantId)) && Answers200(client, HubRequest(hubId, tenantId))
    ensures v.err.Some? <==>
              !client.builds(SkuRequest(skuId, tenantId)) ||
              (Answers200(client, SkuRequest(skuId, tenantId)) && !client.builds(HubRequest(hubId, tenantId)))
    ensures v.valid ==> v.err.None?
    ensures HubRequest(hubId, tenantId) in v.sent ==> Answers200(client, SkuRequest(skuId, tenantId))
    ensures forall r :: r in v.sent ==> client.builds(r) && r.tenantHeader == tenantId.text
    ensures |v.sent| <= 2
    ensures !client.builds(SkuRequest(skuId, tenantId)) ==> v.sent == []
    ensures client.builds(SkuRequest(skuId, tenantId)) ==> |v.sent| >= 1 && v.sent[0] == SkuRequest(skuId, tenantId)
    ensures v.sent == [SkuRequest(skuId, tenantId), HubRequest(hubId, tenantId)] <==>
              Answers200(client, SkuRequest(skuId, tenantId)) && client.builds(HubRequest(hubId, tenantId))
  {
    var sku := SkuRequest(skuId, tenantId);
    var hub := HubRequest(hubId, tenantId);
    assert sku.uri[1] != hub.uri[1];
    if !client.builds(sku) then CatalogVerdict(false, Some(BuildError), [])
    else if client.status(sku) != Some(200) then CatalogVerdict(false, None, [sku])
    else if !client.builds(hub) then CatalogVerdict(false, Some(BuildError), [sku])
    else if client.status(hub) != Some(200) then CatalogVerdict(false, None, [sku, hub])
    else CatalogVerdict(true, None, [sku, hub])
  }
}
