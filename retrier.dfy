/**
 * The retry sweep: fetch the on-hold orders and run the inventory check and
 * status update on each of them in turn.
 */
module Retrier {
  import opened Common
  import opened OrderStore
  import opened Lifecycle

  /** The documents after checking and updating each order of the list in turn. */
  function Sweep(docs: seq<Document>, orders: seq<Order>, reply: InventoryRequest -> Option<Parsed>,
                 updateAccepts: bool): (r: seq<Document>)
    ensures |r| == |docs|
  {
    if |orders| == 0 then docs
    else
      var last := orders[|orders| - 1];
      CheckAndUpdateDocs(Sweep(docs, orders[..|orders| - 1], reply, updateAccepts), last,
                         reply(RequestFor(last)), updateAccepts)
  }

  /** The inventory requests of a sweep: one per order, in list order. */
  function Requests(orders: seq<Order>): (r: seq<InventoryRequest>)
    ensures |r| == |orders|
  {
    if |orders| == 0 then []
    else Requests(orders[..|orders| - 1]) + [RequestFor(orders[|orders| - 1])]
  }

  /** Each order of the sweep is checked exactly once, at its own place in the list. */
  lemma {:induction false} EachOrderCheckedOnce(orders: seq<Order>)
    ensures forall i :: 0 <= i < |orders| ==> Requests(orders)[i] == RequestFor(orders[i])
  {
    if |orders| > 0 {
      var init := orders[..|orders| - 1];
      EachOrderCheckedOnce(init);
      assert forall i :: 0 <= i < |init| ==> orders[i] == init[i];
    }
  }

  /** The status updates of a sweep, in list order. */
  function SweepCalls(orders: seq<Order>, reply: InventoryRequest -> Option<Parsed>): seq<StatusUpdate> {
    if |orders| == 0 then []
    else
      var last := orders[|orders| - 1];
      SweepCalls(orders[..|orders| - 1], reply) + CheckAndUpdateCalls(last, reply(RequestFor(last)))
  }

  /** One more order at the end of a sweep. */
  lemma SweepSnoc(docs: seq<Document>, orders: seq<Order>, o: Order,
                  reply: InventoryRequest -> Option<Parsed>, updateAccepts: bool)
    ensures Sweep(docs, orders + [o], reply, updateAccepts) ==
            CheckAndUpdateDocs(Sweep(docs, orders, reply, updateAccepts), o, reply(RequestFor(o)), updateAccepts)
    ensures SweepCalls(orders + [o], reply) == SweepCalls(orders, reply) + CheckAndUpdateCalls(o, reply(RequestFor(o)))
    ensures Requests(orders + [o]) == Requests(orders) + [RequestFor(o)]
  {
    assert (orders + [o])[..|orders|] == orders;
  }

  /** The sweep over the first `i + 1` orders, on top of what came before it. */
  lemma SweepStep(docs: seq<Document>, updates: seq<StatusUpdate>, requests: seq<InventoryRequest>,
                  orders: seq<Order>, i: nat, reply: InventoryRequest -> Option<Parsed>, updateAccepts: bool)
    requires i < |orders|
    ensures Sweep(docs, orders[..i + 1], reply, updateAccepts) ==
            CheckAndUpdateDocs(Sweep(docs, orders[..i], reply, updateAccepts), orders[i],
                               reply(RequestFor(orders[i])), updateAccepts)
    ensures updates + SweepCalls(orders[..i + 1], reply) ==
            updates + SweepCalls(orders[..i], reply) + CheckAndUpdateCalls(orders[i], reply(RequestFor(orders[i])))
    ensures requests + Requests(orders[..i + 1]) == requests + Requests(orders[..i]) + [RequestFor(orders[i])]
  {
    assert orders[..i + 1] == orders[..i] + [orders[i]];
    SweepSnoc(docs, orders[..i], orders[i], reply, updateAccepts);
  }

  /**
   * `processOnHoldOrders`: a failed fetch touches nothing; otherwise every
   * fetched order gets one check-and-update, in order, whatever became of
   * the ones before it. The fetched orders are those the cursor read before
   * it failed, if it did.
   */
  method ProcessOnHoldOrders(inventory: InventoryService, collection: OrderCollection)
    modifies inventory, collection
    ensures !collection.findAccepts ==>
              collection.docs == old(collection.docs) && collection.updates == old(collection.updates) &&
              inventory.requests == old(inventory.requests)
    ensures collection.findAccepts ==>
              var orders := FetchedOnHold(old(collection.docs), collection.cursorCut);
              collection.docs == Sweep(old(collection.docs), orders, inventory.reply, collection.updateAccepts) &&
              collection.updates == old(collection.updates) + SweepCalls(orders, inventory.reply) &&
              inventory.requests == old(inventory.requests) + Requests(orders)
  {
    var orders, e := GetOnHoldOrders(collection);
    if e.Some? {
      return;
    }
    var i := 0;
    assert orders[..i] == [];
    while i < |orders|
      invariant 0 <= i <= |orders|
      invariant collection.docs == Sweep(old(collection.docs), orders[..i], inventory.reply, collection.updateAccepts)
      invariant collection.updates == old(collection.updates) + SweepCalls(orders[..i], inventory.reply)
      invariant inventory.requests == old(inventory.requests) + Requests(orders[..i])
    {
      SweepStep(old(collection.docs), old(collection.updates), old(inventory.requests), orders, i,
                inventory.reply, collection.updateAccepts);
      CheckAndUpdateOrder(orders[i], inventory, collection);
      i := i + 1;
    }
    assert orders[..i] == orders;
  }

  /**
   * A sweep deletes nothing and changes only statuses, and every status it
   * writes is `new_order` or `on_hold`.
   */
  lemma {:induction false} SweepChangesOnlyStatus(docs: seq<Document>, orders: seq<Order>,
                                                  reply: InventoryRequest -> Option<Parsed>, updateAccepts: bool)
    ensures var r := Sweep(docs, orders, reply, updateAccepts);
            forall j :: 0 <= j < |docs| ==>
              r[j].decodes == docs[j].decodes && r[j].order.(status := docs[j].order.status) == docs[j].order &&
              (r[j].order.status == docs[j].order.status || r[j].order.status == NewOrder || r[j].order.status == OnHold)
  {
    if |orders| > 0 {
      var init := orders[..|orders| - 1];
      var last := orders[|orders| - 1];
      SweepChangesOnlyStatus(docs, init, reply, updateAccepts);
      var mid := Sweep(docs, init, reply, updateAccepts);
      forall j | 0 <= j < |docs|
        ensures var r := Sweep(docs, orders, reply, updateAccepts);
                r[j].decodes == docs[j].decodes && r[j].order.(status := docs[j].order.status) == docs[j].order &&
                (r[j].order.status == docs[j].order.status || r[j].order.status == NewOrder ||
                 r[j].order.status == OnHold)
      {
        CheckAndUpdateTargets(mid, last, reply(RequestFor(last)), updateAccepts, j);
      }
    }
  }

  /** Every order on hold before a sweep is on hold or a new order after it. */
  lemma OnHoldSettles(docs: seq<Document>, cut: nat, reply: InventoryRequest -> Option<Parsed>,
                      updateAccepts: bool, j: nat)
    requires j < |docs| && docs[j].order.status == OnHold
    ensures var r := Sweep(docs, FetchedOnHold(docs, cut), reply, updateAccepts);
            r[j].order.status == OnHold || r[j].order.status == NewOrder
  {
    SweepChangesOnlyStatus(docs, FetchedOnHold(docs, cut), reply, updateAccepts);
  }

  /** A document whose id no order of the sweep carries is left as it was. */
  lemma {:induction false} SweepSkips(docs: seq<Document>, orders: seq<Order>,
                                      reply: InventoryRequest -> Option<Parsed>, updateAccepts: bool, j: nat)
    requires j < |docs|
    requires forall o :: o in orders ==> o.orderId != docs[j].order.orderId
    ensures j < |Sweep(docs, orders, reply, updateAccepts)| && Sweep(docs, orders, reply, updateAccepts)[j] == docs[j]
  {
    SweepChangesOnlyStatus(docs, orders, reply, updateAccepts);
    if |orders| > 0 {
      var init := orders[..|orders| - 1];
      var last := orders[|orders| - 1];
      assert forall o :: o in init ==> o in orders;
      SweepSkips(docs, init, reply, updateAccepts, j);
      var mid := Sweep(docs, init, reply, updateAccepts);
      CheckAndUpdateTargets(mid, last, reply(RequestFor(last)), updateAccepts, j);
    }
  }

  /**
   * With unique order ids, a sweep never writes a document that is not an
   * on-hold document that decodes.
   */
  lemma UniqueIdsSweepOnlyOnHold(docs: seq<Document>, cut: nat, reply: InventoryRequest -> Option<Parsed>,
                                 updateAccepts: bool, j: nat)
    requires UniqueIds(docs) && j < |docs|
    requires !(docs[j].decodes && docs[j].order.status == OnHold)
    ensures Sweep(docs, FetchedOnHold(docs, cut), reply, updateAccepts)[j] == docs[j]
  {
    var read := CursorRead(docs, cut);
    var orders := FetchedOnHold(docs, cut);
    forall o | o in orders
      ensures o.orderId != docs[j].order.orderId
    {
      var k :| 0 <= k < |orders| && orders[k] == o;
      assert Document(o, true) in read;
      var m :| 0 <= m < |read| && read[m] == Document(o, true);
      assert docs[m] == read[m];
      assert m != j;
    }
    SweepSkips(docs, orders, reply, updateAccepts, j);
  }

  /**
   * A document is left as it was when every swept order's id is already
   * carried by some document before it: a sweep keeps the ids, so each
   * targeted update lands there first.
   */
  lemma {:induction false} SweepBelow(docs: seq<Document>, orders: seq<Order>,
                                      reply: InventoryRequest -> Option<Parsed>, updateAccepts: bool, j: nat)
    requires j < |docs|
    requires forall o :: o in orders ==> exists m :: 0 <= m < j && docs[m].order.orderId == o.orderId
    ensures j < |Sweep(docs, orders, reply, updateAccepts)| && Sweep(docs, orders, reply, updateAccepts)[j] == docs[j]
  {
    if |orders| > 0 {
      var init := orders[..|orders| - 1];
      var last := orders[|orders| - 1];
      assert forall o :: o in init ==> o in orders;
      SweepBelow(docs, init, reply, updateAccepts, j);
      var mid := Sweep(docs, init, reply, updateAccepts);
      SweepChangesOnlyStatus(docs, init, reply, updateAccepts);
      assert last in orders;
      var m :| 0 <= m < j && docs[m].order.orderId == last.orderId;
      assert mid[m].order.orderId == docs[m].order.orderId;
      assert FirstMatch(mid, last.orderId) != Some(j);
      CheckAndUpdateTargets(mid, last, reply(RequestFor(last)), updateAccepts, j);
    }
  }

  /**
   * The documents past the point where the cursor failed are left as they
   * were, duplicate ids or not: an on-hold order there stays on hold until
   * a later sweep.
   */
  lemma UnreadLeftAlone(docs: seq<Document>, cut: nat, reply: InventoryRequest -> Option<Parsed>,
                        updateAccepts: bool, j: nat)
    requires cut <= j < |docs|
    ensures Sweep(docs, FetchedOnHold(docs, cut), reply, updateAccepts)[j] == docs[j]
  {
    var read := CursorRead(docs, cut);
    var orders := FetchedOnHold(docs, cut);
    forall o | o in orders
      ensures exists m :: 0 <= m < j && docs[m].order.orderId == o.orderId
    {
      var k :| 0 <= k < |orders| && orders[k] == o;
      assert Document(o, true) in read;
      var m :| 0 <= m < |read| && read[m] == Document(o, true);
      assert docs[m] == read[m] && m < j;
    }
    SweepBelow(docs, orders, reply, updateAccepts, j);
  }

  /**
   * Without unique ids the sweep can rewrite a settled order: the update by
   * the id of an on-hold copy lands on an earlier document with the same
   * id, here a new order put back on hold.
   */
  lemma DuplicateIdsRewriteSettledOrder()
    ensures var settled := Order(Uuid("1"), Uuid("2"), Uuid("3"), Uuid("4"), Uuid("5"), 1, 1.0, NewOrder);
            var docs := [Document(settled, true), Document(settled.(status := OnHold), true)];
            var reply := (r: InventoryRequest) => Some(Obj(Some(false)));
            docs[0].order.status == NewOrder &&
            Sweep(docs, FetchedOnHold(docs, 2), reply, true)[0].order.status == OnHold
  {
    var settled := Order(Uuid("1"), Uuid("2"), Uuid("3"), Uuid("4"), Uuid("5"), 1, 1.0, NewOrder);
    var held := settled.(status := OnHold);
    var docs := [Document(settled, true), Document(held, true)];
    var reply := (r: InventoryRequest) => Some(Obj(Some(false)));
    assert CursorRead(docs, 2) == docs;
    assert docs[..1] == [Document(settled, true)];
    assert OnHoldOrders(docs[..1]) == [];
    assert OnHoldOrders(docs) == [held];
    assert [held][..0] == [];
    assert FirstMatch(docs, held.orderId) == Some(0);
  }
}
