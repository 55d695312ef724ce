/**
 * The orders collection of the document store: an ordered list of stored
 * documents, the insert the persister uses and the targeted status update
 * of the lifecycle code.
 */
module OrderStore {
  import opened Common

  /**
   * A stored document: the order it holds and whether it decodes back into
   * the order record (documents written by other code may not).
   */
  datatype Document = Document(order: Order, decodes: bool)

  /** Position of the first document whose `order_id` is `id`. */
  function FirstMatch(docs: seq<Document>, id: Uuid): (r: Option<nat>)
    ensures r.Some? ==> r.value < |docs| && docs[r.value].order.orderId == id
    ensures r.Some? ==> forall j :: 0 <= j < r.value ==> docs[j].order.orderId != id
    ensures r.None? <==> forall j :: 0 <= j < |docs| ==> docs[j].order.orderId != id
  {
    if |docs| == 0 then None
    else if docs[0].order.orderId == id then Some(0)
    else match FirstMatch(docs[1..], id)
      case None => None
      case Some(i) => Some(i + 1)
  }

  function WithStatus(d: Document, status: string): Document {
    d.(order := d.order.(status := status))
  }

  /**
   * `UpdateOne({order_id: id}, {$set: {status: status}})`: the first
   * document with that order id, and only that one, gets the new status.
   */
  function SetStatus(docs: seq<Document>, id: Uuid, status: string): (r: seq<Document>)
    ensures |r| == |docs|
    ensures forall j :: 0 <= j < |docs| ==>
              r[j].decodes == docs[j].decodes && r[j].order.(status := docs[j].order.status) == docs[j].order
    ensures forall j :: 0 <= j < |docs| && r[j] != docs[j] ==> FirstMatch(docs, id) == Some(j)
    ensures FirstMatch(docs, id).Some? ==> r[FirstMatch(docs, id).value].order.status == status
    ensures FirstMatch(docs, id).None? ==> r == docs
  {
    match FirstMatch(docs, id)
    case None => docs
    case Some(i) => docs[i := WithStatus(docs[i], status)]
  }

  /** Order ids are pairwise distinct. */
  predicate UniqueIds(docs: seq<Document>) {
    forall i, j :: 0 <= i < j < |docs| ==> docs[i].order.orderId != docs[j].order.orderId
  }

  /** With unique ids, the document at `k` is the one its id selects. */
  lemma FirstMatchUnique(docs: seq<Document>, k: nat)
    requires UniqueIds(docs) && k < |docs|
    ensures FirstMatch(docs, docs[k].order.orderId) == Some(k)
  {
  }

  /** A status update keeps the ids, so unique ids stay unique. */
  lemma SetStatusKeepsUnique(docs: seq<Document>, id: Uuid, status: string)
    requires UniqueIds(docs)
    ensures UniqueIds(SetStatus(docs, id, status))
  {
    var r := SetStatus(docs, id, status);
    forall j | 0 <= j < |docs|
      ensures r[j].order.orderId == docs[j].order.orderId
    {
      assert r[j].order.(status := docs[j].order.status) == docs[j].order;
    }
  }

  /** The documents the `status: on_hold` query yields that decode, in order. */
  function OnHoldOrders(docs: seq<Document>): (r: seq<Order>)
    ensures |r| <= |docs|
    ensures forall i :: 0 <= i < |r| ==> r[i].status == OnHold && Document(r[i], true) in docs
    ensures forall d :: d in docs && d.decodes && d.order.status == OnHold ==> d.order in r
  {
    if |docs| == 0 then []
    else
      var init := OnHoldOrders(docs[..|docs| - 1]);
      var last := docs[|docs| - 1];
      assert docs == docs[..|docs| - 1] + [last];
      if last.decodes && last.order.status == OnHold then init + [last.order] else init
  }

  /**
   * The documents a query cursor reads before its `Next` fails: `cut` is the
   * store position of the failure, and a cut at or past the end means it
   * never fails.
   */
  function CursorRead(docs: seq<Document>, cut: nat): (r: seq<Document>)
    ensures r <= docs
    ensures |r| == if cut < |docs| then cut else |docs|
  {
    docs[..if cut < |docs| then cut else |docs|]
  }

  /** The on-hold orders a successful `Find` hands back when its cursor fails at `cut`. */
  function FetchedOnHold(docs: seq<Document>, cut: nat): seq<Order> {
    OnHoldOrders(CursorRead(docs, cut))
  }

  /** Reading fewer documents yields a prefix of the on-hold orders. */
  lemma {:induction false} OnHoldOrdersPrefix(docs: seq<Document>, n: nat)
    requires n <= |docs|
    ensures OnHoldOrders(docs[..n]) <= OnHoldOrders(docs)
  {
    if n < |docs| {
      var init := docs[..|docs| - 1];
      assert docs[..n] == init[..n];
      OnHoldOrdersPrefix(init, n);
    } else {
      assert docs[..n] == docs;
    }
  }

  /**
   * What a successful query returns is a prefix of the on-hold orders, and
   * all of them when the cursor never fails.
   */
  lemma FetchedIsPrefix(docs: seq<Document>, cut: nat)
    ensures FetchedOnHold(docs, cut) <= OnHoldOrders(docs)
    ensures cut >= |docs| ==> FetchedOnHold(docs, cut) == OnHoldOrders(docs)
  {
    OnHoldOrdersPrefix(docs, if cut < |docs| then cut else |docs|);
    assert cut >= |docs| ==> CursorRead(docs, cut) == docs;
  }

  /** One `UpdateOne` call issued against the collection. */
  datatype StatusUpdate = StatusUpdate(orderId: Uuid, status: string)

  /** The orders collection, with the outcome of each kind of call as its oracle. */
  class OrderCollection {
    var docs: seq<Document>
    /**
     * Every status update attempted, whether or not it succeeded; an attempt
     * whose collection lookup fails is logged too.
     */
    var updates: seq<StatusUpdate>
    /** Whether `InsertOne` of that order succeeds. */
    const insertAccepts: Order -> bool
    /** Whether the collection is reachable and `UpdateOne` succeeds. */
    const updateAccepts: bool
    /** Whether the `Find` query succeeds. */
    const findAccepts: bool
    /** Where the cursor of a successful `Find` fails, as `CursorRead` takes it. */
    const cursorCut: nat

    constructor(docs: seq<Document>, insertAccepts: Order -> bool, updateAccepts: bool, findAccepts: bool,
                cursorCut: nat)
      ensures this.docs == docs && this.insertAccepts == insertAccepts
      ensures this.updateAccepts == updateAccepts && this.findAccepts == findAccepts
      ensures this.cursorCut == cursorCut
      ensures updates == []
    {
      this.docs := docs;
      updates := [];
      this.insertAccepts := insertAccepts;
      this.updateAccepts := updateAccepts;
      this.findAccepts := findAccepts;
      this.cursorCut := cursorCut;
    }

    method InsertOne(o: Order) returns (ok: bool)
      modifies this
      ensures ok == insertAccepts(o)
      ensures docs == old(docs) + (if ok then [Document(o, true)] else [])
      ensures updates == old(updates)
    {
      ok := insertAccepts(o);
      if ok {
        docs := docs + [Document(o, true)];
      }
    }

    method UpdateOne(id: Uuid, status: string) returns (ok: bool)
      modifies this
      ensures ok == updateAccepts
      ensures docs == if ok then SetStatus(old(docs), id, status) else old(docs)
      ensures updates == old(updates) + [StatusUpdate(id, status)]
    {
      updates := updates + [StatusUpdate(id, status)];
      ok := updateAccepts;
      if ok {
        docs := SetStatus(docs, id, status);
      }
    }
  }
}
