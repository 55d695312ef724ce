/**
 * The order validator and persister of the CSV ingestion path: a fixed
 * chain of structural checks, then the inventory master's verdict on the
 * hub and SKU, and the insert that marks a valid order as on hold.
 */
module OrderValidation {
  import opened Common
  import opened OrderStore

  datatype ValidationError =
    | InvalidOrderID
    | InvalidSKUID
    | InvalidHubID
    | InvalidSellerID
    | InvalidTenantID
    | InvalidQuantity
    | InvalidPrice
    | InvalidHubOrSKU

  /** The request to the inventory master's validation endpoint. */
  datatype ImsRequest = ImsRequest(hubId: Uuid, skuId: Uuid)

  /** What the validation call yields: a transport failure or a decoded answer. */
  datatype ImsResponse = CallFailed | Answered(isValid: bool)

  /** `ValidateWithIMS`: fails closed, so a failed call counts as invalid. */
  function ValidateWithIMS(resp: ImsResponse): (valid: bool)
    ensures valid <==> resp == Answered(true)
  {
    match resp
    case CallFailed => false
    case Answered(v) => v
  }

  /** The structural checks of `ValidateOrder`, in their order; the first failure wins. */
  function StructuralError(o: Order): (r: Option<ValidationError>)
    ensures r == Some(InvalidOrderID) <==> o.orderId == NilUuid
    ensures r == Some(InvalidSKUID) <==> o.orderId != NilUuid && o.skuId == NilUuid
    ensures r == Some(InvalidHubID) <==>
              o.orderId != NilUuid && o.skuId != NilUuid && o.hubId == NilUuid
    ensures r == Some(InvalidSellerID) <==>
              o.orderId != NilUuid && o.skuId != NilUuid && o.hubId != NilUuid && o.sellerId == NilUuid
    ensures r == Some(InvalidTenantID) <==>
              o.orderId != NilUuid && o.skuId != NilUuid && o.hubId != NilUuid &&
              o.sellerId != NilUuid && o.tenantId == NilUuid
    ensures r == Some(InvalidQuantity) <==> IdsSet(o) && o.quantity <= 0
    ensures r == Some(InvalidPrice) <==> IdsSet(o) && o.quantity > 0 && o.price < 0.0
    ensures r.None? <==> IdsSet(o) && o.quantity > 0 && o.price >= 0.0
    ensures r != Some(InvalidHubOrSKU)
  {
    if o.orderId == NilUuid then Some(InvalidOrderID)
    else if o.skuId == NilUuid then Some(InvalidSKUID)
    else if o.hubId == NilUuid then Some(InvalidHubID)
    else if o.sellerId == NilUuid then Some(InvalidSellerID)
    else if o.tenantId == NilUuid then Some(InvalidTenantID)
    else if o.quantity <= 0 then Some(InvalidQuantity)
    else if o.price < 0.0 then Some(InvalidPrice)
    else None
  }

  predicate IdsSet(o: Order) {
    o.orderId != NilUuid && o.skuId != NilUuid && o.hubId != NilUuid &&
    o.sellerId != NilUuid && o.tenantId != NilUuid
  }

  /** The error of one validation and the inventory master calls it made. */
  datatype Verdict = Verdict(error: Option<ValidationError>, imsCalls: seq<ImsRequest>)

  /**
   * `ValidateOrder`: the inventory master is asked, once, only after every
   * structural check passed, and the order is valid exactly when it then
   * answers that the hub and SKU are valid.
   */
  function ValidateOrder(o: Order, ims: ImsRequest -> ImsResponse): (v: Verdict)
    ensures StructuralError(o).Some? ==> v == Verdict(StructuralError(o), [])
    ensures StructuralError(o).None? ==> v.imsCalls == [ImsRequest(o.hubId, o.skuId)]
    ensures v.error.None? <==> StructuralError(o).None? && ims(ImsRequest(o.hubId, o.skuId)) == Answered(true)
    ensures StructuralError(o).None? && v.error.Some? ==> v.error == Some(InvalidHubOrSKU)
  {
    match StructuralError(o)
    case Some(e) => Verdict(Some(e), [])
    case None =>
      var req := ImsRequest(o.hubId, o.skuId);
      if ValidateWithIMS(ims(req)) then Verdict(None, [req]) else Verdict(Some(InvalidHubOrSKU), [req])
  }

  /** A quantity of zero is rejected; a price of zero is accepted. */
  lemma BoundaryValues(o: Order)
    requires IdsSet(o)
    ensures o.quantity == 0 ==> StructuralError(o) == Some(InvalidQuantity)
    ensures o.quantity == 1 && o.price == 0.0 ==> StructuralError(o).None?
  {
  }

  /** The structural verdict depends on nothing but the ids, quantity and price. */
  lemma StatusIrrelevant(o: Order, status: string)
    ensures StructuralError(o.(status := status)) == StructuralError(o)
  {
  }

  /** The order record after `saveOrder`, which sets the status through the reference it is given. */
  function OnHoldCopy(o: Order): (s: Order)
    ensures s.status == OnHold && s.(status := o.status) == o
  {
    o.(status := OnHold)
  }

  /** `saveOrder` reports an insert failure. */
  datatype SaveError = InsertFailed

  /**
   * `saveOrder`: the order is marked on hold before the insert; the
   * collection gains that document exactly when the insert succeeds.
   */
  method SaveOrder(o: Order, collection: OrderCollection) returns (saved: Order, e: Option<SaveError>)
    modifies collection
    ensures saved == OnHoldCopy(o)
    ensures e == if collection.insertAccepts(saved) then None else Some(InsertFailed)
    ensures collection.docs == old(collection.docs) + (if e.None? then [Document(saved, true)] else [])
    ensures collection.updates == old(collection.updates)
  {
    saved := o.(status := OnHold);
    var ok := collection.InsertOne(saved);
    e := if ok then None else Some(InsertFailed);
  }

  datatype OrderError = Invalid(reason: ValidationError) | NotSaved(cause: SaveError)

  /**
   * `validateAndSaveOrder`: an order that fails validation is never
   * inserted and its error is returned unchanged.
   */
  method ValidateAndSaveOrder(o: Order, ims: ImsRequest -> ImsResponse, collection: OrderCollection)
    returns (e: Option<OrderError>)
    modifies collection
    ensures ValidateOrder(o, ims).error.Some? ==>
              e == Some(Invalid(ValidateOrder(o, ims).error.value)) && collection.docs == old(collection.docs)
    ensures ValidateOrder(o, ims).error.None? ==>
              (e.None? <==> collection.insertAccepts(OnHoldCopy(o))) &&
              (e.Some? ==> e == Some(NotSaved(InsertFailed))) &&
              collection.docs == old(collection.docs) + (if e.None? then [Document(OnHoldCopy(o), true)] else [])
    ensures collection.updates == old(collection.updates)
  {
    var verdict := ValidateOrder(o, ims);
    if verdict.error.Some? {
      return Some(Invalid(verdict.error.value));
    }
    var saved, se := SaveOrder(o, collection);
    if se.Some? {
      return Some(NotSaved(se.value));
    }
    return None;
  }
}
