/**
 * The older validator kept beside the first CSV ingestion loop. It runs the
 * same chain without the tenant check; the inventory master call and the
 * persister are the same as in the newer one.
 */
module LegacyOrderValidation {
  import opened Common
  import opened OrderValidation

  /** The structural checks without the tenant, in their order. */
  function StructuralError(o: Order): (r: Option<ValidationError>)
    ensures r == Some(InvalidOrderID) <==> o.orderId == NilUuid
    ensures r == Some(InvalidSKUID) <==> o.orderId != NilUuid && o.skuId == NilUuid
    ensures r == Some(InvalidHubID) <==>
              o.orderId != NilUuid && o.skuId != NilUuid && o.hubId == NilUuid
    ensures r == Some(InvalidSellerID) <==>
              o.orderId != NilUuid && o.skuId != NilUuid && o.hubId != NilUuid && o.sellerId == NilUuid
    ensures r == Some(InvalidQuantity) <==> LegacyIdsSet(o) && o.quantity <= 0
    ensures r == Some(InvalidPrice) <==> LegacyIdsSet(o) && o.quantity > 0 && o.price < 0.0
    ensures r.None? <==> LegacyIdsSet(o) && o.quantity > 0 && o.price >= 0.0
    ensures r != Some(InvalidTenantID) && r != Some(InvalidHubOrSKU)
  {
    if o.orderId == NilUuid then Some(InvalidOrderID)
    else if o.skuId == NilUuid then Some(InvalidSKUID)
    else if o.hubId == NilUuid then Some(InvalidHubID)
    else if o.sellerId == NilUuid then Some(InvalidSellerID)
    else if o.quantity <= 0 then Some(InvalidQuantity)
    else if o.price < 0.0 then Some(InvalidPrice)
    else None
  }

  predicate LegacyIdsSet(o: Order) {
    o.orderId != NilUuid && o.skuId != NilUuid && o.hubId != NilUuid && o.sellerId != NilUuid
  }

  /** The older `ValidateOrder`: the same inventory master gate after its checks. */
  function ValidateOrder(o: Order, ims: ImsRequest -> ImsResponse): (v: Verdict)
    ensures StructuralError(o).Some? ==> v == Verdict(StructuralError(o), [])
    ensures StructuralError(o).None? ==> v.imsCalls == [ImsRequest(o.hubId, o.skuId)]
    ensures v.error.None? <==> StructuralError(o).None? && ims(ImsRequest(o.hubId, o.skuId)) == Answered(true)
    ensures StructuralError(o).None? && v.error.Some? ==> v.error == Some(InvalidHubOrSKU)
  {
    match StructuralError(o)
    case Some(e) => Verdict(Some(e), [])
    case None =>
      var req := ImsRequest(o.hubId, o.skuId);
      if ValidateWithIMS(ims(req)) then Verdict(None, [req]) else Verdict(Some(InvalidHubOrSKU), [req])
  }

  /**
   * The two validators agree on every order that carries a tenant; the
   * only orders they disagree on are tenant-less ones whose ids are set,
   * which the newer one rejects for the tenant before any later check.
   */
  lemma AgreesWithTenantCheck(o: Order, ims: ImsRequest -> ImsResponse)
    ensures o.tenantId != NilUuid ==> ValidateOrder(o, ims) == OrderValidation.ValidateOrder(o, ims)
    ensures ValidateOrder(o, ims) != OrderValidation.ValidateOrder(o, ims) ==>
              o.tenantId == NilUuid && LegacyIdsSet(o) &&
              OrderValidation.ValidateOrder(o, ims).error == Some(InvalidTenantID)
  {
  }
}
