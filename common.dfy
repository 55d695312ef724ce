/**
 * Values shared by every part of the order-ingestion pipeline: optional
 * values, identifiers, the order record and its lifecycle statuses.
 */
module Common {

  datatype Option<T> = None | Some(value: T)

  /**
   * An opaque universally unique identifier, represented by the canonical
   * text that its `String()` method prints.
   */
  datatype Uuid = Uuid(text: string)

  /** The all-zero identifier, the zero value of a UUID field. */
  const NilUuid: Uuid := Uuid("00000000-0000-0000-0000-000000000000")

  /** Lifecycle statuses and the pseudo-status of a failed inventory check. */
  const OnHold: string := "on_hold"
  const NewOrder: string := "new_order"
  const StatusError: string := "error"

  /**
   * The order record as the bulk-intake path builds it. Price is a decimal
   * in the system; only its sign is ever inspected, so it is a `real` here.
   * Timestamps are not modelled.
   */
  datatype Order = Order(
    orderId: Uuid,
    skuId: Uuid,
    hubId: Uuid,
    sellerId: Uuid,
    tenantId: Uuid,
    quantity: int,
    price: real,
    status: string)

  /** A CSV row after the reader's sanitisers ran: one string per column. */
  type Row = seq<string>
}
