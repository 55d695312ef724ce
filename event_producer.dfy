/**
 * The order-created event: its fixed topic, key and headers, and the
 * producer that skips the publish when the order cannot be encoded and
 * panics when the broker refuses it.
 */
module EventProducer {
  import opened Common

  const Topic: string := "order.created"
  const KeyPrefix: string := "order-"
  const TenantHeader: string := "X-Tenant-ID"

  /**
   * A message value: the JSON encoding of an order, or bytes that do not
   * decode into one (which other producers on the topic may send).
   */
  datatype Body = OrderBody(order: Order) | Unreadable

  datatype Message = Message(topic: string, key: string, value: Body, headers: map<string, string>)

  /** The message `PublishOrder` builds for an order that encoded. */
  function BuildMessage(o: Order): (m: Message) {
    Message(Topic, KeyPrefix + o.orderId.text, OrderBody(o), map["source" := "order-service"])
  }

  /**
   * Every event goes to the one topic, is keyed by its order id, carries
   * the whole order and exactly one header, naming the producing service.
   */
  lemma EventFields(o: Order)
    ensures BuildMessage(o).topic == "order.created"
    ensures BuildMessage(o).key == "order-" + o.orderId.text
    ensures BuildMessage(o).value == OrderBody(o)
    ensures BuildMessage(o).headers.Keys == {"source"} && BuildMessage(o).headers["source"] == "order-service"
  {
  }

  /** The message key identifies the order: distinct order ids give distinct keys. */
  lemma KeyIdentifiesOrder(a: Order, b: Order)
    ensures BuildMessage(a).key == BuildMessage(b).key <==> a.orderId == b.orderId
  {
    if BuildMessage(a).key == BuildMessage(b).key {
      var k := BuildMessage(a).key;
      assert a.orderId.text == k[|KeyPrefix|..];
      assert b.orderId.text == k[|KeyPrefix|..];
    }
  }

  /** No event the one-argument producer builds carries an `X-Tenant-ID` header. */
  lemma NoTenantHeader(o: Order)
    ensures TenantHeader !in BuildMessage(o).headers
  {
  }

  /** How one call of `PublishOrder` ends. */
  datatype PublishOutcome =
    | Delivered
    | MarshalFailed   // logged; nothing is published
    | PublishPanicked // the broker refused the message; the call panics

  function PublishOutcomeOf(marshals: bool, accepts: bool): (r: PublishOutcome) {
    if !marshals then MarshalFailed else if !accepts then PublishPanicked else Delivered
  }

  /** The producer, with the encoder and the broker as its oracles. */
  class KafkaProducer {
    /** Whether `json.Marshal` of that order succeeds. */
    const marshals: Order -> bool
    /** Whether the broker accepts a publish. */
    const accepts: bool
    var published: seq<Message>

    constructor(marshals: Order -> bool, accepts: bool)
      ensures this.marshals == marshals && this.accepts == accepts && published == []
    {
      this.marshals := marshals;
      this.accepts := accepts;
      published := [];
    }

    /**
     * `PublishOrder`: a marshal failure returns without publishing; a
     * refused publish panics, so the caller does not go on.
     */
    method PublishOrder(o: Order) returns (outcome: PublishOutcome)
      modifies this
      ensures outcome == PublishOutcomeOf(marshals(o), accepts)
      ensures published == old(published) + (if outcome == Delivered then [BuildMessage(o)] else [])
    {
      if !marshals(o) {
        return MarshalFailed;
      }
      var msg := BuildMessage(o);
      if !accepts {
        return PublishPanicked;
      }
      published := published + [msg];
      return Delivered;
    }
  }

  /** A publish is delivered exactly when both the encoder and the broker succeed. */
  lemma DeliveredIff(marshals: bool, accepts: bool)
    ensures PublishOutcomeOf(marshals, accepts) == Delivered <==> marshals && accepts
    ensures PublishOutcomeOf(marshals, accepts) == PublishPanicked <==> marshals && !accepts
  {
  }
}
