/** A message as it crosses the broker, and the contract both of its ends keep to. */
module Messages {
  import opened Collections
  import opened Pipeline

  const EXCHANGE_ORDERS := "orders"
  const ROUTING_KEY_ORDER_ACCEPTED := "order.accepted.v1"
  const MESSAGE_TYPE_ORDER_ACCEPTED := "order.accepted.v1"
  const CONTENT_TYPE_PROTOBUF := "application/protobuf"

  /** A body that is no protobuf message at all reads as nothing. */
  datatype Message = Message(
    exchange: string, routingKey: string, kind: string, contentType: string, messageId: string, correlationId: string,
    headers: map<string, string>, body: Option<Wire>)

  function MessageFor(event: Event, correlationId: string): Message
  {
    Message(EXCHANGE_ORDERS, ROUTING_KEY_ORDER_ACCEPTED, MESSAGE_TYPE_ORDER_ACCEPTED, CONTENT_TYPE_PROTOBUF,
            event.id, correlationId, map[], Some(WireOf(event)))
  }
}
