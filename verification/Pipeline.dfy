/**
 * What happens to an acceptance on its way to the email: snapshot, stored payload, wire
 * message, command. JSON and protobuf are injective encodings here, so each stage is the
 * record they encode.
 */
module Pipeline {
  import opened Collections
  import opened Skus
  import opened Canonical
  import opened OrderDomain
  import opened OrderRows
  import opened Notifications

  datatype EventLine = EventLine(productSku: Sku, quantity: int64, unitPrice: Money)

  datatype Event = Event(
    id: string, orderId: string, occurredAt: Time, email: string, total: Money, lines: seq<EventLine>)

  datatype PayloadLine = PayloadLine(productSku: Sku, quantity: int64, unitAmountInCents: int64, currency: string)

  datatype Payload = Payload(
    occurredAt: Time, email: string, totalAmountInCents: int64, currency: string, lines: seq<PayloadLine>)

  datatype WireMoney = WireMoney(amountInMinorUnits: int64, currency: string)

  datatype WireLine = WireLine(productSku: Sku, quantity: int32, unitPrice: Option<WireMoney>)

  /** Every field of the wire message may be absent; numbers and strings then read as zero. */
  datatype Wire = Wire(
    eventId: string, orderId: string, occurredAt: Option<Time>, email: string, total: Option<WireMoney>,
    lines: seq<Option<WireLine>>)

  datatype Decoded = Decoded(command: Command) | Undecodable(field: string)

  /** Go's conversion of a 64-bit integer to 32 bits: the low bits, read as a signed number. */
  function ToInt32(n: int64): int32
  {
    var low := n as int % 0x1_0000_0000;
    (if low < 0x8000_0000 then low else low - 0x1_0000_0000) as int32
  }

  lemma ToInt32Exact(n: int64)
    ensures ToInt32(n) as int == n as int <==> -0x8000_0000 <= n as int < 0x8000_0000
  {
  }

  // ----- the stages

  function EventLineOf(item: OrderItem): EventLine { EventLine(item.productSku, item.quantity, item.unitPrice) }

  /** The snapshot of an order that has just been accepted. */
  function EventOf(id: string, order: OrderData): Event
  {
    Event(id, order.id, order.updatedAt, order.email, order.total, Mapped(EventLineOf, order.items))
  }

  function PayloadLineOf(line: EventLine): PayloadLine
  {
    PayloadLine(line.productSku, line.quantity, line.unitPrice.amountInCents, line.unitPrice.currency)
  }

  function PayloadOf(event: Event): Payload
  {
    Payload(event.occurredAt, event.email, event.total.amountInCents, event.total.currency,
            Mapped(PayloadLineOf, event.lines))
  }

  function StoredLineOf(line: PayloadLine): EventLine
  {
    EventLine(line.productSku, line.quantity, Money(line.unitAmountInCents, line.currency))
  }

  /** The event read back from storage; an incomplete payload is no event. */
  function EventFrom(id: string, orderId: string, payload: Payload): Option<Event>
  {
    if payload.lines == [] || payload.email == "" || payload.occurredAt == ZERO_TIME then None
    else Some(Event(id, orderId, payload.occurredAt, payload.email, Money(payload.totalAmountInCents, payload.currency),
                    Mapped(StoredLineOf, payload.lines)))
  }

  function WireMoneyOf(money: Money): Option<WireMoney> { Some(WireMoney(money.amountInCents, money.currency)) }

  function WireLineOf(line: EventLine): Option<WireLine>
  {
    Some(WireLine(line.productSku, ToInt32(line.quantity), WireMoneyOf(line.unitPrice)))
  }

  function WireOf(event: Event): Wire
  {
    Wire(event.id, event.orderId, Some(event.occurredAt), event.email, WireMoneyOf(event.total),
         Mapped(WireLineOf, event.lines))
  }

  // ----- the consumer

  predicate LineAccepted(line: Option<WireLine>)
  {
    line.Some? && Trim(line.value.productSku) != "" && line.value.quantity > 0 && line.value.unitPrice.Some?
    && CurrencySupported(line.value.unitPrice.value.currency) && line.value.unitPrice.value.amountInMinorUnits >= 0
  }

  predicate LinesAccepted(lines: seq<Option<WireLine>>)
  {
    forall i {:trigger LineAccepted(lines[i])} :: 0 <= i < |lines| ==> LineAccepted(lines[i])
  }

  function CommandFrom(wire: Wire, parse: AddressParser): Decoded
  {
    if Trim(wire.eventId) == "" then Undecodable("event_id")
    else if Trim(wire.orderId) == "" then Undecodable("order_id")
    else if parse(Trim(wire.email)).None? then Undecodable("customer_email")
    else if wire.total.None? || !CurrencySupported(wire.total.value.currency) || wire.total.value.amountInMinorUnits < 0
      then Undecodable("total_amount")
    else if wire.occurredAt.None? || wire.occurredAt.value == ZERO_TIME then Undecodable("occurred_at")
    else if wire.lines == [] || !LinesAccepted(wire.lines) then Undecodable("lines")
    else Decoded(Command(wire.eventId, wire.orderId, Trim(wire.email), wire.total.value.amountInMinorUnits as int,
                         wire.total.value.currency, wire.occurredAt.value))
  }

  /** The envelope and the body have to agree about which event this is. */
  function Decode(messageId: string, wire: Wire, parse: AddressParser): Decoded
  {
    var decoded := CommandFrom(wire, parse);
    if decoded.Decoded? && messageId != "" && messageId != decoded.command.event then Undecodable("message_id")
    else decoded
  }

  /**
   * What a decoded command is worth: it says what the message says, for an address that
   * parses, an amount that is not negative and a currency that is known.
   */
  lemma DecodedMeans(messageId: string, wire: Wire, parse: AddressParser)
    requires Decode(messageId, wire, parse).Decoded?
    ensures var command := Decode(messageId, wire, parse).command;
            && command.event == wire.eventId && Trim(command.event) != "" && (messageId == "" || messageId == command.event)
            && command.order == wire.orderId && Trim(command.order) != ""
            && command.email == Trim(wire.email) && parse(command.email).Some?
            && wire.total.Some? && command.amount == wire.total.value.amountInMinorUnits as int >= 0
            && command.currency == wire.total.value.currency && CurrencySupported(command.currency)
            && wire.occurredAt == Some(command.occurredAt) && command.occurredAt != ZERO_TIME
            && wire.lines != [] && LinesAccepted(wire.lines)
  {
  }

  // ----- end to end

  /** The order fits its table: quantities are stored as 32-bit integers. */
  predicate FitsSchema(order: OrderData)
  {
    forall i :: 0 <= i < |order.items| ==> order.items[i].quantity as int < 0x8000_0000
  }

  /** The event is stored and read back without loss. */
  lemma StoredEventComesBack(event: Event)
    requires event.lines != [] && event.email != "" && event.occurredAt != ZERO_TIME
    ensures forall orderId :: EventFrom(event.id, orderId, PayloadOf(event)) == Some(event.(orderId := orderId))
  {
    assert Mapped(StoredLineOf, Mapped(PayloadLineOf, event.lines)) == event.lines;
  }

  lemma SnapshotLines(order: OrderData, i: nat)
    requires i < |order.items| && ItemValid(order.items[i])
    ensures LineAccepted(WireLineOf(EventLineOf(order.items[i]))) <==> ToInt32(order.items[i].quantity) > 0
  {
  }

  /** The consumer's command for an order's stored acceptance. */
  function CommandOf(eventId: string, orderId: string, order: OrderData): Command
  {
    Command(eventId, orderId, order.email, order.total.amountInCents as int, order.total.currency, order.updatedAt)
  }

  function Published(eventId: string, orderId: string, order: OrderData): Wire
  {
    WireOf(EventOf(eventId, order).(orderId := orderId))
  }

  lemma TotalIsAcceptable(order: OrderData)
    requires Totalled(order.items) && order.total.amountInCents as int == TrueTotal(order.items)
    ensures order.total.amountInCents >= 0
  {
    forall i | 0 <= i < |order.items| ensures Mapped(LineAmount, order.items)[i] >= 0 {
      assert ItemValid(order.items[i]);
      LineAmountNonNegative(order.items[i]);
    }
    SumNonNegative(Mapped(LineAmount, order.items));
  }

  /**
   * Every stored acceptance of a valid order decodes, with the same ids, email, amount and
   * currency, exactly when no quantity wraps below one on the way to 32 bits.
   */
  lemma AcceptanceDecodesExactly(eventId: string, orderId: string, order: OrderData, parse: AddressParser)
    requires OrderValid(order, parse) && Trim(eventId) != "" && Trim(orderId) != ""
    ensures EventFrom(eventId, orderId, PayloadOf(EventOf(eventId, order)))
         == Some(EventOf(eventId, order).(orderId := orderId))
    ensures Decode(eventId, Published(eventId, orderId, order), parse) == Decoded(CommandOf(eventId, orderId, order)) <==>
            forall i :: 0 <= i < |order.items| ==> ToInt32(order.items[i].quantity) > 0
  {
    StoredEventComesBack(EventOf(eventId, order));
    DecodesExactly(eventId, orderId, order, parse);
  }

  lemma DecodesExactly(eventId: string, orderId: string, order: OrderData, parse: AddressParser)
    requires OrderValid(order, parse) && Trim(eventId) != "" && Trim(orderId) != ""
    ensures Decode(eventId, Published(eventId, orderId, order), parse) == Decoded(CommandOf(eventId, orderId, order)) <==>
            forall i :: 0 <= i < |order.items| ==> ToInt32(order.items[i].quantity) > 0
  {
    var wire := Published(eventId, orderId, order);
    TotalIsAcceptable(order);
    LinesDecodeExactly(order);
    assert wire.lines == Mapped(WireLineOf, Mapped(EventLineOf, order.items));
  }

  lemma LinesDecodeExactly(order: OrderData)
    requires ItemsValid(order.items)
    ensures LinesAccepted(Mapped(WireLineOf, Mapped(EventLineOf, order.items))) <==>
            forall i :: 0 <= i < |order.items| ==> ToInt32(order.items[i].quantity) > 0
  {
    var lines := Mapped(WireLineOf, Mapped(EventLineOf, order.items));
    forall i | 0 <= i < |lines| ensures LineAccepted(lines[i]) <==> ToInt32(order.items[i].quantity) > 0 {
      SnapshotLines(order, i);
    }
  }

  /** An order that fits the schema is never parked as invalid. */
  lemma StoredAcceptanceDecodes(eventId: string, orderId: string, order: OrderData, parse: AddressParser)
    requires OrderValid(order, parse) && FitsSchema(order) && Trim(eventId) != "" && Trim(orderId) != ""
    ensures Decode(eventId, Published(eventId, orderId, order), parse) == Decoded(CommandOf(eventId, orderId, order))
  {
    AcceptanceDecodesExactly(eventId, orderId, order, parse);
    forall i | 0 <= i < |order.items| ensures ToInt32(order.items[i].quantity) > 0 {
      assert ItemValid(order.items[i]);
      ToInt32Exact(order.items[i].quantity);
    }
  }

  // ----- the loops that build the stages

  method NewOrderAcceptedEvent(id: string, order: OrderData) returns (event: Event)
    ensures event == EventOf(id, order)
  {
    var lines: seq<EventLine> := [];
    for i := 0 to |order.items|
      invariant lines == Mapped(EventLineOf, order.items)[..i]
    {
      var item := order.items[i];
      lines := lines + [EventLine(item.productSku, item.quantity, item.unitPrice)];
    }
    event := Event(id, order.id, order.updatedAt, order.email, order.total, lines);
  }

  method PayloadFromEvent(event: Event) returns (payload: Payload)
    ensures payload == PayloadOf(event)
  {
    var lines: seq<PayloadLine> := [];
    for i := 0 to |event.lines|
      invariant lines == Mapped(PayloadLineOf, event.lines)[..i]
    {
      var line := event.lines[i];
      lines := lines + [PayloadLine(line.productSku, line.quantity, line.unitPrice.amountInCents, line.unitPrice.currency)];
    }
    payload := Payload(event.occurredAt, event.email, event.total.amountInCents, event.total.currency, lines);
  }

  method EventFromPayload(id: string, orderId: string, payload: Payload) returns (event: Option<Event>)
    ensures event == EventFrom(id, orderId, payload)
  {
    if |payload.lines| == 0 || payload.email == "" || payload.occurredAt == ZERO_TIME {
      return None;
    }
    var lines: seq<EventLine> := [];
    for i := 0 to |payload.lines|
      invariant lines == Mapped(StoredLineOf, payload.lines)[..i]
    {
      var line := payload.lines[i];
      lines := lines + [EventLine(line.productSku, line.quantity, Money(line.unitAmountInCents, line.currency))];
    }
    assert lines == Mapped(StoredLineOf, payload.lines);
    event := Some(Event(id, orderId, payload.occurredAt, payload.email,
                        Money(payload.totalAmountInCents, payload.currency), lines));
  }

  method ProtoOrderAccepted(event: Event) returns (wire: Wire)
    ensures wire == WireOf(event)
  {
    var lines: seq<Option<WireLine>> := [];
    for i := 0 to |event.lines|
      invariant lines == Mapped(WireLineOf, event.lines)[..i]
    {
      var line := event.lines[i];
      lines := lines + [Some(WireLine(line.productSku, ToInt32(line.quantity), WireMoneyOf(line.unitPrice)))];
    }
    wire := Wire(event.id, event.orderId, Some(event.occurredAt), event.email, WireMoneyOf(event.total), lines);
  }
}
