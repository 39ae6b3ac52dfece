/**
 * An order as rows and back. UUID parsing and printing are parameters; all that is used
 * of them is that what they print they also read back.
 */
module OrderRows {
  import opened Collections
  import opened Skus
  import opened OrderDomain

  type Uuid = nat

  datatype UuidCodec = UuidCodec(parse: string -> Option<Uuid>, text: Uuid -> string)

  ghost predicate CodecOk(uuids: UuidCodec)
  {
    forall u: Uuid :: uuids.parse(uuids.text(u)) == Some(u) && Trim(uuids.text(u)) != ""
  }

  datatype OrderRow = OrderRow(
    id: Uuid, customerId: Uuid, email: string, status: Status, key: string, totalAmountInCents: int64,
    currency: string, createdAt: Time, updatedAt: Time)

  datatype ItemRow = ItemRow(order: Uuid, lineNumber: int, productSku: Sku, quantity: int64, unitAmountInCents: int64)

  datatype Rows = Rows(order: OrderRow, items: seq<ItemRow>)

  function ItemRowAt(order: Uuid, items: seq<OrderItem>, i: nat): ItemRow
    requires i < |items|
  {
    ItemRow(order, i + 1, items[i].productSku, items[i].quantity, items[i].unitPrice.amountInCents)
  }

  function ItemRows(order: Uuid, items: seq<OrderItem>): seq<ItemRow>
  {
    seq(|items|, i requires 0 <= i < |items| => ItemRowAt(order, items, i))
  }

  function RowsOf(order: OrderData, uuids: UuidCodec): Option<Rows>
  {
    match (uuids.parse(order.id), uuids.parse(order.customerId))
    case (Some(id), Some(customerId)) =>
      Some(Rows(
        OrderRow(id, customerId, order.email, order.status, order.key, order.total.amountInCents, order.total.currency,
                 order.createdAt, order.updatedAt),
        ItemRows(id, order.items)))
    case _ => None
  }

  function ItemOf(row: ItemRow, currency: string): Result<OrderItem>
  {
    NewOrderItem(row.productSku, row.quantity, Money(row.unitAmountInCents, currency))
  }

  /** The stored items, or the error of the first one that is not an item. */
  function ItemsOf(rows: seq<ItemRow>, currency: string): Result<seq<OrderItem>>
  {
    if rows == [] then Ok([])
    else
      match ItemsOf(rows[..|rows| - 1], currency)
      case Err(error) => Err(error)
      case Ok(items) =>
        match ItemOf(rows[|rows| - 1], currency)
        case Err(error) => Err(error)
        case Ok(item) => Ok(items + [item])
  }

  function Reconstituted(row: OrderRow, items: seq<OrderItem>, uuids: UuidCodec): OrderData
  {
    OrderData(uuids.text(row.id), uuids.text(row.customerId), row.email, row.status, row.key, items,
              Money(row.totalAmountInCents, row.currency), row.createdAt, row.updatedAt)
  }

  method RowsFromDomain(order: OrderData, uuids: UuidCodec) returns (rows: Option<Rows>)
    ensures rows == RowsOf(order, uuids)
  {
    var id, customerId := uuids.parse(order.id), uuids.parse(order.customerId);
    if id.None? || customerId.None? {
      return None;
    }
    var items: seq<ItemRow> := [];
    for index := 0 to |order.items|
      invariant items == ItemRows(id.value, order.items)[..index]
    {
      var item := order.items[index];
      items := items + [ItemRow(id.value, index + 1, item.productSku, item.quantity, item.unitPrice.amountInCents)];
    }
    assert ItemRows(id.value, order.items)[..|order.items|] == ItemRows(id.value, order.items);
    rows := Some(Rows(
      OrderRow(id.value, customerId.value, order.email, order.status, order.key, order.total.amountInCents,
               order.total.currency, order.createdAt, order.updatedAt),
      items));
  }

  method DomainFromRows(rows: Rows, uuids: UuidCodec, parse: AddressParser) returns (order: Result<OrderData>)
    ensures order.Ok? ==>
              && ItemsOf(rows.items, rows.order.currency).Ok?
              && order.value == Reconstituted(rows.order, ItemsOf(rows.items, rows.order.currency).value, uuids)
              && OrderValid(order.value, parse)
    ensures order.Err? ==>
              ItemsOf(rows.items, rows.order.currency).Ok? ==>
                !OrderValid(Reconstituted(rows.order, ItemsOf(rows.items, rows.order.currency).value, uuids), parse)
  {
    var items: seq<OrderItem> := [];
    for i := 0 to |rows.items|
      invariant ItemsOf(rows.items[..i], rows.order.currency) == Ok(items)
    {
      NextItem(rows.items, i, rows.order.currency);
      var item := ItemOf(rows.items[i], rows.order.currency);
      if item.Err? {
        ErrorStays(rows.items, i + 1, rows.order.currency);
        return Err(item.error);
      }
      items := items + [item.value];
    }
    assert rows.items[..|rows.items|] == rows.items;
    var loaded := Reconstituted(rows.order, items, uuids);
    var valid := Validated(loaded, parse);
    order := if valid then Ok(loaded) else Err(InvalidOrder);
  }

  lemma NextItem(rows: seq<ItemRow>, i: nat, currency: string)
    requires i < |rows|
    ensures ItemsOf(rows[..i + 1], currency) ==
              match ItemsOf(rows[..i], currency)
              case Err(error) => Err(error)
              case Ok(items) =>
                match ItemOf(rows[i], currency)
                case Err(error) => Err(error)
                case Ok(item) => Ok(items + [item])
  {
    assert rows[..i + 1][..i] == rows[..i];
  }

  lemma {:induction false} ErrorStays(rows: seq<ItemRow>, i: nat, currency: string)
    requires i <= |rows| && ItemsOf(rows[..i], currency).Err?
    ensures ItemsOf(rows, currency).Err?
    decreases |rows| - i
  {
    if i == |rows| {
      assert rows[..i] == rows;
    } else {
      NextItem(rows, i, currency);
      ErrorStays(rows, i + 1, currency);
    }
  }

  // ----- there and back

  /** An item as NewOrderItem makes it, in the order's currency: its product code is trimmed. */
  predicate Storable(item: OrderItem, currency: string)
  {
    ItemValid(item) && IsTrimmed(item.productSku) && item.unitPrice.currency == currency
  }

  predicate AllStorable(items: seq<OrderItem>, currency: string)
  {
    forall i {:trigger Storable(items[i], currency)} :: 0 <= i < |items| ==> Storable(items[i], currency)
  }

  lemma {:induction false} ItemsComeBack(order: Uuid, items: seq<OrderItem>, currency: string, i: nat)
    requires i <= |items| && AllStorable(items, currency)
    ensures ItemsOf(ItemRows(order, items)[..i], currency) == Ok(items[..i])
  {
    if i > 0 {
      var rows := ItemRows(order, items);
      ItemsComeBack(order, items, currency, i - 1);
      NextItem(rows, i - 1, currency);
      assert ItemOf(rows[i - 1], currency) == Ok(items[i - 1]) by {
        assert Storable(items[i - 1], currency);
        ItemComesBack(order, items, currency, i - 1);
      }
      assert items[..i] == items[..i - 1] + [items[i - 1]];
    }
  }

  lemma ItemComesBack(order: Uuid, items: seq<OrderItem>, currency: string, i: nat)
    requires i < |items| && Storable(items[i], currency)
    ensures ItemOf(ItemRowAt(order, items, i), currency) == Ok(items[i])
  {
  }

  function CanonicalText(id: string, uuids: UuidCodec): string
    requires uuids.parse(id).Some?
  {
    uuids.text(uuids.parse(id).value)
  }

  /** What NewOrder and the loaded form have in common: a total over storable items. */
  lemma BackIsValid(order: OrderData, back: OrderData, parse: AddressParser)
    requires OrderValid(order, parse) && back == order.(id := back.id, customerId := back.customerId)
    requires Trim(back.id) != "" && Trim(back.customerId) != ""
    ensures OrderValid(back, parse)
  {
  }

  /**
   * Every valid order comes back from its rows with its ids in canonical spelling, and
   * comes back unchanged exactly when they were spelled that way to begin with.
   */
  lemma OrderRoundTrip(order: OrderData, uuids: UuidCodec, parse: AddressParser)
    requires CodecOk(uuids) && OrderValid(order, parse) && AllStorable(order.items, order.total.currency)
    requires uuids.parse(order.id).Some? && uuids.parse(order.customerId).Some?
    ensures var rows := RowsOf(order, uuids).value;
            var back := Reconstituted(rows.order, order.items, uuids);
            && ItemsOf(rows.items, rows.order.currency) == Ok(order.items)
            && OrderValid(back, parse)
            && back == order.(id := CanonicalText(order.id, uuids), customerId := CanonicalText(order.customerId, uuids))
            && (back == order <==>
                  order.id == CanonicalText(order.id, uuids) && order.customerId == CanonicalText(order.customerId, uuids))
  {
    var rows := RowsOf(order, uuids).value;
    var back := Reconstituted(rows.order, order.items, uuids);
    assert ItemsOf(rows.items, rows.order.currency) == Ok(order.items) by {
      ItemsComeBack(rows.order.id, order.items, order.total.currency, |order.items|);
      assert rows.items[..|order.items|] == rows.items && order.items[..|order.items|] == order.items;
    }
    assert OrderValid(back, parse) by { BackIsValid(order, back, parse); }
  }
}
