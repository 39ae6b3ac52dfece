/**
 * The orders, their items and the recorded events as table rows, and the repository's
 * transactions on them. A transaction that fails at any statement leaves no trace.
 */
module OrderTables {
  import opened Collections
  import opened Skus
  import opened OrderDomain
  import opened OrderRows
  import opened Pipeline

  datatype StoreResult = Stored | DuplicateKey | Conflict | Failed

  datatype FindResult = Found(order: OrderData) | NotFound | Unreadable

  datatype EventRow = EventRow(order: Uuid, payload: Payload)

  type OrderTable = map<Uuid, OrderRow>
  type ItemTable = map<Uuid, seq<ItemRow>>
  type EventTable = map<Uuid, EventRow>

  /** Both columns are 32 bits wide, and the checks on them exclude the rest. */
  predicate ItemFits(row: ItemRow)
  {
    0 < row.lineNumber < 0x8000_0000 && 0 < row.quantity as int < 0x8000_0000 && row.unitAmountInCents >= 0
  }

  predicate AllFit(rows: seq<ItemRow>)
  {
    forall i :: 0 <= i < |rows| ==> ItemFits(rows[i])
  }

  predicate HasKey(orders: OrderTable, key: string)
  {
    exists id :: id in orders && orders[id].key == key
  }

  ghost predicate TablesOk(orders: OrderTable, items: ItemTable)
  {
    && orders.Keys == items.Keys
    && (forall id :: id in orders ==> orders[id].id == id)
    && (forall a, b :: a in orders && b in orders && orders[a].key == orders[b].key ==> a == b)
  }

  /** What creating an order comes to. */
  function CreateResult(orders: OrderTable, rows: Option<Rows>): StoreResult
  {
    if rows.None? || rows.value.order.id in orders then Failed
    else if HasKey(orders, rows.value.order.key) then DuplicateKey
    else if !AllFit(rows.value.items) then Failed
    else Stored
  }

  /** The conditional update: the row is there, in the expected status. */
  predicate Expects(orders: OrderTable, id: Uuid, expected: Status)
  {
    id in orders && orders[id].status == expected
  }

  function WithState(orders: OrderTable, order: OrderRow): OrderTable
    requires order.id in orders
  {
    orders[order.id := orders[order.id].(status := order.status, updatedAt := order.updatedAt)]
  }

  /** One event per order, and one row per event id. */
  predicate CanRecord(events: EventTable, id: Uuid, order: Uuid)
  {
    id !in events && forall other :: other in events ==> events[other].order != order
  }

  /** The order that a row and its item rows stand for, if they stand for one. */
  function LoadedFrom(row: OrderRow, items: seq<ItemRow>, uuids: UuidCodec, parse: AddressParser): FindResult
  {
    match ItemsOf(items, row.currency)
    case Err(_) => Unreadable
    case Ok(loaded) =>
      if OrderValid(Reconstituted(row, loaded, uuids), parse) then Found(Reconstituted(row, loaded, uuids)) else Unreadable
  }

  class OrderRepository {
    const uuids: UuidCodec
    const parse: AddressParser
    var orders: OrderTable
    var items: ItemTable
    var events: EventTable

    ghost predicate Valid()
      reads this
    {
      TablesOk(orders, items)
    }

    constructor (uuids: UuidCodec, parse: AddressParser)
      ensures Valid() && orders == map[] && items == map[] && events == map[]
      ensures this.uuids == uuids && this.parse == parse
    {
      this.uuids, this.parse := uuids, parse;
      orders, items, events := map[], map[], map[];
    }

    /** The order and all of its items, or nothing. */
    method Create(order: OrderData) returns (result: StoreResult)
      requires Valid()
      modifies this`orders, this`items
      ensures Valid()
      ensures result == CreateResult(old(orders), RowsOf(order, uuids))
      ensures result != Stored ==> orders == old(orders) && items == old(items)
      ensures result == Stored ==>
                var rows := RowsOf(order, uuids).value;
                && orders == old(orders)[rows.order.id := rows.order]
                && items == old(items)[rows.order.id := rows.items]
    {
      var rows := RowsFromDomain(order, uuids);
      if rows.None? {
        return Failed;
      }
      var row := rows.value.order;
      if row.id in orders {
        return Failed;
      }
      if HasKey(orders, row.key) {
        return DuplicateKey;
      }
      var inserted: seq<ItemRow> := [];
      for i := 0 to |rows.value.items|
        invariant inserted == rows.value.items[..i] && AllFit(inserted)
      {
        if !ItemFits(rows.value.items[i]) {
          assert !AllFit(rows.value.items);
          return Failed;
        }
        inserted := inserted + [rows.value.items[i]];
      }
      assert inserted == rows.value.items;
      orders, items := orders[row.id := row], items[row.id := inserted];
      result := Stored;
    }

    method Update(order: OrderData, expected: Status) returns (result: StoreResult)
      requires Valid()
      modifies this`orders
      ensures Valid()
      ensures result == match RowsOf(order, uuids)
                case None => Failed
                case Some(rows) => if Expects(old(orders), rows.order.id, expected) then Stored else Conflict
      ensures orders == if result == Stored then WithState(old(orders), RowsOf(order, uuids).value.order) else old(orders)
    {
      var rows := RowsFromDomain(order, uuids);
      if rows.None? {
        return Failed;
      }
      if !Expects(orders, rows.value.order.id, expected) {
        return Conflict;
      }
      orders := WithState(orders, rows.value.order);
      result := Stored;
    }

    /** The new state and the event that announces it: neither is ever stored without the other. */
    method UpdateAndRecordEvent(order: OrderData, expected: Status, event: Event) returns (result: StoreResult)
      requires Valid()
      modifies this`orders, this`events
      ensures Valid()
      ensures result == match (RowsOf(order, uuids), uuids.parse(event.id))
                case (Some(rows), Some(id)) =>
                  if !Expects(old(orders), rows.order.id, expected) then Conflict
                  else if CanRecord(old(events), id, rows.order.id) then Stored
                  else Failed
                case _ => Failed
      ensures result != Stored ==> orders == old(orders) && events == old(events)
      ensures result == Stored ==>
                var row := RowsOf(order, uuids).value.order;
                && orders == WithState(old(orders), row)
                && events == old(events)[uuids.parse(event.id).value := EventRow(row.id, PayloadOf(event))]
    {
      var rows := RowsFromDomain(order, uuids);
      var id := uuids.parse(event.id);
      if rows.None? || id.None? {
        return Failed;
      }
      var payload := PayloadFromEvent(event);
      var row := rows.value.order;
      if !Expects(orders, row.id, expected) {
        return Conflict;
      }
      var updated := WithState(orders, row);
      if !CanRecord(events, id.value, row.id) {
        return Failed;
      }
      orders, events := updated, events[id.value := EventRow(row.id, payload)];
      result := Stored;
    }

    method FindByID(id: string) returns (result: FindResult)
      requires Valid()
      ensures result == match uuids.parse(id)
                case None => Unreadable
                case Some(u) => if u in orders then LoadedFrom(orders[u], items[u], uuids, parse) else NotFound
    {
      var parsed := uuids.parse(id);
      if parsed.None? {
        return Unreadable;
      }
      if parsed.value !in orders {
        return NotFound;
      }
      result := LoadOrder(parsed.value);
    }

    /** At most one row has the key, so whichever row is found is the row. */
    method FindByIdempotencyKey(key: string) returns (result: FindResult)
      requires Valid()
      ensures result == NotFound <==> !HasKey(orders, key)
      ensures forall u :: u in orders && orders[u].key == key ==> result == LoadedFrom(orders[u], items[u], uuids, parse)
    {
      if !HasKey(orders, key) {
        return NotFound;
      }
      var u :| u in orders && orders[u].key == key;
      result := LoadOrder(u);
    }

    method LoadOrder(u: Uuid) returns (result: FindResult)
      requires Valid() && u in orders
      ensures result == LoadedFrom(orders[u], items[u], uuids, parse)
    {
      var loaded: seq<ItemRow> := [];
      for i := 0 to |items[u]|
        invariant loaded == items[u][..i]
      {
        loaded := loaded + [items[u][i]];
      }
      assert loaded == items[u];
      var order := DomainFromRows(Rows(orders[u], loaded), uuids, parse);
      result := match order case Ok(data) => Found(data) case Err(_) => Unreadable;
    }
  }

  // ----- what the rows stand for

  /** A stored order is found again with its ids in canonical spelling. */
  lemma CreatedIsFound(order: OrderData, uuids: UuidCodec, parse: AddressParser)
    requires CodecOk(uuids) && OrderValid(order, parse) && AllStorable(order.items, order.total.currency)
    requires RowsOf(order, uuids).Some?
    ensures LoadedFrom(RowsOf(order, uuids).value.order, RowsOf(order, uuids).value.items, uuids, parse)
         == Found(order.(id := CanonicalText(order.id, uuids), customerId := CanonicalText(order.customerId, uuids)))
  {
    OrderRoundTrip(order, uuids, parse);
  }

  /** On the loaded orders, the conditional update decides the one order and leaves it otherwise as it was. */
  lemma UpdateDecidesOne(
    orders: OrderTable, items: ItemTable, row: OrderRow, uuids: UuidCodec, parse: AddressParser, u: Uuid)
    requires TablesOk(orders, items) && row.id in orders && u in orders
    requires row.updatedAt >= orders[row.id].createdAt && row.updatedAt != ZERO_TIME
    ensures var before := LoadedFrom(orders[u], items[u], uuids, parse);
            var after := LoadedFrom(WithState(orders, row)[u], items[u], uuids, parse);
            before.Found? ==>
              after == if u == row.id then Found(before.order.(status := row.status, updatedAt := row.updatedAt)) else before
  {
  }

  /** Lines are numbered from one, and their rows pass the checks exactly when they fit their 32-bit columns. */
  lemma RowsFitExactly(order: OrderData, uuids: UuidCodec)
    requires RowsOf(order, uuids).Some? && ItemsValid(order.items)
    ensures forall i :: 0 <= i < |order.items| ==> RowsOf(order, uuids).value.items[i].lineNumber == i + 1
    ensures AllFit(RowsOf(order, uuids).value.items) <==> FitsSchema(order) && |order.items| < 0x8000_0000
  {
    var rows := RowsOf(order, uuids).value.items;
    forall i | 0 <= i < |order.items|
      ensures ItemFits(rows[i]) <==> order.items[i].quantity as int < 0x8000_0000 && i + 1 < 0x8000_0000
    {
      assert ItemValid(order.items[i]);
    }
    if |order.items| >= 0x8000_0000 { assert !ItemFits(rows[|order.items| - 1]); }
  }

  /** An order that passed the table's checks also fits the 32 bits of the wire. */
  lemma StoredFitsSchema(order: OrderData, uuids: UuidCodec)
    requires RowsOf(order, uuids).Some? && AllFit(RowsOf(order, uuids).value.items)
    ensures FitsSchema(order)
  {
    var rows := RowsOf(order, uuids).value;
    forall i | 0 <= i < |order.items| ensures order.items[i].quantity as int < 0x8000_0000 {
      assert ItemFits(rows.items[i]);
    }
  }
}
