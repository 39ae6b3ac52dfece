/**
 * The use case itself: build the order, store it pending, ask inventory at most three
 * times, and decide. Other requests may store and decide orders between any two of its
 * statements.
 */
module CreateOrder {
  import opened Collections
  import opened Skus
  import opened Canonical
  import opened OrderDomain
  import opened OrderRows
  import opened OrderTables
  import opened Pipeline
  import opened SystemRuns
  import Orders = OrderRuns

  // ----- asking inventory

  datatype ReserveResult = Reserved | Refused | Broken

  /** What each attempt would be answered, and whether the request is cancelled before it or while waiting after it. */
  datatype Inventory = Inventory(
    answers: nat -> Orders.Answer, cancelledBefore: nat -> bool, cancelledAfter: nat -> bool)

  /**
   * How often inventory is asked: again only after a call that reached no verdict, and then
   * always, until three calls have been made or the request is cancelled.
   */
  ghost predicate AskedRight(inventory: Inventory, calls: nat)
  {
    && calls <= Orders.RESERVATION_ATTEMPTS
    && (forall i :: 0 <= i < calls ==> !inventory.cancelledBefore(i))
    && (forall i :: 0 <= i < calls - 1 ==> inventory.answers(i) == Orders.Unavailable && !inventory.cancelledAfter(i))
    && (calls == 0 ==> inventory.cancelledBefore(0))
    && (calls > 0 && inventory.answers(calls - 1) == Orders.Unavailable ==>
          calls == Orders.RESERVATION_ATTEMPTS || inventory.cancelledAfter(calls - 1) || inventory.cancelledBefore(calls))
  }

  /**
   * At most three calls, all for the one reservation, each after the first only because
   * the one before it reached no verdict; the last call decides, and nothing else reads as
   * reserved or refused.
   */
  method ReserveInventory(reservation: Reservation, inventory: Inventory)
    returns (result: ReserveResult, asked: seq<Reservation>)
    ensures |asked| <= Orders.RESERVATION_ATTEMPTS && forall i :: 0 <= i < |asked| ==> asked[i] == reservation
    ensures AskedRight(inventory, |asked|)
    ensures result == Reserved <==> |asked| > 0 && inventory.answers(|asked| - 1) == Orders.Granted
    ensures result == Refused <==> |asked| > 0 && inventory.answers(|asked| - 1) == Orders.Insufficient
  {
    asked := [];
    for attempt := 0 to Orders.RESERVATION_ATTEMPTS
      invariant |asked| == attempt && forall i :: 0 <= i < attempt ==> asked[i] == reservation
      invariant forall i :: 0 <= i < attempt ==>
                  inventory.answers(i) == Orders.Unavailable && !inventory.cancelledBefore(i) && !inventory.cancelledAfter(i)
    {
      if inventory.cancelledBefore(attempt) {
        return Broken, asked;
      }
      asked := asked + [reservation];
      match inventory.answers(attempt) {
        case Granted => return Reserved, asked;
        case Insufficient => return Refused, asked;
        case Defect => return Broken, asked;
        case Unavailable =>
          if attempt == Orders.RESERVATION_ATTEMPTS - 1 || inventory.cancelledAfter(attempt) {
            return Broken, asked;
          }
      }
    }
    result := Broken;
  }

  /** The request for inventory, line by line, as it is sent. */
  method ReservationRequestFor(order: OrderData) returns (reservation: Reservation)
    ensures reservation == ReservationFor(order)
  {
    var lines: seq<RawLine> := [];
    for i := 0 to |order.items|
      invariant lines == Mapped(ReservationLine, order.items)[..i]
    {
      lines := lines + [RawLine(order.items[i].productSku, ToInt32(order.items[i].quantity))];
    }
    assert lines == Mapped(ReservationLine, order.items);
    reservation := Reservation(order.id, lines);
  }

  // ----- building the order

  datatype CommandItem = CommandItem(productSku: string, quantity: int64)

  datatype Command = Command(key: string, customerId: string, email: string, items: seq<CommandItem>)

  datatype BuildResult = Built(order: OrderData) | ProductsNotFound(skus: seq<Sku>) | Unbuildable

  function Unpriced(items: seq<CommandItem>, prices: map<Sku, Money>): seq<Sku>
  {
    if items == [] then []
    else
      var sku := Trim(items[|items| - 1].productSku);
      Unpriced(items[..|items| - 1], prices) + if sku in prices then [] else [sku]
  }

  function ItemFor(item: CommandItem, prices: map<Sku, Money>): OrderItem
  {
    var sku := Trim(item.productSku);
    OrderItem(sku, item.quantity, if sku in prices then prices[sku] else Money(0, ""))
  }

  function ItemsFor(items: seq<CommandItem>, prices: map<Sku, Money>): seq<OrderItem>
  {
    seq(|items|, i requires 0 <= i < |items| => ItemFor(items[i], prices))
  }

  /** Nothing is unpriced exactly when every product has a price. */
  lemma {:induction false} AllPriced(items: seq<CommandItem>, prices: map<Sku, Money>)
    ensures Unpriced(items, prices) == [] <==> forall i :: 0 <= i < |items| ==> Trim(items[i].productSku) in prices
  {
    if items != [] {
      var front := items[..|items| - 1];
      AllPriced(front, prices);
      assert forall i :: 0 <= i < |front| ==> items[i] == front[i];
    }
  }

  method MissingProducts(items: seq<CommandItem>, prices: map<Sku, Money>) returns (missing: seq<Sku>)
    ensures missing == Unpriced(items, prices)
  {
    missing := [];
    for i := 0 to |items|
      invariant missing == Unpriced(items[..i], prices)
    {
      assert items[..i + 1][..i] == items[..i];
      var productSku := Trim(items[i].productSku);
      if productSku !in prices {
        missing := missing + [productSku];
      }
    }
    assert items[..|items|] == items;
  }

  predicate Priced(items: seq<CommandItem>, prices: map<Sku, Money>)
  {
    forall i :: 0 <= i < |items| ==> Trim(items[i].productSku) in prices
  }

  /** The items as the domain builds them, or nothing if one of them is not an item. */
  method BuildItems(items: seq<CommandItem>, prices: map<Sku, Money>) returns (built: Option<seq<OrderItem>>)
    requires Priced(items, prices)
    ensures built == if ItemsValid(ItemsFor(items, prices)) then Some(ItemsFor(items, prices)) else None
  {
    var all: seq<OrderItem> := [];
    for i := 0 to |items|
      invariant all == ItemsFor(items, prices)[..i] && ItemsValid(all)
    {
      var productSku := Trim(items[i].productSku);
      TrimIdempotent(items[i].productSku);
      var item := NewOrderItem(productSku, items[i].quantity, prices[productSku]);
      if item.Err? {
        assert !ItemValid(ItemsFor(items, prices)[i]);
        return None;
      }
      all := all + [item.value];
    }
    assert all == ItemsFor(items, prices);
    built := Some(all);
  }

  lemma BuiltItemsAreStorable(items: seq<CommandItem>, prices: map<Sku, Money>, currency: string)
    requires ItemsValid(ItemsFor(items, prices)) && SameCurrency(ItemsFor(items, prices))
    requires items != [] ==> currency == ItemsFor(items, prices)[0].unitPrice.currency
    ensures AllStorable(ItemsFor(items, prices), currency)
  {
    forall i | 0 <= i < |items| ensures Storable(ItemsFor(items, prices)[i], currency) {
      assert ItemValid(ItemsFor(items, prices)[i]);
      TrimIdempotent(items[i].productSku);
    }
  }

  predicate HeaderOk(command: Command, id: string, now: Time, parse: AddressParser)
  {
    && now != ZERO_TIME && Trim(Trim(id)) != "" && Trim(Trim(command.customerId)) != ""
    && EmailValid(Trim(command.email), parse) && Trim(command.key) != ""
  }

  /**
   * Every product without a price is reported, in the order asked for, before anything
   * else is looked at. Otherwise the order has the command's items at their prices, with
   * its ids trimmed and its exact total.
   */
  method BuildOrder(command: Command, prices: map<Sku, Money>, id: string, now: Time, parse: AddressParser)
    returns (result: BuildResult)
    ensures result.ProductsNotFound? <==> Unpriced(command.items, prices) != []
    ensures result.ProductsNotFound? ==> result.skus == Unpriced(command.items, prices)
    ensures result.Built? <==>
              Unpriced(command.items, prices) == [] && Totalled(ItemsFor(command.items, prices))
              && HeaderOk(command, id, now, parse)
    ensures result.Built? ==>
              && OrderValid(result.order, parse) && result.order.status == Pending && result.order.key == command.key
              && result.order.id == Trim(id) && result.order.customerId == Trim(command.customerId)
              && result.order.email == Trim(command.email) && result.order.createdAt == result.order.updatedAt == now
              && result.order.items == ItemsFor(command.items, prices)
              && AllStorable(result.order.items, result.order.total.currency)
  {
    var missing := MissingProducts(command.items, prices);
    if |missing| > 0 {
      return ProductsNotFound(missing);
    }
    AllPriced(command.items, prices);
    var items := BuildItems(command.items, prices);
    if items.None? {
      return Unbuildable;
    }
    var order := NewOrder(id, command.customerId, command.email, command.key, items.value, now, parse);
    if order.Err? {
      return Unbuildable;
    }
    BuiltItemsAreStorable(command.items, prices, order.value.total.currency);
    result := Built(order.value);
  }

  // ----- the use case

  /**
   * What goes wrong, what the clock, the catalog, the generator and inventory say, and
   * whether any other request is at work, during one request.
   */
  datatype Circumstances = Circumstances(
    findFails: bool, prices: map<Sku, Money>, orderId: string, builtAt: Time, createFails: bool, reloadFails: bool,
    inventory: Inventory, decidedAt: Time, eventId: string, updateFails: bool, resolveFails: bool, alone: bool)

  datatype Tables = Tables(orders: OrderTable, items: ItemTable, events: EventTable)

  /** An order stays, keeps its contents, and is decided at most once. */
  ghost predicate RowKept(before: OrderRow, after: OrderRow)
  {
    && after == before.(status := after.status, updatedAt := after.updatedAt)
    && (before.status != Pending ==> after == before)
  }

  /** A pending order is as it was created, and only a decided one has an event. */
  ghost predicate Sound(t: Tables)
  {
    && TablesOk(t.orders, t.items)
    && (forall u :: u in t.orders && t.orders[u].status == Pending ==> t.orders[u].updatedAt == t.orders[u].createdAt)
    && (forall id :: id in t.events ==> t.events[id].order in t.orders && t.orders[t.events[id].order].status != Pending)
  }

  /** What any request may do to the tables, this one included. */
  ghost predicate RequestsMay(t: Tables, t': Tables)
  {
    Sound(t') &&
    forall u :: u in t.orders && u in t.items ==>
      u in t'.orders && u in t'.items && t'.items[u] == t.items[u] && RowKept(t.orders[u], t'.orders[u])
  }

  ghost predicate HasUnder(orders: OrderTable, key: string, status: Status)
  {
    exists u :: u in orders && orders[u].key == key && orders[u].status == status
  }

  predicate DecidedAs(orders: OrderTable, u: Uuid, key: string)
  {
    u in orders && orders[u].key == key && orders[u].status != Pending
  }

  predicate PendingUnder(orders: OrderTable, u: Uuid, key: string)
  {
    u in orders && orders[u].key == key && orders[u].status == Pending
  }

  /** The key's order has been decided. */
  ghost predicate DecidedUnder(orders: OrderTable, key: string)
  {
    exists u :: DecidedAs(orders, u, key)
  }

  ghost predicate ReplyTrue(orders: OrderTable, key: string, reply: Orders.Reply)
  {
    match reply
    case Stored(order, _) => order.status in {Accepted, Shipped, Cancelled} && HasUnder(orders, key, order.status)
    case OutOfStock => HasUnder(orders, key, Rejected)
    case Error => true
  }

  lemma FoundIsRow(row: OrderRow, items: seq<ItemRow>, uuids: UuidCodec, parse: AddressParser)
    requires LoadedFrom(row, items, uuids, parse).Found?
    ensures var order := LoadedFrom(row, items, uuids, parse).order;
            && order.key == row.key && order.status == row.status && order.id == uuids.text(row.id)
            && order.customerId == uuids.text(row.customerId) && order.updatedAt == row.updatedAt
  {
  }

  lemma NothingIsAllowed(t: Tables)
    requires Sound(t)
    ensures RequestsMay(t, t)
  {
  }

  lemma AllowedInTurn(t: Tables, t': Tables, t'': Tables)
    requires RequestsMay(t, t') && RequestsMay(t', t'')
    ensures RequestsMay(t, t'')
  {
  }

  lemma KeyStays(t: Tables, t': Tables, key: string)
    requires Sound(t) && RequestsMay(t, t')
    ensures HasKey(t.orders, key) ==> HasKey(t'.orders, key)
  {
    if u :| u in t.orders && t.orders[u].key == key { assert t'.orders[u].key == key; }
  }

  /** The answer that a decided order gives every later request under its key. */
  function Replay(found: FindResult): Orders.Reply
  {
    match found
    case Found(order) => if order.status == Rejected then Orders.OutOfStock else Orders.Stored(order, false)
    case _ => Orders.Error
  }

  /** Every row under the key can be read. */
  ghost predicate ReadableUnder(t: Tables, key: string, uuids: UuidCodec, parse: AddressParser)
  {
    forall u :: u in t.orders && u in t.items && t.orders[u].key == key ==>
      LoadedFrom(t.orders[u], t.items[u], uuids, parse).Found?
  }

  /** A row that can be read now could be read before. */
  lemma ReadableBefore(t: Tables, t': Tables, key: string, uuids: UuidCodec, parse: AddressParser)
    requires Sound(t) && RequestsMay(t, t') && ReadableUnder(t', key, uuids, parse)
    ensures ReadableUnder(t, key, uuids, parse)
  {
    forall u | u in t.orders && u in t.items && t.orders[u].key == key
      ensures LoadedFrom(t.orders[u], t.items[u], uuids, parse).Found?
    {
      assert RowKept(t.orders[u], t'.orders[u]);
      assert LoadedFrom(t'.orders[u], t'.items[u], uuids, parse).Found?;
      RowReadableBefore(t.orders[u], t'.orders[u], t.items[u], uuids, parse);
    }
  }

  lemma RowReadableBefore(row: OrderRow, later: OrderRow, items: seq<ItemRow>, uuids: UuidCodec, parse: AddressParser)
    requires RowKept(row, later) && (row.status == Pending ==> row.updatedAt == row.createdAt)
    requires LoadedFrom(later, items, uuids, parse).Found?
    ensures LoadedFrom(row, items, uuids, parse).Found?
  {
  }

  /** What becomes of a stored order: a decided one is answered as it is, and a pending one taken to inventory. */
  ghost predicate FoundRule(
    t: Tables, key: string, uuids: UuidCodec, parse: AddressParser, inventory: Inventory, reply: Orders.Reply, calls: nat)
  {
    forall u :: u in t.orders && u in t.items && t.orders[u].key == key ==>
      match LoadedFrom(t.orders[u], t.items[u], uuids, parse)
      case Found(order) =>
        if order.status == Pending then AskedRight(inventory, calls) else reply == Replay(Found(order)) && calls == 0
      case _ => reply == Orders.Error && calls == 0
  }

  /** An error about an order that could be read comes after inventory was asked. */
  lemma ErrorAfterAsking(
    t: Tables, t': Tables, key: string, uuids: UuidCodec, parse: AddressParser, inventory: Inventory, calls: nat)
    requires Sound(t) && RequestsMay(t, t') && HasKey(t.orders, key) && ReadableUnder(t', key, uuids, parse)
    requires FoundRule(t, key, uuids, parse, inventory, Orders.Error, calls)
    ensures AskedRight(inventory, calls)
  {
    ReadableBefore(t, t', key, uuids, parse);
    var u :| u in t.orders && t.orders[u].key == key;
    assert LoadedFrom(t.orders[u], t.items[u], uuids, parse).Found?;
  }

  /** A pending order under the key, for a request that is alone. */
  ghost predicate FoundAlone(
    t: Tables, t': Tables, key: string, uuids: UuidCodec, parse: AddressParser, around: Circumstances, calls: nat,
    reply: Orders.Reply, decided: Option<Status>)
  {
    forall u :: PendingUnder(t.orders, u, key) && u in t.items && LoadedFrom(t.orders[u], t.items[u], uuids, parse).Found? ==>
      AloneRule(t, t', u, uuids, around, calls, false, reply, decided)
  }

  /** Inventory's last word, if it was asked. */
  function LastWord(inventory: Inventory, calls: nat): Option<Orders.Answer>
  {
    if calls == 0 then None else Some(inventory.answers(calls - 1))
  }

  /** What inventory's last word says should become of the order. */
  function Word(inventory: Inventory, calls: nat): Option<Status>
  {
    match LastWord(inventory, calls)
    case Some(Granted) => Some(Accepted)
    case Some(Insufficient) => Some(Rejected)
    case _ => None
  }

  /** A request decides only on inventory's last word, and answers without one only from storage or with an error. */
  ghost predicate DecidedOnWord(inventory: Inventory, calls: nat, decided: Option<Status>)
  {
    calls <= Orders.RESERVATION_ATTEMPTS && (decided.Some? ==> decided == Word(inventory, calls))
  }

  /** The clock and the statement allow a decision about an order created then. */
  ghost predicate ClockAllows(around: Circumstances, createdAt: Time)
  {
    !around.updateFails && around.decidedAt != ZERO_TIME && around.decidedAt >= createdAt
  }

  /** The request's event id is a UUID that no event has. */
  ghost predicate EventIsNew(uuids: UuidCodec, events: EventTable, around: Circumstances)
  {
    uuids.parse(around.eventId).Some? && uuids.parse(around.eventId).value !in events
  }

  /** The reply is the stored verdict; an error only if it could not be read back. */
  ghost predicate AnswersVerdict(
    row: OrderRow, found: FindResult, around: Circumstances, created: bool, reply: Orders.Reply, decided: Option<Status>)
  {
    && row.status != Pending && (decided.Some? ==> decided.value == row.status)
    && match reply
       case Stored(order, made) => made == created && order.status == row.status != Rejected
       case OutOfStock => row.status == Rejected
       case Error => decided.None? && (around.resolveFails || !found.Found?)
  }

  /** The row once this request has decided it. */
  function DecidedRow(row: OrderRow, status: Status, now: Time): OrderRow
  {
    row.(status := status, updatedAt := now)
  }

  /** What a request that is alone makes of a pending order: it goes by inventory's last word, or changes nothing. */
  ghost predicate AloneRule(
    t: Tables, t': Tables, u: Uuid, uuids: UuidCodec, around: Circumstances, calls: nat, created: bool,
    reply: Orders.Reply, decided: Option<Status>)
    requires u in t.orders
  {
    var verdict := Word(around.inventory, calls);
    if verdict.None? || !ClockAllows(around, t.orders[u].createdAt)
       || (verdict == Some(Accepted) && !EventIsNew(uuids, t.events, around))
    then t' == t && reply == Orders.Error && decided == None
    else
      && decided == verdict && t'.items == t.items
      && t'.orders == t.orders[u := DecidedRow(t.orders[u], verdict.value, around.decidedAt)]
      && if verdict == Some(Rejected) then reply == Orders.OutOfStock && t'.events == t.events
         else
           && reply.Stored? && reply.created == created && reply.order.status == Accepted
           && t'.events == t.events[uuids.parse(around.eventId).value :=
                EventRow(u, PayloadOf(EventOf(around.eventId, reply.order)))]
  }

  lemma DecidingKeepsRows(t: Tables, t': Tables, u: Uuid, status: Status, now: Time)
    requires TablesOk(t.orders, t.items) && u in t.orders
    requires t'.orders == t.orders[u := DecidedRow(t.orders[u], status, now)] && t'.items == t.items
    ensures TablesOk(t'.orders, t'.items)
  {
    forall v | v in t'.orders ensures v in t.orders && t'.orders[v].key == t.orders[v].key && t'.orders[v].id == t.orders[v].id {}
  }

  /** A decision about a pending order, with or without an event of it, is allowed. */
  lemma DecidingIsSound(t: Tables, t': Tables, u: Uuid, status: Status, now: Time)
    requires Sound(t) && u in t.orders && t.orders[u].status == Pending && status != Pending
    requires t'.orders == t.orders[u := DecidedRow(t.orders[u], status, now)] && t'.items == t.items
    requires forall id :: id in t'.events ==> (id in t.events && t'.events[id] == t.events[id]) || t'.events[id].order == u
    ensures Sound(t') && RequestsMay(t, t')
  {
    DecidingKeepsRows(t, t', u, status, now);
    forall v | v in t'.orders && t'.orders[v].status == Pending ensures t'.orders[v].updatedAt == t'.orders[v].createdAt {
      assert v != u && t'.orders[v] == t.orders[v];
    }
    forall id | id in t'.events
      ensures t'.events[id].order in t'.orders && t'.orders[t'.events[id].order].status != Pending
    {
      var v := t'.events[id].order;
      if v != u { assert t.events[id].order == v; }
    }
  }

  class CreateOrderUseCase {
    const orders: OrderRepository
    const parse: AddressParser

    constructor (orders: OrderRepository)
      ensures this.orders == orders && parse == orders.parse
    {
      this.orders, parse := orders, orders.parse;
    }

    function Now(): Tables
      reads this, orders
    {
      Tables(orders.orders, orders.items, orders.events)
    }

    ghost predicate Ready()
      reads this, orders
    {
      orders.Valid() && CodecOk(orders.uuids) && Sound(Now())
    }

    /**
     * Any interference that RequestsMay allows, none of which uses this request's ids, and none at all for a request that is alone; the body is the least of it.
     */
    method OthersAct(around: Circumstances)
      requires Ready()
      modifies orders
      ensures Ready() && RequestsMay(old(Now()), Now())
      ensures old(EventIsNew(orders.uuids, orders.events, around)) ==> EventIsNew(orders.uuids, orders.events, around)
      ensures orders.uuids.parse(Trim(around.orderId)).Some?
              && orders.uuids.parse(Trim(around.orderId)).value !in old(orders.orders) ==>
                orders.uuids.parse(Trim(around.orderId)).value !in orders.orders
      ensures around.alone ==> Now() == old(Now())
    {
    }

    /** No lookup and no insert fails. */
    ghost predicate Faultless(around: Circumstances)
    {
      !around.findFails && !around.createFails && !around.reloadFails
    }

    /** The order is in the table, under the key, and the request remembers it as it was when it was pending. */
    ghost predicate Knows(order: Order, u: Uuid, key: string)
      reads this, orders, order
    {
      && Ready() && orders.uuids.parse(order.id) == Some(u) && u in orders.orders && orders.orders[u].key == key
      && RowsOf(order.Data(), orders.uuids).Some?
      && (order.status == Pending ==> order.updatedAt == orders.orders[u].createdAt)
    }

    /** When inventory's last word can be acted on: for the key's order, whoever stored it. */
    ghost predicate Decidable(eventIsNew: bool, key: string, around: Circumstances, calls: nat)
      reads this, orders
    {
      && Word(around.inventory, calls).Some?
      && (Word(around.inventory, calls) == Some(Accepted) ==> eventIsNew)
      && forall u :: u in orders.orders && orders.orders[u].key == key ==> ClockAllows(around, orders.orders[u].createdAt)
    }

    /** The key's order is decided, and the reply is its verdict. */
    ghost predicate Answered(
      key: string, around: Circumstances, created: bool, reply: Orders.Reply, decided: Option<Status>)
      reads this, orders
    {
      Ready() &&
      exists u :: DecidedAs(orders.orders, u, key) &&
        AnswersVerdict(orders.orders[u], LoadedFrom(orders.orders[u], orders.items[u], orders.uuids, orders.parse), around,
                       created, reply, decided)
    }

    /**
     * Whatever others do meanwhile: the reply is true of the table, created is said only
     * when the key was free, a decided key is answered from storage, inventory is asked for
     * every order that is pending, and its word is acted on whenever it can be. An error
     * that no fault explains comes after inventory was asked. A request that is alone goes
     * by one rule.
     */
    method Execute(command: Command, around: Circumstances)
      returns (reply: Orders.Reply, asked: seq<Reservation>, decided: Option<Status>)
      requires Ready()
      modifies orders
      ensures Ready() && RequestsMay(old(Now()), Now())
      ensures ReplyTrue(orders.orders, command.key, reply) && DecidedOnWord(around.inventory, |asked|, decided)
      ensures reply.Stored? && reply.created ==> !HasKey(old(orders.orders), command.key)
      ensures DecidedUnder(old(orders.orders), command.key) ==> asked == [] && Now() == old(Now())
      ensures !around.findFails ==>
                FoundRule(old(Now()), command.key, orders.uuids, orders.parse, around.inventory, reply, |asked|)
      ensures Decidable(old(EventIsNew(orders.uuids, orders.events, around)), command.key, around, |asked|) ==>
                AnsweredSomehow(command.key, around, old(orders.orders), reply, decided)
      ensures around.alone && !around.findFails && !HasKey(old(orders.orders), command.key) ==>
                NewAlone(old(Now()), Now(), command, around, |asked|, reply, decided)
      ensures around.alone && !around.findFails ==>
                FoundAlone(old(Now()), Now(), command.key, orders.uuids, orders.parse, around, |asked|, reply, decided)
      ensures reply.Error? && Faultless(around) && ReadableUnder(Now(), command.key, orders.uuids, orders.parse)
              && !HasKey(old(orders.orders), command.key)
              && Buildable(command, around) && old(Storable(Now(), command, around)) ==>
                AskedRight(around.inventory, |asked|)
    {
      asked, decided := [], None;
      NothingIsAllowed(Now());
      if around.findFails {
        return Orders.Error, [], None;
      }
      var found := orders.FindByIdempotencyKey(command.key);
      match found {
        case Unreadable => reply := Orders.Error;
        case Found(data) => reply, asked, decided := ProcessFound(data, command.key, around);
        case NotFound => reply, asked, decided := ProcessNew(command, around);
      }
    }

    /** A stored order is processed as it was loaded. */
    method ProcessFound(data: OrderData, key: string, around: Circumstances)
      returns (reply: Orders.Reply, asked: seq<Reservation>, decided: Option<Status>)
      requires Ready() && HasKey(orders.orders, key)
      requires forall u :: u in orders.orders && orders.orders[u].key == key ==>
                 LoadedFrom(orders.orders[u], orders.items[u], orders.uuids, orders.parse) == Found(data)
      modifies orders
      ensures Ready() && RequestsMay(old(Now()), Now())
      ensures ReplyTrue(orders.orders, key, reply) && DecidedOnWord(around.inventory, |asked|, decided)
      ensures reply.Stored? ==> !reply.created
      ensures data.status != Pending ==> asked == [] && Now() == old(Now()) && reply == Replay(Found(data))
      ensures DecidedUnder(old(orders.orders), key) ==> asked == [] && Now() == old(Now())
      ensures data.status == Pending ==> AskedRight(around.inventory, |asked|)
      ensures forall i :: 0 <= i < |asked| ==> asked[i] == ReservationFor(data)
      ensures Decidable(old(EventIsNew(orders.uuids, orders.events, around)), key, around, |asked|) ==>
                Answered(key, around, false, reply, decided)
      ensures FoundRule(old(Now()), key, orders.uuids, orders.parse, around.inventory, reply, |asked|)
      ensures around.alone ==>
                FoundAlone(old(Now()), Now(), key, orders.uuids, orders.parse, around, |asked|, reply, decided)
    {
      var u :| u in orders.orders && orders.orders[u].key == key;
      FoundIsRow(orders.orders[u], orders.items[u], orders.uuids, orders.parse);
      var order := new Order(data);
      reply, asked, decided := ProcessPersisted(order, false, u, key, around);
    }

    /** What is built, and when it is. */
    method Build(command: Command, around: Circumstances) returns (built: Option<OrderData>)
      ensures built.Some? <==> Buildable(command, around)
      ensures built.Some? ==> BuiltAs(built.value, command, around)
    {
      var result := BuildOrder(command, around.prices, around.orderId, around.builtAt, parse);
      built := if result.Built? then Some(result.order) else None;
    }

    ghost predicate Buildable(command: Command, around: Circumstances)
      reads this
    {
      && Unpriced(command.items, around.prices) == [] && Totalled(ItemsFor(command.items, around.prices))
      && HeaderOk(command, around.orderId, around.builtAt, parse)
    }

    ghost predicate BuiltAs(data: OrderData, command: Command, around: Circumstances)
    {
      && data.status == Pending && data.key == command.key && data.id == Trim(around.orderId)
      && data.customerId == Trim(command.customerId) && data.email == Trim(command.email)
      && data.createdAt == data.updatedAt == around.builtAt && data.items == ItemsFor(command.items, around.prices)
    }

    /** A new order can be stored: its ids are UUIDs, its own is not taken, and its lines fit their columns. */
    ghost predicate Storable(t: Tables, command: Command, around: Circumstances)
      reads this, orders
    {
      && orders.uuids.parse(Trim(around.orderId)).Some? && orders.uuids.parse(Trim(command.customerId)).Some?
      && var u := orders.uuids.parse(Trim(around.orderId)).value;
      u !in t.orders && AllFit(ItemRows(u, ItemsFor(command.items, around.prices)))
    }

    /** The tables with the command's order in them, pending. */
    ghost predicate CreatedAs(t: Tables, t': Tables, u: Uuid, command: Command, around: Circumstances)
    {
      && u !in t.orders && u in t'.orders && u in t'.items
      && t'.orders == t.orders[u := t'.orders[u]] && t'.events == t.events
      && t'.items == t.items[u := ItemRows(u, ItemsFor(command.items, around.prices))]
      && t'.orders[u].id == u && t'.orders[u].status == Pending && t'.orders[u].key == command.key
      && t'.orders[u].email == Trim(command.email)
      && t'.orders[u].createdAt == t'.orders[u].updatedAt == around.builtAt
    }

    /** A request that is alone under a free key: the order is stored pending, then goes by inventory's last word. */
    ghost predicate NewAlone(
      t: Tables, t': Tables, command: Command, around: Circumstances, calls: nat, reply: Orders.Reply,
      decided: Option<Status>)
      reads this, orders
    {
      if !Buildable(command, around) || around.createFails || !Storable(t, command, around) then
        t' == t && reply == Orders.Error && decided == None && calls == 0
      else
        StoredAlone(t, t', command, around, calls, reply, decided)
    }

    ghost predicate StoredAlone(
      t: Tables, t': Tables, command: Command, around: Circumstances, calls: nat, reply: Orders.Reply,
      decided: Option<Status>)
      reads this
    {
      exists stored, u :: CreatedAs(t, stored, u, command, around)
        && AloneRule(stored, t', u, orders.uuids, around, calls, true, reply, decided)
    }

    method ProcessNew(command: Command, around: Circumstances)
      returns (reply: Orders.Reply, asked: seq<Reservation>, decided: Option<Status>)
      requires Ready()
      modifies orders
      ensures Ready() && RequestsMay(old(Now()), Now())
      ensures ReplyTrue(orders.orders, command.key, reply) && DecidedOnWord(around.inventory, |asked|, decided)
      ensures reply.Stored? && reply.created ==> !HasKey(old(orders.orders), command.key)
      ensures Decidable(old(EventIsNew(orders.uuids, orders.events, around)), command.key, around, |asked|) ==>
                AnsweredSomehow(command.key, around, old(orders.orders), reply, decided)
      ensures around.alone && !HasKey(old(orders.orders), command.key) ==>
                NewAlone(old(Now()), Now(), command, around, |asked|, reply, decided)
      ensures reply.Error? && Faultless(around) && Buildable(command, around) && old(Storable(Now(), command, around))
              && ReadableUnder(Now(), command.key, orders.uuids, orders.parse) ==>
                AskedRight(around.inventory, |asked|)
    {
      var built := Build(command, around);
      if built.None? {
        return Orders.Error, [], None;
      }
      reply, asked, decided := ProcessBuilt(built.value, command, around);
    }

    /** Answered as created only if the key was free, and for a request that is alone exactly then. */
    ghost predicate AnsweredSomehow(
      key: string, around: Circumstances, before: OrderTable, reply: Orders.Reply, decided: Option<Status>)
      reads this, orders
    {
      exists created :: Answered(key, around, created, reply, decided)
        && (created ==> !HasKey(before, key)) && (around.alone ==> created == !HasKey(before, key))
    }

    /** Others may take the key between the lookup and the insert. */
    method ProcessBuilt(data: OrderData, ghost command: Command, around: Circumstances)
      returns (reply: Orders.Reply, asked: seq<Reservation>, decided: Option<Status>)
      requires Ready() && Buildable(command, around) && BuiltAs(data, command, around)
      modifies orders
      ensures Ready() && RequestsMay(old(Now()), Now())
      ensures ReplyTrue(orders.orders, data.key, reply) && DecidedOnWord(around.inventory, |asked|, decided)
      ensures reply.Stored? && reply.created ==> !HasKey(old(orders.orders), data.key)
      ensures Decidable(old(EventIsNew(orders.uuids, orders.events, around)), data.key, around, |asked|) ==>
                AnsweredSomehow(data.key, around, old(orders.orders), reply, decided)
      ensures around.alone && !HasKey(old(orders.orders), command.key) ==>
                NewAlone(old(Now()), Now(), command, around, |asked|, reply, decided)
      ensures reply.Error? && Faultless(around) && old(Storable(Now(), command, around))
              && ReadableUnder(Now(), data.key, orders.uuids, orders.parse) ==>
                AskedRight(around.inventory, |asked|)
    {
      OthersAct(around);
      if around.createFails {
        return Orders.Error, [], None;
      }
      ghost var seen := Now();
      KeyStays(old(Now()), seen, data.key);
      reply, asked, decided := CreateBuilt(data, command, around);
      AllowedInTurn(old(Now()), seen, Now());
    }

    /** Nobody can take the key any more before the insert. */
    method CreateBuilt(data: OrderData, ghost command: Command, around: Circumstances)
      returns (reply: Orders.Reply, asked: seq<Reservation>, decided: Option<Status>)
      requires Ready() && BuiltAs(data, command, around)
      modifies orders
      ensures Ready() && RequestsMay(old(Now()), Now())
      ensures ReplyTrue(orders.orders, data.key, reply) && DecidedOnWord(around.inventory, |asked|, decided)
      ensures reply.Stored? && reply.created ==> !HasKey(old(orders.orders), data.key)
      ensures Decidable(old(EventIsNew(orders.uuids, orders.events, around)), data.key, around, |asked|) ==>
                exists created :: Answered(data.key, around, created, reply, decided)
                  && (created <==> old(Storable(Now(), command, around)) && !HasKey(old(orders.orders), data.key))
      ensures !HasKey(old(orders.orders), data.key) && !old(Storable(Now(), command, around)) ==>
                Now() == old(Now()) && reply == Orders.Error && decided == None && asked == []
      ensures around.alone && !HasKey(old(orders.orders), data.key) && old(Storable(Now(), command, around)) ==>
                StoredAlone(old(Now()), Now(), command, around, |asked|, reply, decided)
      ensures reply.Error? && !around.reloadFails && old(Storable(Now(), command, around))
              && ReadableUnder(Now(), data.key, orders.uuids, orders.parse) ==>
                AskedRight(around.inventory, |asked|)
    {
      StoresExactly(data, command, around);
      reply, asked, decided := CreateAndProcess(data, command, around);
    }

    /** The insert stores the key exactly when the order is storable and nobody has the key. */
    lemma StoresExactly(data: OrderData, command: Command, around: Circumstances)
      requires BuiltAs(data, command, around)
      ensures Stores(data) <==> Storable(Now(), command, around) && !HasKey(orders.orders, data.key)
    {
    }

    /** Whether this request's insert is the one that stores the key. */
    ghost predicate Stores(data: OrderData)
      reads this, orders
    {
      CreateResult(orders.orders, RowsOf(data, orders.uuids)).Stored?
    }

    method CreateAndProcess(data: OrderData, ghost command: Command, around: Circumstances)
      returns (reply: Orders.Reply, asked: seq<Reservation>, decided: Option<Status>)
      requires Ready() && BuiltAs(data, command, around)
      modifies orders
      ensures Ready() && RequestsMay(old(Now()), Now())
      ensures ReplyTrue(orders.orders, data.key, reply) && DecidedOnWord(around.inventory, |asked|, decided)
      ensures reply.Stored? ==> (reply.created <==> old(Stores(data)))
      ensures Decidable(old(EventIsNew(orders.uuids, orders.events, around)), data.key, around, |asked|) ==>
                Answered(data.key, around, old(Stores(data)), reply, decided)
      ensures old(Stores(data)) ==> AskedRight(around.inventory, |asked|)
      ensures reply.Error? && old(CreateResult(orders.orders, RowsOf(data, orders.uuids))).DuplicateKey? && !around.reloadFails
              && ReadableUnder(Now(), data.key, orders.uuids, orders.parse) ==>
                AskedRight(around.inventory, |asked|)
      ensures !old(Stores(data)) && !HasKey(old(orders.orders), data.key) ==>
                Now() == old(Now()) && reply == Orders.Error && decided == None && asked == []
      ensures around.alone && old(Stores(data)) ==>
                StoredAlone(old(Now()), Now(), command, around, |asked|, reply, decided)
    {
      asked, decided := [], None;
      NothingIsAllowed(Now());
      var created := orders.Create(data);
      match created {
        case Stored =>
          reply, asked, decided := ProcessStored(old(Now()), data, command, around);
        case DuplicateKey => reply, asked, decided := ProcessWinner(data.key, around);
        case _ => reply := Orders.Error;
      }
    }

    /** The order has just been stored by this request. */
    method ProcessStored(ghost before: Tables, data: OrderData, ghost command: Command, around: Circumstances)
      returns (reply: Orders.Reply, asked: seq<Reservation>, decided: Option<Status>)
      requires orders.Valid() && CodecOk(orders.uuids) && Sound(before) && BuiltAs(data, command, around)
      requires CreateResult(before.orders, RowsOf(data, orders.uuids)).Stored?
      requires var rows := RowsOf(data, orders.uuids).value;
               Now() == Tables(before.orders[rows.order.id := rows.order], before.items[rows.order.id := rows.items], before.events)
      modifies orders
      ensures Ready() && RequestsMay(before, Now())
      ensures ReplyTrue(orders.orders, data.key, reply) && DecidedOnWord(around.inventory, |asked|, decided)
      ensures reply.Stored? ==> reply.created
      ensures AskedRight(around.inventory, |asked|)
      ensures Decidable(EventIsNew(orders.uuids, before.events, around), data.key, around, |asked|) ==>
                Answered(data.key, around, true, reply, decided)
      ensures around.alone ==>
                StoredAlone(before, Now(), command, around, |asked|, reply, decided)
    {
      var order := new Order(data);
      ghost var u := RowsOf(data, orders.uuids).value.order.id;
      ghost var stored := Now();
      StoringIsSound(before, stored, data, u);
      assert CreatedAs(before, stored, u, command, around);
      reply, asked, decided := ProcessPersisted(order, true, u, data.key, around);
      AllowedInTurn(before, stored, Now());
    }

    lemma StoringIsSound(before: Tables, after: Tables, data: OrderData, u: Uuid)
      requires Sound(before) && data.status == Pending && data.createdAt == data.updatedAt
      requires CreateResult(before.orders, RowsOf(data, orders.uuids)).Stored?
      requires u == RowsOf(data, orders.uuids).value.order.id
      requires var rows := RowsOf(data, orders.uuids).value;
               after == Tables(before.orders[u := rows.order], before.items[u := rows.items], before.events)
      ensures Sound(after) && RequestsMay(before, after)
    {
    }

    /** The loser of a race for the key takes the winner's order. */
    method ProcessWinner(key: string, around: Circumstances)
      returns (reply: Orders.Reply, asked: seq<Reservation>, decided: Option<Status>)
      requires Ready() && HasKey(orders.orders, key)
      modifies orders
      ensures Ready() && RequestsMay(old(Now()), Now())
      ensures ReplyTrue(orders.orders, key, reply) && DecidedOnWord(around.inventory, |asked|, decided)
      ensures reply.Stored? ==> !reply.created
      ensures Decidable(old(EventIsNew(orders.uuids, orders.events, around)), key, around, |asked|) ==>
                Answered(key, around, false, reply, decided)
      ensures reply.Error? && !around.reloadFails && ReadableUnder(Now(), key, orders.uuids, orders.parse) ==>
                AskedRight(around.inventory, |asked|)
    {
      if around.reloadFails {
        return Orders.Error, [], None;
      }
      ghost var before := Now();
      var winner := orders.FindByIdempotencyKey(key);
      if !winner.Found? {
        return Orders.Error, [], None;
      }
      reply, asked, decided := ProcessFound(winner.order, key, around);
      if reply.Error? && ReadableUnder(Now(), key, orders.uuids, orders.parse) {
        ErrorAfterAsking(before, Now(), key, orders.uuids, orders.parse, around.inventory, |asked|);
      }
    }

    /** A decided order is answered from what is stored; only a pending one is taken to inventory. */
    method ProcessPersisted(order: Order, created: bool, ghost u: Uuid, ghost key: string, around: Circumstances)
      returns (reply: Orders.Reply, asked: seq<Reservation>, decided: Option<Status>)
      requires Knows(order, u, key) && orders.orders[u].status == order.status
      modifies orders, order
      ensures Ready() && RequestsMay(old(Now()), Now())
      ensures ReplyTrue(orders.orders, key, reply) && DecidedOnWord(around.inventory, |asked|, decided)
      ensures reply.Stored? ==> reply.created == created
      ensures old(order.status) != Pending ==>
                && asked == [] && Now() == old(Now()) && decided == None
                && reply == if old(order.status) == Rejected then Orders.OutOfStock else Orders.Stored(old(order.Data()), created)
      ensures Decidable(old(EventIsNew(orders.uuids, orders.events, around)), key, around, |asked|) ==>
                Answered(key, around, created, reply, decided)
      ensures old(order.status) == Pending ==> AskedRight(around.inventory, |asked|)
      ensures forall i :: 0 <= i < |asked| ==> asked[i] == ReservationFor(old(order.Data()))
      ensures around.alone && old(order.status) == Pending ==>
                AloneRule(old(Now()), Now(), u, orders.uuids, around, |asked|, created, reply, decided)
    {
      match order.status {
        case Accepted => reply, asked, decided := Orders.Stored(order.Data(), created), [], None;
        case Shipped => reply, asked, decided := Orders.Stored(order.Data(), created), [], None;
        case Cancelled => reply, asked, decided := Orders.Stored(order.Data(), created), [], None;
        case Rejected => reply, asked, decided := Orders.OutOfStock, [], None;
        case Pending => reply, asked, decided := ProcessPending(order, created, u, key, around);
      }
    }

    /** Inventory is asked for the order as it is stored, and its last word is acted on. */
    method ProcessPending(order: Order, created: bool, ghost u: Uuid, ghost key: string, around: Circumstances)
      returns (reply: Orders.Reply, asked: seq<Reservation>, decided: Option<Status>)
      requires Knows(order, u, key) && order.status == orders.orders[u].status == Pending
      modifies orders, order
      ensures Ready() && RequestsMay(old(Now()), Now())
      ensures ReplyTrue(orders.orders, key, reply) && DecidedOnWord(around.inventory, |asked|, decided)
      ensures reply.Stored? ==> reply.created == created
      ensures AskedRight(around.inventory, |asked|)
      ensures forall i :: 0 <= i < |asked| ==> asked[i] == ReservationFor(old(order.Data()))
      ensures Decidable(old(EventIsNew(orders.uuids, orders.events, around)), key, around, |asked|) ==>
                Answered(key, around, created, reply, decided)
      ensures around.alone ==> AloneRule(old(Now()), Now(), u, orders.uuids, around, |asked|, created, reply, decided)
    {
      var reservation := ReservationRequestFor(order.Data());
      var result;
      result, asked := ReserveInventory(reservation, around.inventory);
      ghost var before := Now();
      OthersAct(around);
      ghost var seen := Now();
      reply, decided := ActOnWord(order, result, created, u, key, around, |asked|);
      AllowedInTurn(before, seen, Now());
    }

    /** What a reservation attempt came to is acted on; a row that is still pending goes by it exactly. */
    method ActOnWord(
      order: Order, result: ReserveResult, created: bool, ghost u: Uuid, ghost key: string, around: Circumstances,
      ghost calls: nat)
      returns (reply: Orders.Reply, decided: Option<Status>)
      requires Knows(order, u, key) && order.status == Pending
      requires Word(around.inventory, calls) == match result
                 case Reserved => Some(Accepted)
                 case Refused => Some(Rejected)
                 case Broken => None
      modifies orders, order
      ensures Ready() && RequestsMay(old(Now()), Now())
      ensures ReplyTrue(orders.orders, key, reply) && (reply.Stored? ==> reply.created == created)
      ensures decided.Some? ==> decided == Word(around.inventory, calls)
      ensures Decidable(old(EventIsNew(orders.uuids, orders.events, around)), key, around, calls) ==>
                Answered(key, around, created, reply, decided)
      ensures old(orders.orders[u].status) == Pending ==>
                AloneRule(old(Now()), Now(), u, orders.uuids, around, calls, created, reply, decided)
    {
      match result {
        case Broken => reply, decided := Orders.Error, None;
        case Refused => reply, decided := RejectOrder(order, created, u, key, around);
        case Reserved => reply, decided := AcceptOrder(order, created, u, key, around);
      }
    }

    /** Nothing stands in the way of a decision: the clock, the statement, and the compare-and-set. */
    ghost predicate GoesThrough(u: Uuid, around: Circumstances)
      reads this, orders
    {
      u in orders.orders && orders.orders[u].status == Pending && ClockAllows(around, orders.orders[u].createdAt)
    }

    /** The acceptance together with its event, or what somebody else has decided. */
    method AcceptOrder(order: Order, created: bool, ghost u: Uuid, ghost key: string, around: Circumstances)
      returns (reply: Orders.Reply, decided: Option<Status>)
      requires Knows(order, u, key) && order.status == Pending
      modifies orders, order
      ensures Ready() && RequestsMay(old(Now()), Now())
      ensures ReplyTrue(orders.orders, key, reply) && (reply.Stored? ==> reply.created == created)
      ensures decided == if old(GoesThrough(u, around)) && old(EventIsNew(orders.uuids, orders.events, around))
                         then Some(Accepted) else None
      ensures decided.Some? ==>
                var accepted := old(order.Data()).(status := Accepted, updatedAt := around.decidedAt);
                && reply == Orders.Stored(accepted, created)
                && Now() == old(Now()).(
                     orders := old(orders.orders)[u := DecidedRow(old(orders.orders)[u], Accepted, around.decidedAt)],
                     events := old(orders.events)[orders.uuids.parse(around.eventId).value :=
                       EventRow(u, PayloadOf(EventOf(around.eventId, accepted)))])
      ensures old(orders.orders[u].status) == Pending && decided.None? ==> reply == Orders.Error && Now() == old(Now())
      ensures old(ClockAllows(around, orders.orders[u].createdAt)) && old(EventIsNew(orders.uuids, orders.events, around)) ==>
                Answered(key, around, created, reply, decided)
    {
      var error := order.Accept(around.decidedAt);
      if error.Some? || around.updateFails {
        return Orders.Error, None;
      }
      var stored := StoreAcceptance(order.Data(), u, around);
      match stored {
        case Conflict =>
          reply := ReadVerdict(order.id, created, u, key, around);
          decided := None;
        case Stored =>
          assert DecidedAs(orders.orders, u, key);
          reply, decided := Orders.Stored(order.Data(), created), Some(Accepted);
        case _ => reply, decided := Orders.Error, None;
      }
    }

    /** The acceptance with its event, in one transaction. */
    method StoreAcceptance(data: OrderData, ghost u: Uuid, around: Circumstances) returns (stored: StoreResult)
      requires Ready() && orders.uuids.parse(data.id) == Some(u) && RowsOf(data, orders.uuids).Some? && u in orders.orders
      requires data.status == Accepted && data.updatedAt == around.decidedAt
      modifies orders
      ensures Ready() && RequestsMay(old(Now()), Now())
      ensures stored == if orders.uuids.parse(around.eventId).None? then Failed
                        else if old(orders.orders)[u].status != Pending then Conflict
                        else if old(EventIsNew(orders.uuids, orders.events, around)) then Stored
                        else Failed
      ensures stored != Stored ==> Now() == old(Now())
      ensures stored == Stored ==> Now() == old(Now()).(
                orders := old(orders.orders)[u := DecidedRow(old(orders.orders)[u], Accepted, around.decidedAt)],
                events := old(orders.events)[orders.uuids.parse(around.eventId).value :=
                  EventRow(u, PayloadOf(EventOf(around.eventId, data)))])
    {
      var event := NewOrderAcceptedEvent(around.eventId, data);
      StateWritten(orders.orders, data, orders.uuids);
      stored := orders.UpdateAndRecordEvent(data, Pending, event);
      if stored == Stored { DecidingIsSound(old(Now()), Now(), u, Accepted, around.decidedAt); }
    }

    method StoreRejection(data: OrderData, ghost u: Uuid, around: Circumstances) returns (stored: StoreResult)
      requires Ready() && orders.uuids.parse(data.id) == Some(u) && RowsOf(data, orders.uuids).Some? && u in orders.orders
      requires data.status == Rejected && data.updatedAt == around.decidedAt
      modifies orders
      ensures Ready() && RequestsMay(old(Now()), Now())
      ensures stored == if old(orders.orders)[u].status != Pending then Conflict else Stored
      ensures stored != Stored ==> Now() == old(Now())
      ensures stored == Stored ==> Now() == old(Now()).(
                orders := old(orders.orders)[u := DecidedRow(old(orders.orders)[u], Rejected, around.decidedAt)])
    {
      StateWritten(orders.orders, data, orders.uuids);
      stored := orders.Update(data, Pending);
      if stored == Stored { DecidingIsSound(old(Now()), Now(), u, Rejected, around.decidedAt); }
    }

    /** The conditional update writes the decision into its row. */
    lemma StateWritten(table: OrderTable, data: OrderData, uuids: UuidCodec)
      requires RowsOf(data, uuids).Some?
      ensures var row := RowsOf(data, uuids).value.order;
              row.id in table ==>
                WithState(table, row) == table[row.id := DecidedRow(table[row.id], data.status, data.updatedAt)]
    {
    }

    /** Somebody else has decided: whatever they do next, the verdict stands and is read. */
    method ReadVerdict(id: string, created: bool, ghost u: Uuid, ghost key: string, around: Circumstances)
      returns (reply: Orders.Reply)
      requires Ready() && orders.uuids.parse(id) == Some(u) && DecidedAs(orders.orders, u, key)
      modifies orders
      ensures Ready() && RequestsMay(old(Now()), Now())
      ensures ReplyTrue(orders.orders, key, reply) && (reply.Stored? ==> reply.created == created)
      ensures Answered(key, around, created, reply, None)
    {
      OthersAct(around);
      assert DecidedAs(orders.orders, u, key);
      reply := ResultAfterConflict(id, created, u, key, around);
    }

    method RejectOrder(order: Order, created: bool, ghost u: Uuid, ghost key: string, around: Circumstances)
      returns (reply: Orders.Reply, decided: Option<Status>)
      requires Knows(order, u, key) && order.status == Pending
      modifies orders, order
      ensures Ready() && RequestsMay(old(Now()), Now())
      ensures ReplyTrue(orders.orders, key, reply) && (reply.Stored? ==> reply.created == created)
      ensures decided == if old(GoesThrough(u, around)) then Some(Rejected) else None
      ensures decided.Some? ==>
                && reply == Orders.OutOfStock
                && Now() == old(Now()).(
                     orders := old(orders.orders)[u := DecidedRow(old(orders.orders)[u], Rejected, around.decidedAt)])
      ensures old(orders.orders[u].status) == Pending && decided.None? ==> reply == Orders.Error && Now() == old(Now())
      ensures old(ClockAllows(around, orders.orders[u].createdAt)) ==> Answered(key, around, created, reply, decided)
    {
      var error := order.Reject(around.decidedAt);
      if error.Some? || around.updateFails {
        return Orders.Error, None;
      }
      var stored := StoreRejection(order.Data(), u, around);
      match stored {
        case Conflict =>
          reply := ReadVerdict(order.id, created, u, key, around);
          decided := None;
        case Stored =>
          assert DecidedAs(orders.orders, u, key);
          reply, decided := Orders.OutOfStock, Some(Rejected);
        case _ => reply, decided := Orders.Error, None;
      }
    }

    /** The loser reads the winner's verdict; finding the order still pending is an error. */
    method ResultAfterConflict(id: string, created: bool, ghost u: Uuid, ghost key: string, around: Circumstances)
      returns (reply: Orders.Reply)
      requires orders.Valid() && orders.uuids.parse(id) == Some(u) && u in orders.orders && orders.orders[u].key == key
      ensures ReplyTrue(orders.orders, key, reply) && (reply.Stored? ==> reply.created == created)
      ensures reply ==
                var found := LoadedFrom(orders.orders[u], orders.items[u], orders.uuids, orders.parse);
                if around.resolveFails || !found.Found? || found.order.status == Pending then Orders.Error
                else if found.order.status == Rejected then Orders.OutOfStock
                else Orders.Stored(found.order, created)
      ensures orders.orders[u].status != Pending ==>
                AnswersVerdict(orders.orders[u], LoadedFrom(orders.orders[u], orders.items[u], orders.uuids, orders.parse),
                               around, created, reply, None)
    {
      if around.resolveFails {
        return Orders.Error;
      }
      var found := orders.FindByID(id);
      if !found.Found? {
        return Orders.Error;
      }
      FoundIsRow(orders.orders[u], orders.items[u], orders.uuids, orders.parse);
      match found.order.status {
        case Accepted => reply := Orders.Stored(found.order, created);
        case Shipped => reply := Orders.Stored(found.order, created);
        case Cancelled => reply := Orders.Stored(found.order, created);
        case Rejected => reply := Orders.OutOfStock;
        case Pending => reply := Orders.Error;
      }
    }
  }
}
