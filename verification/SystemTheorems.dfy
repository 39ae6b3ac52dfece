/** The promises that no single service can make, over every run of all three. */
module SystemTheorems {
  import opened Collections
  import opened Skus
  import opened Baskets
  import opened Canonical
  import opened OrderDomain
  import opened Pipeline
  import opened StockTables
  import Tables = StockTables
  import opened SystemRuns
  import opened SystemSteps
  import opened SystemSafety
  import Orders = OrderRuns
  import OrderSafety
  import OrderTheorems
  import Stock = ReservationRuns
  import StockSafety = ReservationSafety
  import StockTheorems = ReservationTheorems
  import Finality = ReservationFinality
  import Relay = OutboxRuns
  import Box = Outbox
  import RelaySafety = OutboxSafety
  import Mail = NotificationRuns
  import MailSafety = NotificationSafety
  import MailTheorems = NotificationTheorems
  import Timing = NotificationTiming
  import Delivery = NotificationDelivery
  import Notifications

  // ----- no accepted order is lost

  /** The event waits in the outbox, for a worker or for a person. */
  ghost predicate Waiting(s: State, event: EventId)
  {
    event in s.outbox.rows && s.outbox.rows[event].status != Box.Published
  }

  ghost predicate Safe(s: State, order: string)
  {
    exists event :: Tells(s, event, order) && (Waiting(s, event) || Delivery.Delivered(s.mail, order))
  }

  ghost predicate Tells(s: State, event: EventId, order: string)
  {
    event in s.orders.events && order in s.orders.orders && s.orders.events[event] == EventOf(event, s.orders.orders[order])
  }

  lemma AcceptedIsAnnounced(env: Env, s: State, order: string)
    requires Inv(env, s) && order in s.orders.orders && s.orders.orders[order].status == Accepted
    ensures exists event :: Tells(s, event, order)
  {
    assert OrderSafety.Announced(s.orders, order);
    var event :| event in s.orders.events && s.orders.events[event].orderId == order;
    assert OrderSafety.EventOk(s.orders, event);
    assert Tells(s, event, order);
  }

  lemma PublishedIsRouted(env: Env, s: State, event: EventId)
    requires Inv(env, s) && event in s.orders.events && !Waiting(s, event)
    ensures DeliveredFor(s, event)
  {
    if event in s.outbox.rows { assert RelaySafety.RowOk(s.outbox, event, s.outbox.rows[event]); }
  }

  lemma TellsOf(env: Env, s: State, event: EventId, order: string)
    requires Inv(env, s) && Tells(s, event, order)
    ensures s.orders.events[event].orderId == order
  {
    assert OrderSafety.OrderOk(env.formats, s.orders, order, s.orders.orders[order]);
  }

  /**
   * No accepted order is lost. Whatever crashes, is taken over, is written late or is
   * never answered, the event of an accepted order is in the outbox and unpublished, or a
   * copy of its message is queued, parked or in a handler's hands, or its email is
   * recorded as sent.
   */
  lemma NoAcceptedOrderIsLost(env: Env, run: seq<State>, n: nat, order: string)
    requires IsRun(env, run) && n < |run|
    requires order in run[n].orders.orders && run[n].orders.orders[order].status == Accepted
    ensures Safe(run[n], order)
  {
    var s := run[n];
    RunKeepsInv(env, run, n);
    AcceptedIsAnnounced(env, s, order);
    var event :| Tells(s, event, order);
    TellsOf(env, s, event, order);
    if !Waiting(s, event) { PublishedIsRouted(env, s, event); }
  }

  // ----- accepted means backed by stock

  /** An item as a line of a basket, with nothing cut off its quantity. */
  function LineFor(item: OrderItem): Line { Line(Trim(item.productSku), item.quantity as int) }

  /** The quantity an order asks for, per product. */
  function Wanted(order: OrderData): map<Sku, int> { Sums(Mapped(LineFor, order.items)) }

  /** The wire cuts quantities down, and never up. */
  lemma CutLine(item: OrderItem)
    requires ItemValid(item)
    ensures Clean(ReservationLine(item)).sku == LineFor(item).sku
    ensures Clean(ReservationLine(item)).quantity <= LineFor(item).quantity
    ensures Clean(ReservationLine(item)).quantity == LineFor(item).quantity <==> item.quantity as int < 0x8000_0000
  {
    ToInt32Exact(item.quantity);
  }

  /** No more is asked for per product by lines that ask for no more each, and less if one of them asks for less. */
  lemma {:induction false} SumsFollowLines(less: seq<Line>, more: seq<Line>, sku: Sku)
    requires |less| == |more|
    requires forall i :: 0 <= i < |less| ==> less[i].sku == more[i].sku && less[i].quantity <= more[i].quantity
    ensures sku in Sums(less) <==> sku in Sums(more)
    ensures Tables.Quantity(Sums(less), sku) <= Tables.Quantity(Sums(more), sku)
    ensures (exists i :: 0 <= i < |less| && less[i].sku == sku && less[i].quantity < more[i].quantity) ==>
              Tables.Quantity(Sums(less), sku) < Tables.Quantity(Sums(more), sku)
  {
    if less != [] {
      var last := |less| - 1;
      SumsFollowLines(less[..last], more[..last], sku);
      if i :| 0 <= i < |less| && less[i].sku == sku && less[i].quantity < more[i].quantity {
        if i < last { assert less[..last][i].sku == sku && less[..last][i].quantity < more[..last][i].quantity; }
      }
    }
  }

  lemma {:induction false} SumOfLine(lines: seq<Line>, i: nat)
    requires i < |lines|
    ensures lines[i].sku in Sums(lines)
  {
    if i < |lines| - 1 { SumOfLine(lines[..|lines| - 1], i); }
  }

  /**
   * Nothing is cut off exactly when every quantity fits its column: then, and only then,
   * are the lines that inventory sees the order's own.
   */
  lemma NothingIsCutOffExactly(order: OrderData)
    requires ItemsValid(order.items)
    ensures Cleaned(ReservationFor(order).lines) == Mapped(LineFor, order.items) <==> FitsSchema(order)
  {
    var cut, full := Cleaned(ReservationFor(order).lines), Mapped(LineFor, order.items);
    forall i | 0 <= i < |order.items|
      ensures cut[i] == full[i] <==> order.items[i].quantity as int < 0x8000_0000
    {
      assert ItemValid(order.items[i]);
      CutLine(order.items[i]);
    }
  }

  /** The basket that inventory reserves is what the order wants exactly when every quantity fits its column. */
  lemma ReservedBasketIsWanted(order: OrderData)
    requires ItemsValid(order.items)
    ensures Basket(Canonicals(Cleaned(ReservationFor(order).lines))) == Wanted(order) <==> FitsSchema(order)
  {
    var cut, full := Cleaned(ReservationFor(order).lines), Mapped(LineFor, order.items);
    NothingIsCutOffExactly(order);
    CanonicalsCarrySums(cut);
    if !FitsSchema(order) {
      var i :| 0 <= i < |order.items| && order.items[i].quantity as int >= 0x8000_0000;
      forall j | 0 <= j < |order.items| ensures cut[j].sku == full[j].sku && cut[j].quantity <= full[j].quantity {
        assert ItemValid(order.items[j]);
        CutLine(order.items[j]);
      }
      assert ItemValid(order.items[i]);
      CutLine(order.items[i]);
      assert cut[i].sku == full[i].sku && cut[i].quantity < full[i].quantity;
      SumsFollowLines(cut, full, full[i].sku);
    }
  }

  /** An order of 2^32 + 5 pieces: inventory would be asked for 5, and the consumer would be told of 5. */
  lemma CutQuantity(order: OrderData, sku: Sku, price: Money)
    requires order.items == [OrderItem(sku, 0x1_0000_0005, price)] && ItemsValid(order.items)
    ensures !FitsSchema(order)
    ensures Basket(Canonicals(Cleaned(ReservationFor(order).lines))) == map[Trim(sku) := 5]
    ensures Wanted(order) == map[Trim(sku) := 0x1_0000_0005]
    ensures LinesAccepted(Mapped(WireLineOf, Mapped(EventLineOf, order.items)))
  {
    var cut, full := Cleaned(ReservationFor(order).lines), Mapped(LineFor, order.items);
    assert cut == [Line(Trim(sku), 5)] && full == [Line(Trim(sku), 0x1_0000_0005)];
    OneLineSums(cut[0]);
    OneLineSums(full[0]);
    CanonicalsCarrySums(cut);
    LinesDecodeExactly(order);
  }

  lemma OneLineSums(line: Line)
    ensures Sums([line]) == map[line.sku := line.quantity]
  {
    assert Sums([line]) == Plus(Sums([line][..0]), line);
  }

  /** Every call for an order, first or repeated, early or late, asks for the same basket. */
  lemma CallsAskForTheOrder(env: Env, s: State, call: CallId)
    requires Inv(env, s) && call in s.stock.calls
    ensures var id := s.stock.calls[call].order;
            id in s.orders.orders
            && s.stock.calls[call].lines == Canonicals(Cleaned(ReservationFor(s.orders.orders[id]).lines))
  {
    var sent := s.sent[call];
    assert OrderSafety.OrderOk(env.formats, s.orders, sent.order, s.orders.orders[sent.order]);
  }

  lemma OneBasketForEach(env: Env, s: State)
    requires Inv(env, s)
    ensures Finality.OneBasketEach(s.stock)
  {
    forall call | call in s.stock.calls
      ensures call in s.sent && s.stock.calls[call].order in s.orders.orders
      ensures s.stock.calls[call].lines
           == Canonicals(Cleaned(ReservationFor(s.orders.orders[s.stock.calls[call].order]).lines))
    {
      CallsAskForTheOrder(env, s, call);
    }
  }

  lemma HeldIsAsked(env: Env, s: State, call: CallId)
    requires Inv(env, s) && call in s.stock.calls
    ensures var id := s.stock.calls[call].order;
            id in s.orders.orders
            && (HeldBy(s.stock.reservations, id) == map[]
                || HeldBy(s.stock.reservations, id) == Wanted(s.orders.orders[id]))
  {
    var id := s.stock.calls[call].order;
    OneBasketForEach(env, s);
    CallsAskForTheOrder(env, s, call);
    StockTheorems.HeldIsWholeOrNothing(s.stock, call);
    assert OrderSafety.OrderOk(env.formats, s.orders, id, s.orders.orders[id]);
    ReservedBasketIsWanted(s.orders.orders[id]);
  }

  lemma BackedHasCall(s: State, order: string) returns (call: CallId)
    requires StockSafety.Accounted(s.stock) && Backed(s.stock, order)
    ensures call in s.stock.calls && s.stock.calls[call].order == order
  {
    var sku :| sku in HeldBy(s.stock.reservations, order);
    call :| StockSafety.CommittedWith(s.stock, call, order, sku);
  }

  /**
   * Accepted means backed by stock: while a request is about to accept an order, and for
   * good once it is accepted, inventory holds for it exactly the quantities of its items.
   */
  lemma AcceptedIsBackedByStock(env: Env, run: seq<State>, n: nat, order: string)
    requires IsRun(env, run) && n < |run|
    requires order in run[n].orders.orders && run[n].orders.orders[order].status == Accepted
    ensures HeldBy(run[n].stock.reservations, order) == Wanted(run[n].orders.orders[order])
    ensures forall sku :: sku in Wanted(run[n].orders.orders[order]) ==> sku in run[n].stock.stock
  {
    var s := run[n];
    RunKeepsInv(env, run, n);
    var call := BackedHasCall(s, order);
    HeldIsAsked(env, s, call);
    HeldIsStocked(s.stock, order);
  }

  lemma HeldIsStocked(s: Stock.State, order: string)
    requires StockSafety.Inv(s)
    ensures forall sku :: sku in HeldBy(s.reservations, order) ==> sku in s.stock
  {
  }

  /** Inventory never holds anything but a whole order of the order service, whatever became of it. */
  lemma HeldIsWhatAnOrderWants(env: Env, run: seq<State>, n: nat, order: string)
    requires IsRun(env, run) && n < |run| && HeldBy(run[n].stock.reservations, order) != map[]
    ensures order in run[n].orders.orders
    ensures HeldBy(run[n].stock.reservations, order) == Wanted(run[n].orders.orders[order])
  {
    var s := run[n];
    RunKeepsInv(env, run, n);
    var call := BackedHasCall(s, order);
    HeldIsAsked(env, s, call);
  }

  lemma StepAtProjects(env: Env, run: seq<State>, n: nat)
    requires IsRun(env, run) && 0 < n < |run|
    ensures Projects(env, run[n - 1], run[n])
  {
    assert StepAt(env, run, n);
    var a :| Next(env, run[n - 1], a, run[n]);
    StepProjects(env, run[n - 1], a, run[n]);
  }

  lemma StockIsSound(env: Env, run: seq<State>, n: nat)
    requires IsRun(env, run) && n < |run|
    ensures StockSafety.Inv(run[n].stock)
  {
    RunKeepsInv(env, run, n);
  }

  lemma BasketsAreOne(env: Env, run: seq<State>, n: nat)
    requires IsRun(env, run) && n < |run|
    ensures Finality.OneBasketEach(run[n].stock)
  {
    RunKeepsInv(env, run, n);
    OneBasketForEach(env, run[n]);
  }

  lemma StockSteps(env: Env, run: seq<State>, n: nat)
    requires IsRun(env, run) && 0 < n < |run|
    ensures run[n].stock == run[n - 1].stock || StockTheorems.Step(run[n - 1].stock, run[n].stock)
  {
    StepAtProjects(env, run, n);
  }

  ghost predicate NoConflict(s: Stock.State)
  {
    forall call :: call in s.calls ==> s.calls[call].pc != Stock.Done(Stock.Mismatch)
  }

  lemma StockStepKeepsNoConflict(s: Stock.State, s': Stock.State)
    requires NoConflict(s) && (s' == s || StockTheorems.Step(s, s'))
    requires StockSafety.CallsOk(s) && StockSafety.Accounted(s) && Finality.OneBasketEach(s')
    ensures NoConflict(s')
  {
    if s' != s {
      forall call | call in s'.calls ensures s'.calls[call].pc != Stock.Done(Stock.Mismatch) {
        StockTheorems.MismatchStep(s, s', call);
      }
    }
  }

  /** The order service can never run into inventory's "another basket is held" refusal. */
  lemma {:induction false} NoCallConflicts(env: Env, run: seq<State>, n: nat)
    requires IsRun(env, run) && n < |run|
    ensures NoConflict(run[n].stock)
  {
    if n > 0 {
      NoCallConflicts(env, run, n - 1);
      NoConflictKeptAt(env, run, n);
    }
  }

  lemma NoConflictKeptAt(env: Env, run: seq<State>, n: nat)
    requires IsRun(env, run) && 0 < n < |run| && NoConflict(run[n - 1].stock)
    ensures NoConflict(run[n].stock)
  {
    StockSteps(env, run, n);
    StockIsSound(env, run, n - 1);
    BasketsAreOne(env, run, n);
    StockStepKeepsNoConflict(run[n - 1].stock, run[n].stock);
  }

  // ----- rejected holds nothing

  /** A statement for the order is refused at step m. */
  ghost predicate RefusedAt(run: seq<State>, m: int, call: CallId, cause: Stock.Refusal, order: string)
  {
    0 < m < |run| && Finality.Refuses(run[m - 1].stock, call, run[m].stock, cause) && run[m].stock.calls[call].order == order
  }

  /** Nothing is added to any of these products from step m to step n. */
  ghost predicate NoRestockSince(run: seq<State>, m: int, n: int, skus: set<Sku>)
  {
    0 <= m && n < |run| && forall i :: m < i <= n ==> Finality.NoRestockOf(run[i - 1].stock, run[i].stock, skus)
  }

  /** What the request for an order comes to in inventory. */
  function LinesOf(order: OrderData): seq<Line> { Canonicals(Cleaned(ReservationFor(order).lines)) }

  ghost predicate Settled(s: State, order: string, cause: Stock.Refusal)
  {
    order in s.orders.orders && Finality.Settled(s.stock, order, LinesOf(s.orders.orders[order]), cause)
  }

  lemma OrdersStep(env: Env, run: seq<State>, n: nat)
    requires IsRun(env, run) && 0 < n < |run|
    ensures OrderSafety.OrdersKept(run[n - 1].orders, run[n].orders)
  {
    OrdersMove(env, run, n);
    OrdersAreSound(env, run, n - 1);
    OrdersStepKeeps(env.formats, run[n - 1].orders, run[n].orders);
  }

  lemma OrdersMove(env: Env, run: seq<State>, n: nat)
    requires IsRun(env, run) && 0 < n < |run|
    ensures run[n].orders == run[n - 1].orders || Orders.Step(env.formats, run[n - 1].orders, run[n].orders)
  {
    StepAtProjects(env, run, n);
  }

  lemma OrdersAreSound(env: Env, run: seq<State>, n: nat)
    requires IsRun(env, run) && n < |run|
    ensures OrderSafety.Inv(env.formats, run[n].orders)
  {
    RunKeepsInv(env, run, n);
  }

  lemma OrdersStepKeeps(formats: Orders.Formats, s: Orders.State, s': Orders.State)
    requires OrderSafety.Inv(formats, s) && (s' == s || Orders.Step(formats, s, s'))
    ensures OrderSafety.OrdersKept(s, s')
  {
    if s' != s { OrderTheorems.StepKeepsOrders(formats, s, s'); }
  }

  /** A stored order goes on asking for the same lines. */
  lemma SameLines(s: State, s': State, order: string)
    requires OrderSafety.OrdersKept(s.orders, s'.orders) && order in s.orders.orders
    ensures order in s'.orders.orders && LinesOf(s'.orders.orders[order]) == LinesOf(s.orders.orders[order])
    ensures Wanted(s'.orders.orders[order]) == Wanted(s.orders.orders[order])
  {
    assert OrderSafety.OrderKept(s.orders, s'.orders, order);
  }

  lemma StockStepKeepsSettled(s: Stock.State, s': Stock.State, order: string, lines: seq<Line>, cause: Stock.Refusal)
    requires StockSafety.Inv(s) && (s' == s || StockTheorems.Step(s, s')) && Finality.Settled(s, order, lines, cause)
    requires Finality.NoRestockOf(s, s', Basket(lines).Keys)
    ensures Finality.Settled(s', order, lines, cause)
  {
    if s' != s { Finality.StepKeepsSettled(s, s', order, lines, cause); }
  }

  lemma StepKeepsSettled(env: Env, run: seq<State>, n: nat, order: string, cause: Stock.Refusal)
    requires IsRun(env, run) && 0 < n < |run| && Settled(run[n - 1], order, cause)
    requires Finality.NoRestockOf(run[n - 1].stock, run[n].stock, Basket(LinesOf(run[n - 1].orders.orders[order])).Keys)
    ensures Settled(run[n], order, cause)
    ensures LinesOf(run[n].orders.orders[order]) == LinesOf(run[n - 1].orders.orders[order])
  {
    var lines := LinesOf(run[n - 1].orders.orders[order]);
    OrdersStep(env, run, n);
    SameLines(run[n - 1], run[n], order);
    assert Finality.Settled(run[n].stock, order, lines, cause) by { StockKeepsSettledAt(env, run, n, order, lines, cause); }
  }

  lemma StockKeepsSettledAt(env: Env, run: seq<State>, n: nat, order: string, lines: seq<Line>, cause: Stock.Refusal)
    requires IsRun(env, run) && 0 < n < |run| && Finality.Settled(run[n - 1].stock, order, lines, cause)
    requires Finality.NoRestockOf(run[n - 1].stock, run[n].stock, Basket(lines).Keys)
    ensures Finality.Settled(run[n].stock, order, lines, cause)
  {
    StockIsSound(env, run, n - 1);
    StockSteps(env, run, n);
    StockStepKeepsSettled(run[n - 1].stock, run[n].stock, order, lines, cause);
  }

  /** The call that a statement refuses is one for a stored order's lines, and settles it. */
  lemma RefusalSettles(env: Env, run: seq<State>, m: nat, call: CallId, cause: Stock.Refusal, order: string)
    requires IsRun(env, run) && RefusedAt(run, m, call, cause, order)
    ensures Settled(run[m], order, cause)
  {
    CallsAskAt(env, run, m, call);
    StockRefusalSettles(env, run, m, call, cause);
  }

  lemma StockRefusalSettles(env: Env, run: seq<State>, m: nat, call: CallId, cause: Stock.Refusal)
    requires IsRun(env, run) && 0 < m < |run| && Finality.Refuses(run[m - 1].stock, call, run[m].stock, cause)
    ensures var c := run[m].stock.calls[call]; Finality.Settled(run[m].stock, c.order, c.lines, cause)
  {
    StockIsSound(env, run, m - 1);
    BasketsAreOne(env, run, m - 1);
    SettledByStep(env, run, m, call, cause);
  }

  lemma SettledByStep(env: Env, run: seq<State>, m: nat, call: CallId, cause: Stock.Refusal)
    requires IsRun(env, run) && 0 < m < |run| && Finality.Refuses(run[m - 1].stock, call, run[m].stock, cause)
    requires StockSafety.Inv(run[m - 1].stock) && Finality.OneBasketEach(run[m - 1].stock)
    ensures var c := run[m].stock.calls[call]; Finality.Settled(run[m].stock, c.order, c.lines, cause)
  {
    StockSteps(env, run, m);
    StockStepSettles(run[m - 1].stock, run[m].stock, call, cause);
  }

  lemma StockStepSettles(s: Stock.State, s': Stock.State, call: CallId, cause: Stock.Refusal)
    requires StockSafety.Inv(s) && (s' == s || StockTheorems.Step(s, s')) && Finality.OneBasketEach(s)
    requires Finality.Refuses(s, call, s', cause)
    ensures Finality.Settled(s', s'.calls[call].order, s'.calls[call].lines, cause)
  {
    assert s' != s;
    Finality.RefusalSettles(s, s', call, cause);
  }

  lemma CallsAskAt(env: Env, run: seq<State>, n: nat, call: CallId)
    requires IsRun(env, run) && n < |run| && call in run[n].stock.calls
    ensures var id := run[n].stock.calls[call].order;
            id in run[n].orders.orders && run[n].stock.calls[call].lines == LinesOf(run[n].orders.orders[id])
  {
    RunKeepsInv(env, run, n);
    CallsAskForTheOrder(env, run[n], call);
  }

  lemma {:induction false} RefusalStaysSettled(
    env: Env, run: seq<State>, m: nat, n: nat, call: CallId, cause: Stock.Refusal, order: string)
    requires IsRun(env, run) && m <= n < |run| && RefusedAt(run, m, call, cause, order)
    requires order in run[n].orders.orders
    requires NoRestockSince(run, m, n, Basket(LinesOf(run[n].orders.orders[order])).Keys)
    ensures Settled(run[n], order, cause)
    decreases n - m
  {
    if m == n {
      RefusalSettles(env, run, m, call, cause, order);
    } else {
      StoredSince(env, run, m, n - 1, call, cause, order);
      OrdersStep(env, run, n);
      SameLines(run[n - 1], run[n], order);
      RefusalStaysSettled(env, run, m, n - 1, call, cause, order);
      StepKeepsSettled(env, run, n, order, cause);
    }
  }

  lemma {:induction false} StoredSince(
    env: Env, run: seq<State>, m: nat, n: nat, call: CallId, cause: Stock.Refusal, order: string)
    requires IsRun(env, run) && m <= n < |run| && RefusedAt(run, m, call, cause, order)
    ensures order in run[n].orders.orders
    decreases n - m
  {
    if m == n {
      CallsAskAt(env, run, m, call);
    } else {
      StoredSince(env, run, m, n - 1, call, cause, order);
      OrdersStep(env, run, n);
      SameLines(run[n - 1], run[n], order);
    }
  }

  /**
   * A refused order holds nothing for as long as nothing is added to its own products:
   * from the statement that refuses on, no retry and no delayed call makes inventory hold
   * anything for it.
   */
  lemma RefusedHoldsNothing(env: Env, run: seq<State>, m: nat, n: nat, call: CallId, cause: Stock.Refusal, order: string)
    requires IsRun(env, run) && m <= n < |run| && RefusedAt(run, m, call, cause, order)
    requires order in run[n].orders.orders && NoRestockSince(run, m, n, Wanted(run[n].orders.orders[order]).Keys)
    ensures HeldBy(run[n].stock.reservations, order) == map[]
  {
    WantedIsAsked(env, run, n, order);
    RefusalStaysSettled(env, run, m, n, call, cause, order);
    SettledHoldsNothing(env, run, n, order, cause);
  }

  lemma WantedIsAsked(env: Env, run: seq<State>, n: nat, order: string)
    requires IsRun(env, run) && n < |run| && order in run[n].orders.orders
    ensures Basket(LinesOf(run[n].orders.orders[order])) == Wanted(run[n].orders.orders[order])
  {
    RunKeepsInv(env, run, n);
    assert OrderSafety.OrderOk(env.formats, run[n].orders, order, run[n].orders.orders[order]);
    ReservedBasketIsWanted(run[n].orders.orders[order]);
  }

  lemma SettledHoldsNothing(env: Env, run: seq<State>, n: nat, order: string, cause: Stock.Refusal)
    requires IsRun(env, run) && n < |run| && Settled(run[n], order, cause)
    ensures HeldBy(run[n].stock.reservations, order) == map[]
  {
    if Backed(run[n].stock, order) {
      StockIsSound(env, run, n);
      var call := BackedHasCall(run[n], order);
      BasketsAreOne(env, run, n);
      CallsAskAt(env, run, n, call);
      Finality.UncommittedHoldsNothing(run[n].stock, call);
    }
  }

  /** A rejected order was refused by a statement of inventory. */
  lemma RejectedWasRefused(env: Env, run: seq<State>, n: nat, order: string)
    returns (m: nat, call: CallId, cause: Stock.Refusal)
    requires IsRun(env, run) && n < |run|
    requires order in run[n].orders.orders && run[n].orders.orders[order].status == Rejected
    ensures m <= n && RefusedAt(run, m, call, cause, order)
  {
    call := WhoWasTold(env, run, n, order);
    m, cause := WhenRefused(env, run, n, call, Stock.ShortOfStock);
  }

  lemma WhoWasTold(env: Env, run: seq<State>, n: nat, order: string) returns (call: CallId)
    requires IsRun(env, run) && n < |run|
    requires order in run[n].orders.orders && run[n].orders.orders[order].status == Rejected
    ensures call in run[n].stock.calls && run[n].stock.calls[call].order == order
    ensures Finality.RefusedFor(run[n].stock.calls[call], Stock.ShortOfStock)
  {
    assert RejectedOk(run[n]) by { RunKeepsInv(env, run, n); }
    assert Refused(run[n].stock, order);
    call :| call in run[n].stock.calls && run[n].stock.calls[call].order == order
      && run[n].stock.calls[call].pc == Stock.Done(Stock.Refused(Stock.ShortOfStock));
  }

  lemma {:induction false} WhenRefused(env: Env, run: seq<State>, n: nat, call: CallId, told: Stock.Refusal)
    returns (m: nat, cause: Stock.Refusal)
    requires IsRun(env, run) && n < |run| && call in run[n].stock.calls
    requires Finality.RefusedFor(run[n].stock.calls[call], told)
    ensures m <= n && RefusedAt(run, m, call, cause, run[n].stock.calls[call].order)
  {
    m, cause := n, told;
    if !RefusedAt(run, n, call, told, run[n].stock.calls[call].order) {
      RefusedBefore(env, run, n, call, told);
      var before :| Finality.RefusedFor(run[n - 1].stock.calls[call], before);
      m, cause := WhenRefused(env, run, n - 1, call, before);
    }
  }

  lemma RefusedBefore(env: Env, run: seq<State>, n: nat, call: CallId, told: Stock.Refusal)
    requires IsRun(env, run) && n < |run| && call in run[n].stock.calls
    requires Finality.RefusedFor(run[n].stock.calls[call], told)
    requires !RefusedAt(run, n, call, told, run[n].stock.calls[call].order)
    ensures n > 0 && Finality.WasRefused(run[n - 1].stock, call)
    ensures run[n].stock.calls[call].order == run[n - 1].stock.calls[call].order
  {
    StockSteps(env, run, n);
    var s, s' := run[n - 1].stock, run[n].stock;
    if s' == s { assert Finality.RefusedFor(s.calls[call], told); }
    else { StockStepRefused(s, s', call, told); }
  }

  lemma StockStepRefused(s: Stock.State, s': Stock.State, call: CallId, told: Stock.Refusal)
    requires StockTheorems.Step(s, s') && call in s'.calls && Finality.RefusedFor(s'.calls[call], told)
    requires !Finality.Refuses(s, call, s', told)
    ensures Finality.WasRefused(s, call) && s'.calls[call].order == s.calls[call].order
  {
    Finality.RefusedByStatement(s, s', call, told);
    var id, a :| Stock.Next(s, id, a, s');
    StockTheorems.CallsKeepLines(s, id, a, s');
  }

  /** The order was refused at step m, and nothing has been added to its products up to step n. */
  ghost predicate RefusedSince(run: seq<State>, m: int, n: nat, call: CallId, cause: Stock.Refusal, order: string)
    requires n < |run| && order in run[n].orders.orders
  {
    && m <= n && RefusedAt(run, m, call, cause, order)
    && NoRestockSince(run, m, n, Wanted(run[n].orders.orders[order]).Keys)
  }

  /**
   * Rejected holds nothing: a rejected order was refused by a statement, and while nothing
   * has been added to its own products since, inventory holds nothing for it.
   */
  lemma RejectedHoldsNothing(env: Env, run: seq<State>, n: nat, order: string)
    requires IsRun(env, run) && n < |run|
    requires order in run[n].orders.orders && run[n].orders.orders[order].status == Rejected
    ensures exists m, call, cause :: m <= n && RefusedAt(run, m, call, cause, order)
    ensures forall m, call, cause :: RefusedSince(run, m, n, call, cause, order) ==>
              HeldBy(run[n].stock.reservations, order) == map[]
  {
    var first, told, why := RejectedWasRefused(env, run, n, order);
    forall m, call, cause | RefusedSince(run, m, n, call, cause, order)
      ensures HeldBy(run[n].stock.reservations, order) == map[]
    {
      RefusedHoldsNothing(env, run, m, n, call, cause, order);
    }
  }

  // ----- the confirmation

  lemma StoredEventIsOfOrder(env: Env, s: State, event: EventId)
    requires Inv(env, s) && event in s.orders.events
    ensures var id := s.orders.events[event].orderId;
            && id in s.orders.orders && s.orders.orders[id].id == id && s.orders.orders[id].status == Accepted
            && s.orders.events[event] == EventOf(event, s.orders.orders[id]) && Trim(event) != ""
            && OrderValid(s.orders.orders[id], env.formats.parse) && FitsSchema(s.orders.orders[id])
  {
    assert OrderSafety.EventOk(s.orders, event);
    var id := s.orders.events[event].orderId;
    assert OrderSafety.OrderOk(env.formats, s.orders, id, s.orders.orders[id]);
  }

  lemma EventDecodes(env: Env, event: EventId, order: OrderData)
    requires OrderValid(order, env.formats.parse) && FitsSchema(order) && Trim(event) != ""
    ensures Decodes(env, EventOf(event, order))
  {
    StoredAcceptanceDecodes(event, order.id, order, env.formats.parse);
    AcceptanceDecodesExactly(event, order.id, order, env.formats.parse);
    assert EventOf(event, order).(orderId := order.id) == EventOf(event, order);
  }

  lemma StoredEventIsValid(env: Env, s: State, event: EventId)
    requires Inv(env, s) && event in s.orders.events
    ensures MessageOf(env, s.orders.events[event]).valid
    ensures s.orders.events[event].orderId in s.orders.orders
         && s.orders.orders[s.orders.events[event].orderId].status == Accepted
  {
    StoredEventIsOfOrder(env, s, event);
    EventDecodes(env, event, s.orders.orders[s.orders.events[event].orderId]);
  }

  /**
   * Nothing is ever parked as invalid: every copy of every message decodes, and is of an
   * order that was accepted. What is parked is parked because its send budget is spent.
   */
  lemma EveryMessageDecodes(env: Env, run: seq<State>, n: nat, message: Mail.Message)
    requires IsRun(env, run) && n < |run| && Delivery.Copy(run[n].mail, message)
    ensures message.valid
    ensures message.order in run[n].orders.orders && run[n].orders.orders[message.order].status == Accepted
  {
    var s := run[n];
    RunKeepsInv(env, run, n);
    assert FromEvents(env, s, message);
    StoredEventIsValid(env, s, message.event);
  }

  /** No provider is ever called for an order that was not accepted. */
  lemma EmailsAreForAcceptedOrders(env: Env, run: seq<State>, n: nat, token: Notifications.Token)
    requires IsRun(env, run) && n < |run| && token in run[n].mail.called
    ensures token in run[n].mail.begun
    ensures exists order :: order in run[n].orders.orders && run[n].orders.orders[order].status == Accepted
              && run[n].mail.begun[token] == Notifications.KeyOf(order)
  {
    var s := run[n];
    RunKeepsInv(env, run, n);
    assert token in s.mail.begun;
    assert ForEvent(s, s.mail.begun[token]);
    var event :| event in s.orders.events
      && s.mail.begun[token] == Notifications.KeyOf(s.orders.events[event].orderId);
    StoredEventIsValid(env, s, event);
  }

  // ----- at most one confirmation

  /** The timing rule, in a run of all three services. */
  ghost predicate OnTimeRun(env: Env, run: seq<State>)
  {
    && IsRun(env, run)
    && (forall i :: 0 <= i < |run| ==> Timing.OnTime(env.mail, run[i].mail))
    && (forall i :: 0 < i < |run| ==>
          run[i].mail == run[i - 1].mail || Timing.RecordsSuccess(run[i - 1].mail, run[i].mail))
  }

  lemma MailIsSound(env: Env, run: seq<State>, n: nat)
    requires IsRun(env, run) && n < |run|
    ensures MailSafety.Inv(run[n].mail)
  {
    RunKeepsInv(env, run, n);
  }

  lemma MailSteps(env: Env, run: seq<State>, n: nat)
    requires IsRun(env, run) && 0 < n < |run|
    ensures run[n].mail == run[n - 1].mail || Mail.Step(env.mail, run[n - 1].mail, run[n].mail)
  {
    StepAtProjects(env, run, n);
  }

  lemma {:induction false} OnTimeRunKeepsClaims(env: Env, run: seq<State>, n: nat)
    requires Timing.LeaseCoversHandling(env.mail) && OnTimeRun(env, run) && n < |run|
    ensures Timing.ClaimsLive(env.mail, run[n].mail) && Timing.SuccessesKept(run[n].mail)
  {
    if n > 0 {
      OnTimeRunKeepsClaims(env, run, n - 1);
      MailIsSound(env, run, n - 1);
      ClaimsKeptAt(env, run, n);
    }
  }

  lemma ClaimsKeptAt(env: Env, run: seq<State>, n: nat)
    requires Timing.LeaseCoversHandling(env.mail)
    requires IsRun(env, run) && 0 < n < |run| && MailSafety.Inv(run[n - 1].mail)
    requires Timing.OnTime(env.mail, run[n - 1].mail)
    requires run[n].mail == run[n - 1].mail || Timing.RecordsSuccess(run[n - 1].mail, run[n].mail)
    requires Timing.ClaimsLive(env.mail, run[n - 1].mail) && Timing.SuccessesKept(run[n - 1].mail)
    ensures Timing.ClaimsLive(env.mail, run[n].mail) && Timing.SuccessesKept(run[n].mail)
  {
    MailSteps(env, run, n);
    if run[n].mail != run[n - 1].mail { MailStepKeepsClaims(env.mail, run[n - 1].mail, run[n].mail); }
  }

  lemma MailStepKeepsClaims(c: Mail.Config, s: Mail.State, s': Mail.State)
    requires Timing.LeaseCoversHandling(c) && MailSafety.Inv(s) && Mail.Step(c, s, s')
    requires Timing.OnTime(c, s) && Timing.RecordsSuccess(s, s')
    requires Timing.ClaimsLive(c, s) && Timing.SuccessesKept(s)
    ensures Timing.ClaimsLive(c, s') && Timing.SuccessesKept(s')
  {
    Timing.StepKeepsClaimsLive(c, s, s');
    Timing.StepKeepsSuccesses(c, s, s');
  }

  /** End to end: a customer is sent at most one confirmation, however often anything is repeated. */
  lemma AtMostOneConfirmation(env: Env, run: seq<State>, n: nat, order: string)
    requires Timing.LeaseCoversHandling(env.mail) && OnTimeRun(env, run) && n < |run|
    ensures |MailTheorems.SuccessesFor(run[n].mail, Notifications.KeyOf(order))| <= 1
  {
    RunKeepsInv(env, run, n);
    OnTimeRunKeepsClaims(env, run, n);
    Timing.OneSuccess(env.mail, run[n].mail, Notifications.KeyOf(order));
  }
}
