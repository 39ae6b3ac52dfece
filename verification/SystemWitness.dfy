/**
 * The promises are not empty: every order that is valid and can be filled has a run in
 * which it is accepted, its stock is held, and its confirmation reaches the queue.
 */
module SystemWitness {
  import opened Collections
  import opened Skus
  import opened Baskets
  import opened Canonical
  import opened OrderDomain
  import opened OrderRows
  import opened Pipeline
  import opened InventoryAnswers
  import opened SystemRuns
  import opened SystemSafety
  import opened SystemTheorems
  import Tables = StockTables
  import Orders = OrderRuns
  import Stock = ReservationRuns
  import StockSafety = ReservationSafety
  import Witnesses = ReservationWitnesses
  import Progress = ReservationProgress
  import Timing = NotificationTiming
  import Relay = OutboxRuns
  import Box = Outbox
  import Mail = NotificationRuns
  import Delivery = NotificationDelivery

  function Last(run: seq<State>): State
    requires run != []
  {
    run[|run| - 1]
  }

  /** A run in which no handler has started yet. */
  ghost predicate IdleRun(env: Env, run: seq<State>)
  {
    IsRun(env, run) && forall i :: 0 <= i < |run| ==> run[i].mail.handlers == map[]
  }

  lemma Extend(env: Env, run: seq<State>, a: Action, s': State)
    requires IdleRun(env, run) && Next(env, Last(run), a, s') && s'.mail.handlers == map[]
    ensures IdleRun(env, run + [s']) && Last(run + [s']) == s'
  {
    var longer := run + [s'];
    assert Step(env, Last(run), s');
    forall i | 0 < i < |longer| ensures StepAt(env, longer, i) {
      assert i < |run| ==> StepAt(env, run, i);
    }
  }

  /** The states of the system while inventory alone goes along a path. */
  function WithStock(s: State, path: seq<Stock.State>): seq<State>
    requires path != []
  {
    seq(|path| - 1, i requires 0 <= i < |path| - 1 => s.(stock := path[i + 1]))
  }

  lemma StockStepIsStep(env: Env, s: State, stock: Stock.State, stock': Stock.State)
    requires Progress.SomeCallSteps(stock, stock')
    ensures Step(env, s.(stock := stock), s.(stock := stock'))
  {
    var id, a :| Stock.CallStep(stock, id, a, stock');
    assert Next(env, s.(stock := stock), StockMoves(id, a), s.(stock := stock'));
  }

  /** A path of inventory's calls continues a run. */
  lemma RunThenStock(env: Env, run: seq<State>, path: seq<Stock.State>) returns (all: seq<State>)
    requires IdleRun(env, run) && Witnesses.IsPath(path) && path[0] == Last(run).stock
    ensures all == run + WithStock(Last(run), path)
    ensures IdleRun(env, all) && Last(all) == Last(run).(stock := Witnesses.Last(path))
  {
    var s := Last(run);
    all := run + WithStock(s, path);
    assert s == s.(stock := path[0]);
    forall i | 0 < i < |all| ensures StepAt(env, all, i) {
      if i < |run| {
        assert StepAt(env, run, i);
      } else {
        var k := i - |run| + 1;
        assert Progress.SomeCallStepsAt(path, k);
        assert all[i] == s.(stock := path[k]) && all[i - 1] == s.(stock := path[k - 1]);
        StockStepIsStep(env, s, path[k - 1], path[k]);
      }
    }
  }

  /** The order is one that a request can build, store, and ask inventory for. */
  ghost predicate CanBeAsked(env: Env, order: OrderData)
  {
    && CodecOk(env.formats.uuids)
    && OrderValid(order, env.formats.parse) && IsTrimmed(order.id) && FitsSchema(order) && order.status == Pending
    && Orders.CanonicalId(order.id, env.formats.uuids) && Orders.CanonicalId(order.customerId, env.formats.uuids)
    && Acceptable(order.id, Cleaned(ReservationFor(order).lines), env.isUuid)
  }

  ghost predicate NothingReserved(stock: Tables.Stock)
  {
    forall sku :: sku in stock ==> stock[sku].reserved == 0 <= stock[sku].onHand
  }

  /** A warehouse that has reserved nothing and has what the order asks for. */
  ghost predicate HasStock(stock: Tables.Stock, order: OrderData)
  {
    NothingReserved(stock) && forall i :: 0 <= i < |LinesOf(order)| ==> Tables.CanTake(stock, LinesOf(order)[i])
  }

  function Empty(stock: Tables.Stock): State
  {
    State(Orders.State(map[], map[], {}, map[], map[]), map[], Stock.State(stock, map[], map[]),
          Relay.State(0, map[], map[], {}, {}, {}),
          Mail.State(0, multiset{}, multiset{}, multiset{}, map[], map[], {}, map[], {}, {}))
  }

  lemma OrderMove(env: Env, run: seq<State>, a: Orders.Action, orders': Orders.State)
    requires IdleRun(env, run) && !a.Reserve? && !a.Hear? && !a.Accept?
    requires Orders.Next(env.formats, Last(run).orders, 0, a, orders')
    ensures IdleRun(env, run + [Last(run).(orders := orders')])
  {
    Extend(env, run, OrderMoves(0, a), Last(run).(orders := orders'));
  }

  function Created(order: OrderData): Orders.State
  {
    Orders.State(map[order.id := order], map[0 := Orders.Request(order.key, true, Orders.Reserving(order, 0))],
                 {order.id}, map[order.id := 0], map[])
  }

  function Building(order: OrderData): Orders.State
  {
    Orders.State(map[], map[0 := Orders.Request(order.key, false, Orders.Building)], {}, map[], map[])
  }

  lemma Looks(env: Env, stock: Tables.Stock, order: OrderData) returns (run: seq<State>)
    requires CodecOk(env.formats.uuids) && NothingReserved(stock)
    ensures IdleRun(env, run) && Last(run) == Empty(stock).(orders := Building(order))
  {
    var looking := Building(order).(requests := map[0 := Orders.Request(order.key, false, Orders.Looking)]);
    run := [Empty(stock)];
    OrderMove(env, run, Orders.Start(order.key), looking);
    run := run + [Empty(stock).(orders := looking)];
    OrderMove(env, run, Orders.Find(None), Building(order));
    run := run + [Empty(stock).(orders := Building(order))];
  }

  /** The order is built and stored. */
  lemma Creates(env: Env, stock: Tables.Stock, order: OrderData) returns (run: seq<State>)
    requires CanBeAsked(env, order) && NothingReserved(stock)
    ensures IdleRun(env, run) && Last(run) == Empty(stock).(orders := Created(order))
  {
    run := Looks(env, stock, order);
    var creating := Building(order).(
      requests := map[0 := Orders.Request(order.key, false, Orders.Creating(order))], ids := {order.id});
    assert Orders.BuildStep(env.formats, Building(order), 0, order, creating);
    OrderMove(env, run, Orders.Build(order), creating);
    run := run + [Empty(stock).(orders := creating)];
    CreationIsStep(env, order, creating);
    OrderMove(env, run, Orders.Create(false), Created(order));
    run := run + [Empty(stock).(orders := Created(order))];
  }

  lemma CreationIsStep(env: Env, order: OrderData, creating: Orders.State)
    requires order.status == Pending && FitsSchema(order) && Orders.CanonicalId(order.customerId, env.formats.uuids)
    requires creating == Building(order).(
                requests := map[0 := Orders.Request(order.key, false, Orders.Creating(order))], ids := {order.id})
    ensures Orders.CreateStep(env.formats, creating, 0, false, Created(order))
  {
  }

  function Asking(order: OrderData): Orders.State
  {
    Created(order).(requests := map[0 := Orders.Request(order.key, true, Orders.Waiting(order, 0, 0))])
  }

  /** The call is sent, and arrives. */
  lemma Asks(env: Env, before: seq<State>, stock: Tables.Stock, order: OrderData) returns (run: seq<State>)
    requires CanBeAsked(env, order) && IdleRun(env, before) && Last(before) == Empty(stock).(orders := Created(order))
    ensures IdleRun(env, run)
    ensures Last(run) == Empty(stock).(
              orders := Asking(order), sent := map[0 := ReservationFor(order)],
              stock := Stock.State(stock, map[], map[0 := Witnesses.Started(order.id, LinesOf(order))]))
  {
    var sent := Last(before).(orders := Asking(order), sent := map[0 := ReservationFor(order)]);
    assert Orders.Next(env.formats, Created(order), 0, Orders.Reserve(0), Asking(order));
    assert CallStep(env, Last(before), 0, 0, sent);
    Extend(env, before, Call(0, 0), sent);
    AcceptedIsCanonical(Cleaned(ReservationFor(order).lines));
    var arrived := sent.(
      stock := Stock.State(stock, map[], map[0 := Witnesses.Started(order.id, LinesOf(order))]));
    assert ArriveStep(env, sent, 0, arrived);
    Extend(env, before + [sent], Arrive(0), arrived);
    run := before + [sent] + [arrived];
  }

  /** Inventory finds nothing held, and reserves the basket. */
  lemma Reserves(env: Env, before: seq<State>, order: OrderData) returns (run: seq<State>)
    requires IdleRun(env, before) && HasStock(Last(before).stock.stock, order) && Last(before).stock.reservations == map[]
    requires Last(before).stock.calls == map[0 := Witnesses.Started(order.id, LinesOf(order))]
    ensures IdleRun(env, run)
    ensures Last(run) == Last(before).(stock := Last(run).stock)
    ensures VerdictOf(Last(run).stock, 0) == Some(Stock.Reserved)
  {
    var s := Last(before).stock;
    var opening := Witnesses.Reads(s, 0, order.id, LinesOf(order));
    var reading := Witnesses.Last(opening);
    assert Witnesses.FillableFrom(reading, 0, 0);
    var path := Witnesses.PathToCommit(opening, 0);
    assert path[0] == opening[0];
    run := RunThenStock(env, before, path);
  }

  function Decision(order: OrderData): OrderData { Orders.Decided(order, Accepted, order.updatedAt) }

  function Deciding(order: OrderData): Orders.State
  {
    Created(order).(requests := map[0 := Orders.Request(order.key, true, Orders.Accepting(order))])
  }

  function AfterAccept(order: OrderData, event: EventId): Orders.State
  {
    Created(order).(
      orders := map[order.id := Decision(order)], events := map[event := EventOf(event, Decision(order))],
      requests := map[0 := Orders.Request(order.key, true, Orders.Done(Orders.Stored(Decision(order), true)))])
  }

  function Recorded(order: OrderData, event: EventId): Relay.State
  {
    Relay.State(0, map[event := Box.Recorded(order.id, 0)], map[], {}, {event}, {})
  }

  /** The answer is heard, and the order accepted together with its event. */
  lemma Accepts(env: Env, before: seq<State>, order: OrderData, event: EventId) returns (run: seq<State>)
    requires order.status == Pending && Orders.ClockOk(order, order.updatedAt) && Trim(event) != "" && IdleRun(env, before)
    requires Last(before).orders == Asking(order) && VerdictOf(Last(before).stock, 0) == Some(Stock.Reserved)
    requires Last(before).outbox == Relay.State(0, map[], map[], {}, {}, {})
    ensures IdleRun(env, run)
    ensures Last(run) == Last(before).(orders := AfterAccept(order, event), outbox := Recorded(order, event))
  {
    var heard := Last(before).(orders := Deciding(order));
    assert Orders.Next(env.formats, Asking(order), 0, Orders.Hear(Orders.Granted), Deciding(order));
    assert HearStep(env, Last(before), 0, Orders.Granted, heard);
    Extend(env, before, Hear(0, Orders.Granted), heard);
    run := Decides(env, before + [heard], order, event);
  }

  lemma Decides(env: Env, before: seq<State>, order: OrderData, event: EventId) returns (run: seq<State>)
    requires order.status == Pending && Orders.ClockOk(order, order.updatedAt) && Trim(event) != "" && IdleRun(env, before)
    requires Last(before).orders == Deciding(order) && Last(before).outbox == Relay.State(0, map[], map[], {}, {}, {})
    ensures IdleRun(env, run)
    ensures Last(run) == Last(before).(orders := AfterAccept(order, event), outbox := Recorded(order, event))
  {
    var s := Last(before);
    var done := s.(orders := AfterAccept(order, event), outbox := Recorded(order, event));
    DecisionIsStep(order, event);
    assert Relay.Next(env.relay, s.outbox, 0, Relay.Record(event, order.id), done.outbox);
    assert AcceptStep(env, s, 0, event, order.updatedAt, false, done);
    Extend(env, before, Accept(0, event, order.updatedAt, false), done);
    run := before + [done];
  }

  lemma DecisionIsStep(order: OrderData, event: EventId)
    requires order.status == Pending && Orders.ClockOk(order, order.updatedAt) && Trim(event) != ""
    ensures Orders.AcceptStep(Deciding(order), 0, event, order.updatedAt, false, AfterAccept(order, event))
  {
    assert Orders.Updated(map[order.id := order], Decision(order)) == map[order.id := Decision(order)];
  }

  lemma RelayMove(env: Env, run: seq<State>, a: Relay.Action, outbox': Relay.State)
    requires IdleRun(env, run) && RelayStep(env, Last(run), 0, a, Last(run).(outbox := outbox'))
    ensures IdleRun(env, run + [Last(run).(outbox := outbox')])
  {
    Extend(env, run, RelayMoves(0, a), Last(run).(outbox := outbox'));
  }

  /** One copy of the event's message has been added to the queue. */
  ghost predicate Routed(env: Env, s: State, s': State, event: EventId)
  {
    && event in s.orders.events
    && s'.mail == s.mail.(working := s.mail.working + multiset{MessageOf(env, s.orders.events[event])})
  }

  /** A worker claims the event and publishes it; the broker routes it, and says so. */
  lemma Publishes(env: Env, before: seq<State>, order: OrderData, event: EventId) returns (run: seq<State>)
    requires CanBeAsked(env, order) && Trim(event) != "" && IdleRun(env, before)
    requires Last(before).orders == AfterAccept(order, event) && Last(before).outbox == Recorded(order, event)
    ensures IdleRun(env, run)
    ensures Last(run).orders == Last(before).orders && Last(run).stock == Last(before).stock
    ensures event in Last(run).outbox.rows && Last(run).outbox.rows[event].status == Box.Published
    ensures DeliveredFor(Last(run), event) && Routed(env, Last(before), Last(run), event)
  {
    var s := Last(before);
    var entry := Box.Entry(event, 0, 0);
    StoredEventComesBack(EventOf(event, Decision(order)));
    var row := Box.ClaimedRow(Box.Recorded(order.id, 0), 0, env.relay.lease, 0);
    var claimed := Relay.State(0, map[event := row], map[0 := Relay.Publishing(entry, 0, false)], {0}, {event}, {});
    assert Relay.ClaimStep(env.relay, s.outbox, 0, Relay.Claim(event, 0, true, false), claimed);
    RelayMove(env, before, Relay.Claim(event, 0, true, false), claimed);
    run := before + [s.(outbox := claimed)];
    run := Routes(env, run, order, event, row);
  }

  lemma Routes(env: Env, before: seq<State>, order: OrderData, event: EventId, row: Box.Row) returns (run: seq<State>)
    requires IdleRun(env, before) && Last(before).orders == AfterAccept(order, event) && row.status == Box.Pending
    requires Last(before).outbox
          == Relay.State(0, map[event := row], map[0 := Relay.Publishing(Box.Entry(event, 0, 0), 0, false)], {0}, {event}, {})
    ensures IdleRun(env, run)
    ensures Last(run).orders == Last(before).orders && Last(run).stock == Last(before).stock
    ensures event in Last(run).outbox.rows && Last(run).outbox.rows[event].status == Box.Published
    ensures DeliveredFor(Last(run), event) && Routed(env, Last(before), Last(run), event)
  {
    var s := Last(before);
    var message := MessageOf(env, s.orders.events[event]);
    var routing := s.outbox.(workers := map[0 := Relay.Publishing(Box.Entry(event, 0, 0), 0, true)]);
    var routed := s.(outbox := routing, mail := s.mail.(working := s.mail.working + multiset{message}));
    assert RouteStep(env, s, 0, routed);
    Extend(env, before, Route(0), routed);
    run := before + [routed];
    QueuedIsDelivered(routed, message);
    run := Settles(env, run, event, row);
  }

  lemma QueuedIsDelivered(s: State, message: Mail.Message)
    requires message in s.mail.working
    ensures Delivery.Delivered(s.mail, message.order)
  {
    assert Delivery.Copy(s.mail, message);
  }

  /** The confirmation comes, and the worker records it. */
  lemma Settles(env: Env, before: seq<State>, event: EventId, row: Box.Row) returns (run: seq<State>)
    requires IdleRun(env, before) && row.status == Box.Pending
    requires Last(before).outbox
          == Relay.State(0, map[event := row], map[0 := Relay.Publishing(Box.Entry(event, 0, 0), 0, true)], {0}, {event}, {})
    ensures IdleRun(env, run) && Last(run) == Last(before).(outbox := Last(run).outbox)
    ensures event in Last(run).outbox.rows && Last(run).outbox.rows[event].status == Box.Published
  {
    var s := Last(before);
    var confirmed := s.outbox.(
      workers := map[0 := Relay.Settling(Box.Entry(event, 0, 0), 0, Box.Routed)], confirmed := {event});
    RelayMove(env, before, Relay.EndPublish(Box.Routed), confirmed);
    run := before + [s.(outbox := confirmed)];
    var marked := confirmed.(workers := map[0 := Relay.Idle], rows := map[event := Box.PublishedRow(row, 0)]);
    RelayMove(env, run, Relay.Write(0, false), marked);
    run := run + [Last(run).(outbox := marked)];
  }

  ghost predicate Confirmed(env: Env, run: seq<State>, order: OrderData, event: EventId)
  {
    && IdleRun(env, run)
    && order.id in Last(run).orders.orders && Last(run).orders.orders[order.id].status == Accepted
    && Tables.HeldBy(Last(run).stock.reservations, order.id) == Wanted(order)
    && event in Last(run).outbox.rows && Last(run).outbox.rows[event].status == Box.Published
    && Delivery.Delivered(Last(run).mail, order.id)
  }

  lemma Confirms(env: Env, stock: Tables.Stock, order: OrderData, event: EventId) returns (run: seq<State>)
    requires CanBeAsked(env, order) && HasStock(stock, order) && Trim(event) != ""
    ensures IdleRun(env, run) && Last(run).orders == AfterAccept(order, event)
    ensures event in Last(run).outbox.rows && Last(run).outbox.rows[event].status == Box.Published
    ensures DeliveredFor(Last(run), event)
    ensures Last(run).mail == Empty(stock).mail.(working := multiset{MessageOf(env, EventOf(event, Decision(order)))})
  {
    run := Creates(env, stock, order);
    run := Asks(env, run, stock, order);
    run := Reserves(env, run, order);
    run := Accepts(env, run, order, event);
    run := Publishes(env, run, order, event);
  }

  lemma AcceptedAndWanted(order: OrderData)
    ensures Wanted(Decision(order)) == Wanted(order)
  {
  }

  lemma ConfirmedIsBacked(env: Env, run: seq<State>, order: OrderData, event: EventId)
    requires IdleRun(env, run) && Last(run).orders == AfterAccept(order, event)
    ensures Tables.HeldBy(Last(run).stock.reservations, order.id) == Wanted(order)
  {
    assert Last(run).orders.orders[order.id] == Decision(order);
    AcceptedIsBackedByStock(env, run, |run| - 1, order.id);
    AcceptedAndWanted(order);
  }

  /** Whatever is valid and can be filled can be accepted, backed and confirmed. */
  lemma FillableOrderCanBeConfirmed(env: Env, stock: Tables.Stock, order: OrderData, event: EventId)
    requires CanBeAsked(env, order) && HasStock(stock, order) && Trim(event) != ""
    ensures exists run :: Confirmed(env, run, order, event)
  {
    var run := Confirms(env, stock, order, event);
    ConfirmedIsBacked(env, run, order, event);
    assert Last(run).orders.orders[order.id].status == Accepted;
    assert Confirmed(env, run, order, event);
  }
}
