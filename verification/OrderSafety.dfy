/** What every step of the order requests keeps: one order per key, one verdict per order, one event per acceptance. */
module OrderSafety {
  import opened Collections
  import opened Skus
  import opened OrderDomain
  import opened OrderRows
  import opened Pipeline
  import opened OrderRuns

  /** The same order, whatever has been decided about it. */
  predicate SameOrder(a: OrderData, b: OrderData)
  {
    a == Decided(b, a.status, a.updatedAt)
  }

  ghost predicate OrderOk(formats: Formats, s: State, id: OrderId, order: OrderData)
  {
    && order.id == id && IsTrimmed(id) && id in s.ids && id in s.creators
    && CanonicalId(order.customerId, formats.uuids)
    && OrderValid(order, formats.parse) && FitsSchema(order)
    && (order.status == Pending || order.status == Accepted || order.status == Rejected)
  }

  ghost predicate OrdersOk(formats: Formats, s: State)
  {
    forall id :: id in s.orders ==> OrderOk(formats, s, id, s.orders[id])
  }

  ghost predicate KeysUnique(orders: Orders)
  {
    forall a, b :: a in orders && b in orders && orders[a].key == orders[b].key ==> a == b
  }

  ghost predicate CreatedBy(s: State, r: RequestId, key: string)
  {
    exists id :: id in s.orders && id in s.creators && s.creators[id] == r && s.orders[id].key == key
  }

  ghost predicate RejectedUnder(s: State, key: string)
  {
    exists id :: id in s.orders && s.orders[id].key == key && s.orders[id].status == Rejected
  }

  /** What a request has in memory is, but for spelling, the stored order as it was when it was pending. */
  ghost predicate Snapshot(formats: Formats, s: State, request: Request, order: OrderData)
  {
    && order.id in s.orders && formats.uuids.parse(order.customerId).Some?
    && SameOrder(Spelled(order, formats.uuids), s.orders[order.id]) && order.status == Pending
    && order.key == request.key && (!request.created ==> CanonicalId(order.customerId, formats.uuids))
    && (s.orders[order.id].status == Pending ==> s.orders[order.id] == Spelled(order, formats.uuids))
  }

  /** Only the request that stored an order may show it in another spelling than the stored one. */
  ghost predicate ReplyOk(formats: Formats, s: State, request: Request, reply: Reply)
  {
    match reply
    case Stored(order, created) =>
      && order.id in s.orders && formats.uuids.parse(order.customerId).Some?
      && s.orders[order.id] == Spelled(order, formats.uuids) && order.status == Accepted
      && (!created ==> s.orders[order.id] == order)
      && order.key == request.key && (created ==> request.created)
    case OutOfStock => RejectedUnder(s, request.key)
    case Error => true
  }

  ghost predicate PcOk(formats: Formats, s: State, request: Request)
  {
    match request.pc
    case Looking | Building => !request.created
    case Creating(order) =>
      && !request.created && IsTrimmed(order.id) && order.id in s.ids && order.id !in s.orders
      && OrderValid(order, formats.parse) && order.status == Pending && order.key == request.key
    case Reloading => !request.created && KeyTaken(s.orders, request.key)
    case Reserving(order, attempt) => Snapshot(formats, s, request, order) && attempt < RESERVATION_ATTEMPTS
    case Waiting(order, attempt, _) => Snapshot(formats, s, request, order) && attempt < RESERVATION_ATTEMPTS
    case Accepting(order) => Snapshot(formats, s, request, order)
    case Rejecting(order) => Snapshot(formats, s, request, order)
    case Resolving(id) => id in s.orders && s.orders[id].key == request.key && s.orders[id].status != Pending
    case Done(reply) => ReplyOk(formats, s, request, reply)
  }

  ghost predicate RequestOk(formats: Formats, s: State, r: RequestId, request: Request)
  {
    PcOk(formats, s, request) && (request.created ==> CreatedBy(s, r, request.key))
  }

  ghost predicate ActorOk(formats: Formats, s: State, r: RequestId)
  {
    r in s.requests && RequestOk(formats, s, r, s.requests[r])
  }

  ghost predicate RequestsOk(formats: Formats, s: State)
  {
    forall r :: r in s.requests ==> RequestOk(formats, s, r, s.requests[r])
  }

  /** Generated ids are not generated again. */
  ghost predicate IdsDiffer(s: State)
  {
    forall q, r :: q in s.requests && r in s.requests && q != r && s.requests[q].pc.Creating? && s.requests[r].pc.Creating? ==>
      s.requests[q].pc.order.id != s.requests[r].pc.order.id
  }

  /** An event tells of an accepted order, exactly as it is stored. */
  ghost predicate EventOk(s: State, id: EventId)
    requires id in s.events
  {
    var order := s.events[id].orderId;
    && order in s.orders && s.orders[order].status == Accepted
    && s.events[id] == EventOf(id, s.orders[order]) && Trim(id) != ""
  }

  ghost predicate Announced(s: State, order: OrderId)
  {
    exists id :: id in s.events && s.events[id].orderId == order
  }

  ghost predicate EventsOk(s: State)
  {
    && (forall id :: id in s.events ==> EventOk(s, id))
    && (forall a, b :: a in s.events && b in s.events && s.events[a].orderId == s.events[b].orderId ==> a == b)
    && (forall order :: order in s.orders && s.orders[order].status == Accepted ==> Announced(s, order))
  }

  ghost predicate Inv(formats: Formats, s: State)
  {
    && CodecOk(formats.uuids)
    && OrdersOk(formats, s) && KeysUnique(s.orders) && RequestsOk(formats, s) && IdsDiffer(s) && EventsOk(s)
  }

  // ----- what a step may do to the table

  /** An order never leaves, never changes its contents, and is decided at most once. */
  ghost predicate OrderKept(s: State, s': State, id: OrderId)
  {
    id in s.orders ==>
      && id in s'.orders && SameOrder(s'.orders[id], s.orders[id])
      && (s.orders[id].status != Pending || s'.orders[id].status == Pending ==> s'.orders[id] == s.orders[id])
      && (id in s.creators ==> id in s'.creators && s'.creators[id] == s.creators[id])
  }

  ghost predicate OrdersKept(s: State, s': State)
  {
    s.ids <= s'.ids && forall id :: OrderKept(s, s', id)
  }

  lemma NextKeepsOrders(formats: Formats, s: State, r: RequestId, a: Action, s': State)
    requires RequestsOk(formats, s) && Next(formats, s, r, a, s')
    ensures OrdersKept(s, s')
  {
    if r in s.requests { assert RequestOk(formats, s, r, s.requests[r]); }
  }

  lemma OtherRequestOk(formats: Formats, s: State, s': State, q: RequestId, request: Request)
    requires RequestOk(formats, s, q, request) && OrdersKept(s, s')
    requires request.pc.Creating? ==> request.pc.order.id !in s'.orders
    ensures RequestOk(formats, s', q, request)
  {
    assert forall id :: id in s.orders ==> OrderKept(s, s', id);
    if request.created {
      var id :| id in s.orders && id in s.creators && s.creators[id] == q && s.orders[id].key == request.key;
      assert OrderKept(s, s', id);
    }
    match request.pc {
      case Reloading =>
        var id :| id in s.orders && s.orders[id].key == request.key;
        assert OrderKept(s, s', id);
      case Done(OutOfStock) =>
        var id :| id in s.orders && s.orders[id].key == request.key && s.orders[id].status == Rejected;
        assert OrderKept(s, s', id);
      case _ =>
    }
  }

  /** Which ids a step may store: none that another request is still about to store. */
  lemma NewOrderIsOwn(formats: Formats, s: State, r: RequestId, a: Action, s': State, q: RequestId)
    requires RequestsOk(formats, s) && IdsDiffer(s) && Next(formats, s, r, a, s')
    requires q in s.requests && q != r && s.requests[q].pc.Creating?
    ensures s.requests[q].pc.order.id !in s'.orders
  {
    assert RequestOk(formats, s, q, s.requests[q]);
    if r in s.requests { assert RequestOk(formats, s, r, s.requests[r]); }
  }

  lemma OthersStayOk(formats: Formats, s: State, r: RequestId, a: Action, s': State)
    requires RequestsOk(formats, s) && IdsDiffer(s) && Next(formats, s, r, a, s')
    ensures forall q :: q in s'.requests && q != r ==> RequestOk(formats, s', q, s'.requests[q])
  {
    NextKeepsOrders(formats, s, r, a, s');
    forall q | q in s'.requests && q != r ensures RequestOk(formats, s', q, s'.requests[q]) {
      assert q in s.requests && s'.requests[q] == s.requests[q];
      assert RequestOk(formats, s, q, s.requests[q]);
      if s.requests[q].pc.Creating? { NewOrderIsOwn(formats, s, r, a, s', q); }
      OtherRequestOk(formats, s, s', q, s.requests[q]);
    }
  }

  ghost predicate IdsKnown(s: State)
  {
    s.orders.Keys <= s.ids &&
    forall r :: r in s.requests && s.requests[r].pc.Creating? ==> s.requests[r].pc.order.id in s.ids
  }

  lemma IdsAreKnown(formats: Formats, s: State)
    requires OrdersOk(formats, s) && RequestsOk(formats, s)
    ensures IdsKnown(s)
  {
    forall id | id in s.orders ensures id in s.ids { assert OrderOk(formats, s, id, s.orders[id]); }
    forall r | r in s.requests && s.requests[r].pc.Creating? ensures s.requests[r].pc.order.id in s.ids {
      assert RequestOk(formats, s, r, s.requests[r]);
    }
  }

  lemma StepKeepsIdsDiffer(formats: Formats, s: State, r: RequestId, a: Action, s': State)
    requires IdsKnown(s) && IdsDiffer(s) && Next(formats, s, r, a, s')
    ensures IdsDiffer(s')
  {
    if a.Build? {
      forall q | q in s.requests && s.requests[q].pc.Creating? ensures s.requests[q].pc.order.id != a.order.id {}
    } else {
      NothingNewIsBuilt(formats, s, r, a, s');
    }
  }

  lemma NothingNewIsBuilt(formats: Formats, s: State, r: RequestId, a: Action, s': State)
    requires !a.Build? && Next(formats, s, r, a, s')
    ensures forall q :: q in s'.requests && s'.requests[q].pc.Creating? ==> q in s.requests && s'.requests[q].pc == s.requests[q].pc
  {
  }

  // ----- the acting request

  predicate TouchesOrders(a: Action) { a.Create? || a.Accept? || a.Reject? }

  /** A step of a request that leaves the orders alone only has to justify where the request goes. */
  lemma MovedRequestOk(formats: Formats, s: State, r: RequestId, pc: Pc, ids: set<OrderId>)
    requires r in s.requests && RequestOk(formats, s, r, s.requests[r]) && s.ids <= ids
    requires PcOk(formats, s.(ids := ids), s.requests[r].(pc := pc))
    ensures var s' := Moved(s, r, pc).(ids := ids); ActorOk(formats, s', r)
  {
    var s' := Moved(s, r, pc).(ids := ids);
    var request := s.requests[r];
    assert request.created ==> CreatedBy(s', r, request.key);
    match pc {
      case Done(OutOfStock) => assert RejectedUnder(s', request.key);
      case _ =>
    }
  }

  lemma LoadedIsOk(formats: Formats, s: State, request: Request, id: OrderId, created: bool)
    requires id in s.orders && OrderOk(formats, s, id, s.orders[id]) && s.orders[id].key == request.key
    requires created ==> request.created
    ensures PcOk(formats, s, request.(pc := AfterLoad(s.orders[id], created)))
    ensures PcOk(formats, s, request.(pc := AfterConflict(s.orders[id], created)))
  {
    var order := s.orders[id];
    if order.status == Rejected { assert RejectedUnder(s, request.key); }
  }

  lemma LookupKeepsActor(formats: Formats, s: State, r: RequestId, a: Action, s': State)
    requires r in s.requests && RequestOk(formats, s, r, s.requests[r]) && (a.Find? || a.Reload?) && Next(formats, s, r, a, s')
    requires a.found.Some? && a.found.value in s.orders ==> OrderOk(formats, s, a.found.value, s.orders[a.found.value])
    ensures ActorOk(formats, s', r)
  {
    if a.found.Some? { LoadedIsOk(formats, s, s.requests[r], a.found.value, false); }
    MovedRequestOk(formats, s, r, s'.requests[r].pc, s.ids);
  }

  lemma ResolveKeepsActor(formats: Formats, s: State, r: RequestId, a: Action, s': State)
    requires r in s.requests && RequestOk(formats, s, r, s.requests[r]) && a.Resolve? && Next(formats, s, r, a, s')
    requires OrderOk(formats, s, s.requests[r].pc.id, s.orders[s.requests[r].pc.id])
    ensures ActorOk(formats, s', r)
  {
    LoadedIsOk(formats, s, s.requests[r], s.requests[r].pc.id, s.requests[r].created);
    MovedRequestOk(formats, s, r, s'.requests[r].pc, s.ids);
  }

  lemma PlainStepKeepsActor(formats: Formats, s: State, r: RequestId, a: Action, s': State)
    requires a.Start? || a.Build? || a.Reserve? || a.Hear? || a.Stop?
    requires IdsKnown(s) && Next(formats, s, r, a, s') && (r in s.requests ==> RequestOk(formats, s, r, s.requests[r]))
    ensures ActorOk(formats, s', r)
  {
    if !a.Start? { MovedRequestOk(formats, s, r, s'.requests[r].pc, s'.ids); }
  }

  lemma PlainStepKeepsTables(formats: Formats, s: State, r: RequestId, a: Action, s': State)
    requires !TouchesOrders(a) && Next(formats, s, r, a, s')
    ensures s'.orders == s.orders && s'.creators == s.creators && s'.events == s.events && s.ids <= s'.ids
  {
  }

  lemma SameOrdersOk(formats: Formats, s: State, s': State)
    requires OrdersOk(formats, s) && s'.orders == s.orders && s'.creators == s.creators && s.ids <= s'.ids
    ensures OrdersOk(formats, s')
  {
    forall id | id in s'.orders ensures OrderOk(formats, s', id, s'.orders[id]) { assert OrderOk(formats, s, id, s.orders[id]); }
  }

  lemma SpelledIsSound(formats: Formats, order: OrderData)
    requires CodecOk(formats.uuids) && formats.uuids.parse(order.customerId).Some?
    requires OrderValid(order, formats.parse) && FitsSchema(order)
    ensures var stored := Spelled(order, formats.uuids);
            OrderValid(stored, formats.parse) && FitsSchema(stored) && CanonicalId(stored.customerId, formats.uuids)
  {
  }

  /** Storing an order that no row has the key or the id of. */
  lemma StoringKeepsOrders(formats: Formats, s: State, r: RequestId, order: OrderData, s': State)
    requires OrdersOk(formats, s) && KeysUnique(s.orders) && !KeyTaken(s.orders, order.key) && order.id !in s.orders
    requires OrderValid(order, formats.parse) && IsTrimmed(order.id) && FitsSchema(order) && order.status == Pending
    requires order.id in s.ids && CanonicalId(order.customerId, formats.uuids)
    requires s'.orders == s.orders[order.id := order] && s'.creators == s.creators[order.id := r] && s'.ids == s.ids
    ensures OrdersOk(formats, s') && KeysUnique(s'.orders)
  {
    forall id | id in s'.orders ensures OrderOk(formats, s', id, s'.orders[id]) {
      if id != order.id { assert OrderOk(formats, s, id, s.orders[id]); }
    }
  }

  lemma CreateKeepsInv(formats: Formats, s: State, r: RequestId, replyLost: bool, s': State)
    requires CodecOk(formats.uuids) && OrdersOk(formats, s) && KeysUnique(s.orders) && EventsOk(s)
    requires ActorOk(formats, s, r) && CreateStep(formats, s, r, replyLost, s')
    ensures OrdersOk(formats, s') && KeysUnique(s'.orders) && EventsOk(s') && ActorOk(formats, s', r)
  {
    if s'.requests[r].created { StoringKeepsInv(formats, s, r, replyLost, s'); }
    else { NotStoringKeepsInv(formats, s, r, replyLost, s'); }
  }

  lemma NotStoringKeepsInv(formats: Formats, s: State, r: RequestId, replyLost: bool, s': State)
    requires OrdersOk(formats, s) && KeysUnique(s.orders) && EventsOk(s)
    requires r in s.requests && RequestOk(formats, s, r, s.requests[r]) && CreateStep(formats, s, r, replyLost, s')
    requires !s'.requests[r].created
    ensures OrdersOk(formats, s') && KeysUnique(s'.orders) && EventsOk(s') && ActorOk(formats, s', r)
  {
    SameOrdersOk(formats, s, s');
    SameEventsOk(s, s');
    MovedRequestOk(formats, s, r, s'.requests[r].pc, s.ids);
  }

  lemma StoringKeepsInv(formats: Formats, s: State, r: RequestId, replyLost: bool, s': State)
    requires CodecOk(formats.uuids) && OrdersOk(formats, s) && KeysUnique(s.orders) && EventsOk(s)
    requires r in s.requests && PcOk(formats, s, s.requests[r]) && CreateStep(formats, s, r, replyLost, s')
    requires s'.requests[r].created
    ensures OrdersOk(formats, s') && KeysUnique(s'.orders) && EventsOk(s') && ActorOk(formats, s', r)
  {
    var order := s.requests[r].pc.order;
    SpelledIsSound(formats, order);
    StoringKeepsOrders(formats, s, r, Spelled(order, formats.uuids), s');
    EventsIgnoreNewOrder(s, Spelled(order, formats.uuids), s');
    CreatorIsOk(formats, s, r, replyLost, s');
  }

  lemma CreatorIsOk(formats: Formats, s: State, r: RequestId, replyLost: bool, s': State)
    requires r in s.requests && CreateStep(formats, s, r, replyLost, s') && PcOk(formats, s, s.requests[r])
    requires s.requests[r].pc.order.id !in s.orders && s.requests[r].pc.order.id in s'.orders
    ensures ActorOk(formats, s', r)
  {
    var order := s.requests[r].pc.order;
    assert s'.orders[order.id] == Spelled(order, formats.uuids) && s'.creators[order.id] == r;
    assert CreatedBy(s', r, s'.requests[r].key);
  }

  lemma SameEventsOk(s: State, s': State)
    requires EventsOk(s) && s'.orders == s.orders && s'.events == s.events
    ensures EventsOk(s')
  {
    forall id | id in s'.events ensures EventOk(s', id) { assert EventOk(s, id); }
    forall order | order in s'.orders && s'.orders[order].status == Accepted ensures Announced(s', order) {
      assert Announced(s, order);
    }
  }

  lemma EventsIgnoreNewOrder(s: State, order: OrderData, s': State)
    requires EventsOk(s) && order.id !in s.orders && order.status == Pending
    requires s'.orders == s.orders[order.id := order] && s'.events == s.events
    ensures EventsOk(s')
  {
    forall id | id in s'.events ensures EventOk(s', id) { assert EventOk(s, id); }
    forall o | o in s'.orders && s'.orders[o].status == Accepted ensures Announced(s', o) {
      assert Announced(s, o);
    }
  }

  /** A decision is taken about a pending order, under the order's own id. */
  lemma DecisionKeepsOrders(formats: Formats, s: State, order: OrderData, s': State)
    requires OrdersOk(formats, s) && KeysUnique(s.orders) && StillPending(s.orders, order.id)
    requires order.status == Accepted || order.status == Rejected
    requires ClockOk(s.orders[order.id], order.updatedAt)
    requires s'.orders == Updated(s.orders, order) && s'.ids == s.ids && s'.creators == s.creators
    ensures OrdersOk(formats, s') && KeysUnique(s'.orders)
  {
    forall id | id in s'.orders ensures OrderOk(formats, s', id, s'.orders[id]) {
      assert OrderOk(formats, s, id, s.orders[id]);
      if id == order.id { DecisionKeepsValid(formats, s.orders[id], order.status, order.updatedAt); }
    }
  }

  lemma DecisionKeepsValid(formats: Formats, order: OrderData, status: Status, now: Time)
    requires OrderValid(order, formats.parse) && FitsSchema(order) && ClockOk(order, now)
    ensures OrderValid(Decided(order, status, now), formats.parse) && FitsSchema(Decided(order, status, now))
  {
  }

  lemma NewEventOk(s: State, order: OrderData, event: EventId, s': State)
    requires EventsOk(s) && StillPending(s.orders, order.id) && event !in s.events && Trim(event) != ""
    requires order.status == Accepted && SameOrder(order, s.orders[order.id])
    requires s'.orders == Updated(s.orders, order) && s'.events == s.events[event := EventOf(event, order)]
    ensures EventsOk(s')
  {
    OldEventsOk(s, order, event, s');
    NewAnnouncement(s, order, event, s');
    PendingIsUnannounced(s, order.id);
  }

  lemma OldEventsOk(s: State, order: OrderData, event: EventId, s': State)
    requires forall id :: id in s.events ==> EventOk(s, id)
    requires StillPending(s.orders, order.id) && Trim(event) != ""
    requires order.status == Accepted && SameOrder(order, s.orders[order.id])
    requires s'.orders == Updated(s.orders, order) && s'.events == s.events[event := EventOf(event, order)]
    ensures forall id :: id in s'.events ==> EventOk(s', id)
  {
    assert s'.orders[order.id] == order;
    forall id | id in s'.events ensures EventOk(s', id) {
      if id != event { assert EventOk(s, id); }
    }
  }

  lemma PendingIsUnannounced(s: State, order: OrderId)
    requires EventsOk(s) && StillPending(s.orders, order)
    ensures forall id :: id in s.events ==> s.events[id].orderId != order
  {
    forall id | id in s.events ensures s.events[id].orderId != order { assert EventOk(s, id); }
  }

  lemma NewAnnouncement(s: State, order: OrderData, event: EventId, s': State)
    requires order.id in s.orders && event !in s.events
    requires s'.orders == Updated(s.orders, order) && s'.events == s.events[event := EventOf(event, order)]
    requires forall o :: o in s.orders && s.orders[o].status == Accepted ==> Announced(s, o)
    ensures forall o :: o in s'.orders && s'.orders[o].status == Accepted ==> Announced(s', o)
  {
    forall o | o in s'.orders && s'.orders[o].status == Accepted ensures Announced(s', o) {
      if o == order.id { assert s'.events[event].orderId == o; }
      else {
        var id :| id in s.events && s.events[id].orderId == o;
        assert s'.events[id].orderId == o;
      }
    }
  }

  lemma RejectionKeepsEvents(s: State, order: OrderData, s': State)
    requires EventsOk(s) && StillPending(s.orders, order.id) && order.status == Rejected
    requires s'.orders == Updated(s.orders, order) && s'.events == s.events
    ensures EventsOk(s')
  {
    forall id | id in s'.events ensures EventOk(s', id) { assert EventOk(s, id); }
    forall o | o in s'.orders && s'.orders[o].status == Accepted ensures Announced(s', o) { assert Announced(s, o); }
  }

  /** The compare-and-set failed because somebody else has decided. */
  lemma LostRaceKeepsInv(formats: Formats, s: State, r: RequestId, order: OrderData, s': State)
    requires Inv(formats, s) && r in s.requests && Snapshot(formats, s, s.requests[r], order)
    requires !StillPending(s.orders, order.id) && s' == Moved(s, r, Resolving(order.id))
    ensures OrdersOk(formats, s') && KeysUnique(s'.orders) && EventsOk(s') && ActorOk(formats, s', r)
  {
    assert RequestOk(formats, s, r, s.requests[r]);
    MovedRequestOk(formats, s, r, Resolving(order.id), s.ids);
    SameOrdersOk(formats, s, s');
    SameEventsOk(s, s');
  }

  lemma AcceptKeepsInv(formats: Formats, s: State, r: RequestId, a: Action, s': State)
    requires Inv(formats, s) && a.Accept? && Next(formats, s, r, a, s')
    ensures OrdersOk(formats, s') && KeysUnique(s'.orders) && EventsOk(s') && ActorOk(formats, s', r)
  {
    var request := s.requests[r];
    assert RequestOk(formats, s, r, request);
    if StillPending(s.orders, request.pc.order.id) {
      NextKeepsOrders(formats, s, r, a, s');
      WinnerKeepsInv(formats, s, r, a.event, a.now, a.replyLost, s');
    } else {
      LostRaceKeepsInv(formats, s, r, request.pc.order, s');
    }
  }

  lemma WinnerKeepsInv(formats: Formats, s: State, r: RequestId, event: EventId, now: Time, replyLost: bool, s': State)
    requires OrdersOk(formats, s) && KeysUnique(s.orders) && EventsOk(s) && OrdersKept(s, s')
    requires r in s.requests && AcceptStep(s, r, event, now, replyLost, s')
    requires Snapshot(formats, s, s.requests[r], s.requests[r].pc.order)
    requires s.requests[r].created ==> CreatedBy(s, r, s.requests[r].key)
    requires StillPending(s.orders, s.requests[r].pc.order.id)
    ensures OrdersOk(formats, s') && KeysUnique(s'.orders) && EventsOk(s') && ActorOk(formats, s', r)
  {
    var request := s.requests[r];
    var order := Decided(request.pc.order, Accepted, now);
    var stored := Spelled(order, formats.uuids);
    assert Updated(s.orders, stored) == Updated(s.orders, order) && EventOf(event, stored) == EventOf(event, order);
    DecisionKeepsOrders(formats, s, order, s');
    NewEventOk(s, stored, event, s');
    assert request.created ==> CreatedBy(s', r, request.key) by { CreatorKept(s, s', r, request); }
  }

  lemma CreatorKept(s: State, s': State, r: RequestId, request: Request)
    requires OrdersKept(s, s') && (request.created ==> CreatedBy(s, r, request.key))
    ensures request.created ==> CreatedBy(s', r, request.key)
  {
    if request.created {
      var id :| id in s.orders && id in s.creators && s.creators[id] == r && s.orders[id].key == request.key;
      assert OrderKept(s, s', id);
    }
  }

  lemma RejectKeepsInv(formats: Formats, s: State, r: RequestId, a: Action, s': State)
    requires Inv(formats, s) && a.Reject? && Next(formats, s, r, a, s')
    ensures OrdersOk(formats, s') && KeysUnique(s'.orders) && EventsOk(s') && ActorOk(formats, s', r)
  {
    var request := s.requests[r];
    assert RequestOk(formats, s, r, request);
    if StillPending(s.orders, request.pc.order.id) {
      NextKeepsOrders(formats, s, r, a, s');
      RejecterKeepsInv(formats, s, r, a.now, a.replyLost, s');
    } else {
      LostRaceKeepsInv(formats, s, r, request.pc.order, s');
    }
  }

  lemma RejecterKeepsInv(formats: Formats, s: State, r: RequestId, now: Time, replyLost: bool, s': State)
    requires OrdersOk(formats, s) && KeysUnique(s.orders) && EventsOk(s) && OrdersKept(s, s')
    requires r in s.requests && RejectStep(s, r, now, replyLost, s')
    requires Snapshot(formats, s, s.requests[r], s.requests[r].pc.order)
    requires s.requests[r].created ==> CreatedBy(s, r, s.requests[r].key)
    requires StillPending(s.orders, s.requests[r].pc.order.id)
    ensures OrdersOk(formats, s') && KeysUnique(s'.orders) && EventsOk(s') && ActorOk(formats, s', r)
  {
    var request := s.requests[r];
    var order := Decided(request.pc.order, Rejected, now);
    DecisionKeepsOrders(formats, s, order, s');
    RejectionKeepsEvents(s, order, s');
    assert RejectedUnder(s', request.key) by { assert s'.orders[order.id].status == Rejected; }
    assert request.created ==> CreatedBy(s', r, request.key) by { CreatorKept(s, s', r, request); }
  }

  // ----- every step

  lemma SameOrdersKeepInv(formats: Formats, s: State, r: RequestId, a: Action, s': State)
    requires Inv(formats, s) && !TouchesOrders(a) && Next(formats, s, r, a, s')
    ensures OrdersOk(formats, s') && KeysUnique(s'.orders) && EventsOk(s') && ActorOk(formats, s', r)
  {
    PlainStepKeepsTables(formats, s, r, a, s');
    SameOrdersOk(formats, s, s');
    SameEventsOk(s, s');
    IdsAreKnown(formats, s);
    assert r in s.requests ==> RequestOk(formats, s, r, s.requests[r]);
    if a.Find? || a.Reload? { LookupKeepsActor(formats, s, r, a, s'); }
    else if a.Resolve? { ResolveKeepsActor(formats, s, r, a, s'); }
    else { PlainStepKeepsActor(formats, s, r, a, s'); }
  }

  lemma NextKeepsInv(formats: Formats, s: State, r: RequestId, a: Action, s': State)
    requires Inv(formats, s) && Next(formats, s, r, a, s')
    ensures Inv(formats, s')
  {
    OthersStayOk(formats, s, r, a, s');
    IdsAreKnown(formats, s);
    StepKeepsIdsDiffer(formats, s, r, a, s');
    if a.Create? {
      assert ActorOk(formats, s, r);
      CreateKeepsInv(formats, s, r, a.replyLost, s');
    }
    else if a.Accept? { AcceptKeepsInv(formats, s, r, a, s'); }
    else if a.Reject? { RejectKeepsInv(formats, s, r, a, s'); }
    else { SameOrdersKeepInv(formats, s, r, a, s'); }
  }

  lemma StepKeepsInv(formats: Formats, s: State, s': State)
    requires Inv(formats, s) && Step(formats, s, s')
    ensures Inv(formats, s')
  {
    var r, a :| Next(formats, s, r, a, s');
    NextKeepsInv(formats, s, r, a, s');
  }

  lemma InitInv(formats: Formats, s: State)
    requires CodecOk(formats.uuids) && Init(s)
    ensures Inv(formats, s)
  {
  }

  lemma {:induction false} RunKeepsInv(formats: Formats, run: seq<State>, n: nat)
    requires IsRun(formats, run) && n < |run|
    ensures Inv(formats, run[n])
  {
    if n == 0 {
      InitInv(formats, run[0]);
    } else {
      RunKeepsInv(formats, run, n - 1);
      assert Inv(formats, run[n]) by {
        assert StepAt(formats, run, n);
        StepKeepsInv(formats, run[n - 1], run[n]);
      }
    }
  }
}
