/**
 * What ties the services together in every reachable state. Each service keeps its own
 * invariant, because a system step is a step of it or leaves it alone.
 */
module SystemSafety {
  import opened Collections
  import opened Skus
  import opened Canonical
  import opened OrderDomain
  import opened OrderRows
  import opened Pipeline
  import opened InventoryAnswers
  import opened SystemRuns
  import opened SystemSteps
  import Orders = OrderRuns
  import OrderSafety
  import OrderTheorems
  import Stock = ReservationRuns
  import StockSafety = ReservationSafety
  import StockTheorems = ReservationTheorems
  import Relay = OutboxRuns
  import RelaySafety = OutboxSafety
  import Mail = NotificationRuns
  import MailSafety = NotificationSafety
  import Delivery = NotificationDelivery
  import Notifications

  // ----- each service by itself

  ghost predicate ServicesOk(env: Env, s: State)
  {
    && OrderSafety.Inv(env.formats, s.orders) && StockSafety.Inv(s.stock)
    && RelaySafety.Inv(s.outbox) && MailSafety.Inv(s.mail)
  }

  ghost predicate Projects(env: Env, s: State, s': State)
  {
    && (s'.orders == s.orders || Orders.Step(env.formats, s.orders, s'.orders))
    && (s'.stock == s.stock || StockTheorems.Step(s.stock, s'.stock))
    && (s'.outbox == s.outbox || Relay.Step(env.relay, s.outbox, s'.outbox))
    && (s'.mail == s.mail || Mail.Step(env.mail, s.mail, s'.mail))
  }

  /** No system step makes a service do what it could not do alone. */
  lemma StepProjects(env: Env, s: State, a: Action, s': State)
    requires Next(env, s, a, s')
    ensures Projects(env, s, s')
  {
  }

  lemma StepKeepsServices(env: Env, s: State, s': State)
    requires ServicesOk(env, s) && Projects(env, s, s')
    ensures ServicesOk(env, s')
  {
    if s'.orders != s.orders { OrderSafety.StepKeepsInv(env.formats, s.orders, s'.orders); }
    if s'.stock != s.stock { StockTheorems.StepKeepsInv(s.stock, s'.stock); }
    if s'.outbox != s.outbox { RelaySafety.StepKeepsInv(env.relay, s.outbox, s'.outbox); }
    if s'.mail != s.mail { MailSafety.StepKeepsInv(env.mail, s.mail, s'.mail); }
  }

  // ----- orders and inventory

  /** What was sent is what is stored: a stored order keeps its items. */
  ghost predicate SentOk(s: State)
  {
    forall call :: call in s.sent ==>
      s.sent[call].order in s.orders.orders && s.sent[call] == ReservationFor(s.orders.orders[s.sent[call].order])
  }

  /** Inventory works on what was sent, in canonical form. */
  ghost predicate CallsMatch(s: State)
  {
    forall call :: call in s.stock.calls ==>
      && call in s.sent
      && s.stock.calls[call].order == Trim(s.sent[call].order)
      && s.stock.calls[call].lines == Canonicals(Cleaned(s.sent[call].lines))
  }

  ghost predicate WaitingOk(s: State)
  {
    forall r :: r in s.orders.requests && s.orders.requests[r].pc.Waiting? ==>
      && s.orders.requests[r].pc.call in s.sent
      && s.sent[s.orders.requests[r].pc.call].order == s.orders.requests[r].pc.order.id
  }

  /** Whoever is about to accept an order, or has accepted it, has its stock. */
  ghost predicate AcceptedOk(s: State)
  {
    && (forall r :: r in s.orders.requests && s.orders.requests[r].pc.Accepting? ==>
          Backed(s.stock, s.orders.requests[r].pc.order.id))
    && (forall id :: id in s.orders.orders && s.orders.orders[id].status == Accepted ==> Backed(s.stock, id))
  }

  /** Whoever is about to reject an order, or has rejected it, was refused by inventory. */
  ghost predicate RejectedOk(s: State)
  {
    && (forall r :: r in s.orders.requests && s.orders.requests[r].pc.Rejecting? ==>
          Refused(s.stock, s.orders.requests[r].pc.order.id))
    && (forall id :: id in s.orders.orders && s.orders.orders[id].status == Rejected ==> Refused(s.stock, id))
  }

  ghost predicate StockTied(s: State)
  {
    SentOk(s) && CallsMatch(s) && WaitingOk(s) && AcceptedOk(s) && RejectedOk(s)
  }

  lemma SameReservation(a: OrderData, b: OrderData)
    requires OrderSafety.SameOrder(a, b)
    ensures ReservationFor(a) == ReservationFor(b)
  {
  }

  lemma OrdersKeepSent(s: State, s': State)
    requires SentOk(s) && OrderSafety.OrdersKept(s.orders, s'.orders) && s'.sent == s.sent
    ensures SentOk(s')
  {
    forall call | call in s'.sent
      ensures s'.sent[call].order in s'.orders.orders
           && s'.sent[call] == ReservationFor(s'.orders.orders[s'.sent[call].order])
    {
      var id := s.sent[call].order;
      assert OrderSafety.OrderKept(s.orders, s'.orders, id);
      SameReservation(s'.orders.orders[id], s.orders.orders[id]);
    }
  }

  ghost predicate Known(orders: Orders.State, order: OrderData)
  {
    order.id in orders.orders && ReservationFor(order) == ReservationFor(orders.orders[order.id]) && IsTrimmed(order.id)
  }

  lemma SnapshotIsKnown(formats: Orders.Formats, orders: Orders.State, request: Orders.Request, order: OrderData)
    requires OrderSafety.Snapshot(formats, orders, request, order) && orders.orders[order.id].id == order.id
    requires IsTrimmed(order.id)
    ensures Known(orders, order)
  {
  }

  /** What a request at work has in memory is stored. */
  lemma InHandIsKnown(env: Env, orders: Orders.State, r: Orders.RequestId)
    requires OrderSafety.Inv(env.formats, orders) && r in orders.requests
    ensures var pc := orders.requests[r].pc;
            && (pc.Reserving? || pc.Waiting? || pc.Accepting? || pc.Rejecting? ==> Known(orders, pc.order))
            && (pc.Creating? ==> pc.order.status == Pending)
  {
    var request := orders.requests[r];
    assert OrderSafety.PcOk(env.formats, orders, request) by {
      assert OrderSafety.RequestOk(env.formats, orders, r, request);
    }
    var pc := request.pc;
    if pc.Reserving? || pc.Waiting? || pc.Accepting? || pc.Rejecting? { AtWorkIsKnown(env, orders, request); }
  }

  lemma AtWorkIsKnown(env: Env, orders: Orders.State, request: Orders.Request)
    requires OrderSafety.OrdersOk(env.formats, orders) && OrderSafety.PcOk(env.formats, orders, request)
    requires request.pc.Reserving? || request.pc.Waiting? || request.pc.Accepting? || request.pc.Rejecting?
    ensures Known(orders, request.pc.order)
  {
    var order := request.pc.order;
    assert OrderSafety.Snapshot(env.formats, orders, request, order);
    assert OrderSafety.OrderOk(env.formats, orders, order.id, orders.orders[order.id]);
    SnapshotIsKnown(env.formats, orders, request, order);
  }

  lemma CallKeepsTied(env: Env, s: State, r: Orders.RequestId, call: CallId, s': State)
    requires ServicesOk(env, s) && StockTied(s) && CallStep(env, s, r, call, s')
    ensures StockTied(s')
  {
    InHandIsKnown(env, s.orders, r);
    ReserveKeepsOrders(env, s.orders, r, call, s'.orders);
    WhoWaits(env.formats, s.orders, r, Orders.Reserve(call), s'.orders);
    CallIsSent(env, s, r, call, s');
    SentCallKeepsTied(s, r, call, s');
  }

  lemma CallIsSent(env: Env, s: State, r: Orders.RequestId, call: CallId, s': State)
    requires CallStep(env, s, r, call, s') && Known(s.orders, s.orders.requests[r].pc.order) && SentOk(s)
    requires s'.orders.orders == s.orders.orders
    ensures SentOk(s') && call !in s.sent && s'.sent == s.sent[call := s'.sent[call]]
    ensures s'.sent[call].order == s.orders.requests[r].pc.order.id && s'.stock == s.stock
  {
  }

  lemma SentCallKeepsTied(s: State, r: Orders.RequestId, call: CallId, s': State)
    requires CallsMatch(s) && WaitingOk(s) && AcceptedOk(s) && RejectedOk(s) && SentOk(s')
    requires call !in s.sent && call in s'.sent && s'.sent == s.sent[call := s'.sent[call]] && s'.stock == s.stock
    requires s'.orders.orders == s.orders.orders
    requires forall q :: q in s'.orders.requests && s'.orders.requests[q].pc.Waiting? ==>
               || (q in s.orders.requests && s.orders.requests[q].pc == s'.orders.requests[q].pc)
               || (s'.orders.requests[q].pc.call == call && s'.sent[call].order == s'.orders.requests[q].pc.order.id)
    requires forall q :: (q in s'.orders.requests
                          && (s'.orders.requests[q].pc.Accepting? || s'.orders.requests[q].pc.Rejecting?)) ==>
               q in s.orders.requests && s'.orders.requests[q] == s.orders.requests[q]
    ensures StockTied(s')
  {
  }

  lemma ReserveKeepsOrders(env: Env, s: Orders.State, r: Orders.RequestId, call: CallId, s': Orders.State)
    requires Orders.Next(env.formats, s, r, Orders.Reserve(call), s')
    ensures s'.orders == s.orders
    ensures forall q :: q in s'.requests && (s'.requests[q].pc.Accepting? || s'.requests[q].pc.Rejecting?) ==>
              q in s.requests && s'.requests[q] == s.requests[q]
  {
  }

  /** A step of the orders alone, given that whoever starts to accept or reject is entitled to. */
  lemma OrdersKeepTied(env: Env, s: State, r: Orders.RequestId, a: Orders.Action, s': State)
    requires ServicesOk(env, s) && StockTied(s) && OrderStep(env, s, r, a, s') && !a.Reserve?
    requires s'.sent == s.sent && s'.stock == s.stock
    requires a == Orders.Hear(Orders.Granted) && r in s.orders.requests && s.orders.requests[r].pc.Waiting? ==>
               Backed(s.stock, s.orders.requests[r].pc.order.id)
    requires a == Orders.Hear(Orders.Insufficient) && r in s.orders.requests && s.orders.requests[r].pc.Waiting? ==>
               Refused(s.stock, s.orders.requests[r].pc.order.id)
    ensures StockTied(s')
  {
    OrderSafety.NextKeepsOrders(env.formats, s.orders, r, a, s'.orders);
    OrdersKeepSent(s, s');
    if r in s.orders.requests { InHandIsKnown(env, s.orders, r); }
    OrdersKeepAccepted(env, s, r, a, s');
    OrdersKeepRejected(env, s, r, a, s');
    WhoWaits(env.formats, s.orders, r, a, s'.orders);
  }

  lemma OrdersKeepAccepted(env: Env, s: State, r: Orders.RequestId, a: Orders.Action, s': State)
    requires AcceptedOk(s) && OrderStep(env, s, r, a, s') && s'.stock == s.stock
    requires r in s.orders.requests && s.orders.requests[r].pc.Creating? ==> s.orders.requests[r].pc.order.status == Pending
    requires a == Orders.Hear(Orders.Granted) && r in s.orders.requests && s.orders.requests[r].pc.Waiting? ==>
               Backed(s.stock, s.orders.requests[r].pc.order.id)
    ensures AcceptedOk(s')
  {
    WhoAccepts(env.formats, s.orders, r, a, s'.orders);
    forall id | id in s'.orders.orders && s'.orders.orders[id].status == Accepted ensures Backed(s'.stock, id) {
      WhoDecides(env.formats, s.orders, r, a, s'.orders, id);
    }
  }

  lemma OrdersKeepRejected(env: Env, s: State, r: Orders.RequestId, a: Orders.Action, s': State)
    requires RejectedOk(s) && OrderStep(env, s, r, a, s') && s'.stock == s.stock
    requires r in s.orders.requests && s.orders.requests[r].pc.Creating? ==> s.orders.requests[r].pc.order.status == Pending
    requires a == Orders.Hear(Orders.Insufficient) && r in s.orders.requests && s.orders.requests[r].pc.Waiting? ==>
               Refused(s.stock, s.orders.requests[r].pc.order.id)
    ensures RejectedOk(s')
  {
    WhoRejects(env.formats, s.orders, r, a, s'.orders);
    forall id | id in s'.orders.orders && s'.orders.orders[id].status == Rejected ensures Refused(s'.stock, id) {
      WhoDecides(env.formats, s.orders, r, a, s'.orders, id);
    }
  }

  /** What a waiting request may hear is true of the order it waits for. */
  lemma AnswerIsTrue(env: Env, s: State, r: Orders.RequestId, answer: Orders.Answer)
    requires ServicesOk(env, s) && CallsMatch(s) && WaitingOk(s)
    requires r in s.orders.requests && s.orders.requests[r].pc.Waiting?
    requires MayHear(VerdictOf(s.stock, s.orders.requests[r].pc.call), answer)
    ensures answer == Orders.Granted ==> Backed(s.stock, s.orders.requests[r].pc.order.id)
    ensures answer == Orders.Insufficient ==> Refused(s.stock, s.orders.requests[r].pc.order.id)
  {
    var call := s.orders.requests[r].pc.call;
    InHandIsKnown(env, s.orders, r);
    DecidingAnswers(VerdictOf(s.stock, call), answer);
    if answer == Orders.Granted { ReservedIsBacked(s.stock, call); }
  }

  lemma HearKeepsTied(env: Env, s: State, r: Orders.RequestId, answer: Orders.Answer, s': State)
    requires ServicesOk(env, s) && StockTied(s) && HearStep(env, s, r, answer, s')
    ensures StockTied(s')
  {
    AnswerIsTrue(env, s, r, answer);
    OrdersKeepTied(env, s, r, Orders.Hear(answer), s');
  }

  lemma StockKeepsTied(env: Env, s: State, call: CallId, a: Stock.Action, s': State)
    requires StockTied(s) && Stock.Next(s.stock, call, a, s'.stock) && s' == s.(stock := s'.stock)
    requires a.Start? ==> call in s.sent && a.order == Trim(s.sent[call].order)
                          && a.lines == Canonicals(Cleaned(s.sent[call].lines))
    ensures StockTied(s')
  {
    NewCallsStart(s.stock, call, a, s'.stock);
    forall id | Backed(s.stock, id) ensures Backed(s'.stock, id) { BackedForGood(s.stock, call, a, s'.stock, id); }
    forall id | Refused(s.stock, id) ensures Refused(s'.stock, id) { RefusedForGood(s.stock, call, a, s'.stock, id); }
  }

  lemma NextKeepsTied(env: Env, s: State, a: Action, s': State)
    requires ServicesOk(env, s) && StockTied(s) && Next(env, s, a, s')
    ensures StockTied(s')
  {
    match a {
      case OrderMoves(r, order) => OrdersKeepTied(env, s, r, order, s');
      case Call(r, call) => CallKeepsTied(env, s, r, call, s');
      case Arrive(call) => ArriveKeepsTied(env, s, call, s');
      case StockMoves(call, stock) => StockKeepsTied(env, s, call, stock, s');
      case Hear(r, answer) => HearKeepsTied(env, s, r, answer, s');
      case Accept(r, event, now, replyLost) => AcceptKeepsTied(env, s, r, event, now, replyLost, s');
      case _ => NothingElseTied(s, s');
    }
  }

  lemma ArriveKeepsTied(env: Env, s: State, call: CallId, s': State)
    requires StockTied(s) && ArriveStep(env, s, call, s')
    ensures StockTied(s')
  {
    StockKeepsTied(env, s, call, Stock.Start(Trim(s.sent[call].order), Canonicals(Cleaned(s.sent[call].lines))), s');
  }

  lemma AcceptKeepsTied(env: Env, s: State, r: Orders.RequestId, event: EventId, now: Time, replyLost: bool, s': State)
    requires ServicesOk(env, s) && StockTied(s) && AcceptStep(env, s, r, event, now, replyLost, s')
    ensures StockTied(s')
  {
    OrdersKeepTied(env, s, r, Orders.Accept(event, now, replyLost), s');
  }

  lemma NothingElseTied(s: State, s': State)
    requires StockTied(s) && s'.orders == s.orders && s'.sent == s.sent && s'.stock == s.stock
    ensures StockTied(s')
  {
  }

  // ----- orders, outbox and notification

  /** The outbox was given exactly the recorded events, each under its order. */
  ghost predicate EventsMatch(s: State)
  {
    && s.orders.events.Keys == s.outbox.recorded && s.outbox.rows.Keys <= s.orders.events.Keys
    && (forall id :: id in s.outbox.rows ==> s.outbox.rows[id].order == s.orders.events[id].orderId)
    && (forall id :: id in s.orders.events ==> s.orders.events[id].id == id)
  }

  ghost predicate DeliveredFor(s: State, event: EventId)
  {
    event in s.orders.events && Delivery.Delivered(s.mail, s.orders.events[event].orderId)
  }

  /** Whatever is known to be routed is delivered, and a row is gone only if it was. */
  ghost predicate RoutedOk(s: State)
  {
    && (forall id :: id in s.outbox.confirmed ==> DeliveredFor(s, id))
    && (forall w :: w in s.outbox.workers && s.outbox.workers[w].Publishing? && s.outbox.workers[w].routed ==>
          DeliveredFor(s, s.outbox.workers[w].entry.event))
    && (forall id :: id in s.orders.events && id !in s.outbox.rows ==> id in s.outbox.confirmed)
  }

  ghost predicate FromEvents(env: Env, s: State, message: Mail.Message)
  {
    message.event in s.orders.events && message == MessageOf(env, s.orders.events[message.event])
  }

  /** Every copy of a message is of a recorded event, and every counted attempt is for its order. */
  ghost predicate MailOk(env: Env, s: State)
  {
    && (forall message: Mail.Message :: Delivery.Copy(s.mail, message) ==> FromEvents(env, s, message))
    && (forall t :: t in s.mail.begun ==> ForEvent(s, s.mail.begun[t]))
  }

  ghost predicate ForEvent(s: State, key: Notifications.EffectKey)
  {
    exists id :: id in s.orders.events && key == Notifications.KeyOf(s.orders.events[id].orderId)
  }

  ghost predicate MailTied(env: Env, s: State)
  {
    EventsMatch(s) && RoutedOk(s) && MailOk(env, s)
  }

  ghost predicate EventsKept(s: State, s': State)
  {
    forall id :: id in s.orders.events ==> id in s'.orders.events && s'.orders.events[id] == s.orders.events[id]
  }

  ghost predicate DeliveredKept(s: State, s': State)
  {
    forall id :: DeliveredFor(s, id) ==> DeliveredFor(s', id)
  }

  lemma MailKeepsDelivered(env: Env, s: State, s': State)
    requires ServicesOk(env, s) && Projects(env, s, s') && EventsKept(s, s')
    ensures DeliveredKept(s, s')
  {
    forall id | DeliveredFor(s, id) ensures DeliveredFor(s', id) {
      if s'.mail != s.mail { Delivery.StepKeepsDelivered(env.mail, s.mail, s'.mail, s.orders.events[id].orderId); }
    }
  }

  lemma SameMailOk(env: Env, s: State, s': State)
    requires MailOk(env, s) && EventsKept(s, s') && s'.mail == s.mail
    ensures MailOk(env, s')
  {
    forall message: Mail.Message | Delivery.Copy(s'.mail, message) ensures FromEvents(env, s', message) {
      assert FromEvents(env, s, message);
    }
    forall t | t in s'.mail.begun ensures ForEvent(s', s'.mail.begun[t]) {
      var id :| id in s.orders.events && s.mail.begun[t] == Notifications.KeyOf(s.orders.events[id].orderId);
      assert id in s'.orders.events;
    }
  }

  lemma OrdersKeepMail(env: Env, s: State, r: Orders.RequestId, a: Orders.Action, s': State)
    requires MailTied(env, s) && !a.Accept? && OrderStep(env, s, r, a, s')
    requires s'.outbox == s.outbox && s'.mail == s.mail
    ensures MailTied(env, s')
  {
    WhoRecords(env.formats, s.orders, r, a, s'.orders);
    SameMailOk(env, s, s');
  }

  lemma RecordKeepsMail(env: Env, s: State, r: Orders.RequestId, event: EventId, now: Time, replyLost: bool, s': State)
    requires MailTied(env, s) && AcceptStep(env, s, r, event, now, replyLost, s')
    ensures MailTied(env, s')
  {
    WhoRecords(env.formats, s.orders, r, Orders.Accept(event, now, replyLost), s'.orders);
    AcceptedWasNew(env, s, r, event, now, replyLost, s');
    SameMailOk(env, s, s');
    assert DeliveredKept(s, s');
  }

  lemma AcceptedWasNew(env: Env, s: State, r: Orders.RequestId, event: EventId, now: Time, replyLost: bool, s': State)
    requires AcceptStep(env, s, r, event, now, replyLost, s')
    ensures event !in s.orders.events
  {
  }

  lemma RelayKeepsMail(env: Env, s: State, w: Relay.WorkerId, a: Relay.Action, s': State)
    requires ServicesOk(env, s) && MailTied(env, s) && RelayStep(env, s, w, a, s')
    ensures MailTied(env, s')
  {
    RowsKeepOrders(env.relay, s.outbox, w, a, s'.outbox);
    RowsGoOnlyPublished(env.relay, s.outbox, w, a, s'.outbox);
    WhoConfirms(env.relay, s.outbox, w, a, s'.outbox);
    SameMailOk(env, s, s');
    assert DeliveredKept(s, s');
  }

  lemma PublishedIsDelivered(env: Env, s: State, event: EventId, s': State)
    requires event in s.orders.events && s'.orders == s.orders
    requires Mail.Next(env.mail, s.mail, 0, Mail.Publish(MessageOf(env, s.orders.events[event])), s'.mail)
    ensures DeliveredFor(s', event)
  {
    var message := MessageOf(env, s.orders.events[event]);
    assert Delivery.Copy(s'.mail, message);
  }

  lemma MailStepKeepsMessages(env: Env, s: State, h: Mail.HandlerId, a: Mail.Action, s': State)
    requires MailOk(env, s) && Mail.Next(env.mail, s.mail, h, a, s'.mail) && s'.orders == s.orders
    requires a.Publish? ==> FromEvents(env, s, a.message)
    ensures MailOk(env, s')
  {
    forall message: Mail.Message | Delivery.Copy(s'.mail, message) ensures FromEvents(env, s', message) {
      CopiesAreOfPublished(env.mail, s.mail, h, a, s'.mail, message);
    }
    AttemptsAreForMessages(env.mail, s.mail, h, a, s'.mail);
    forall t | t in s'.mail.begun ensures ForEvent(s', s'.mail.begun[t]) {
      if t in s.mail.begun && s'.mail.begun[t] == s.mail.begun[t] {
        assert ForEvent(s, s.mail.begun[t]);
      } else {
        var message := Mail.HandlerAt(s.mail, h).message;
        assert Delivery.InHand(s.mail, message);
        assert FromEvents(env, s, message);
      }
    }
  }

  lemma RouteKeepsMail(env: Env, s: State, w: Relay.WorkerId, s': State)
    requires ServicesOk(env, s) && MailTied(env, s) && RouteStep(env, s, w, s') && Projects(env, s, s')
    ensures MailTied(env, s')
  {
    var event := Relay.WorkerAt(s.outbox, w).entry.event;
    MailKeepsDelivered(env, s, s');
    PublishedIsDelivered(env, s, event, s');
    RoutingIsRecorded(env, s, w, s');
    MailStepKeepsMessages(env, s, 0, Mail.Publish(MessageOf(env, s.orders.events[event])), s');
  }

  lemma RoutingIsRecorded(env: Env, s: State, w: Relay.WorkerId, s': State)
    requires EventsMatch(s) && RoutedOk(s) && RouteStep(env, s, w, s') && DeliveredKept(s, s')
    requires DeliveredFor(s', Relay.WorkerAt(s.outbox, w).entry.event)
    ensures EventsMatch(s') && RoutedOk(s')
  {
  }

  lemma MailMoveKeepsMail(env: Env, s: State, h: Mail.HandlerId, a: Mail.Action, s': State)
    requires ServicesOk(env, s) && MailTied(env, s) && Mail.Next(env.mail, s.mail, h, a, s'.mail) && s' == s.(mail := s'.mail)
    requires a.Publish? ==> FromEvents(env, s, a.message)
    requires Projects(env, s, s')
    ensures MailTied(env, s')
  {
    MailKeepsDelivered(env, s, s');
    MailStepKeepsMessages(env, s, h, a, s');
  }

  lemma NextKeepsMail(env: Env, s: State, a: Action, s': State)
    requires ServicesOk(env, s) && MailTied(env, s) && Next(env, s, a, s')
    ensures MailTied(env, s')
  {
    StepProjects(env, s, a, s');
    match a {
      case OrderMoves(r, order) => OrdersKeepMail(env, s, r, order, s');
      case Call(r, call) => OrdersKeepMail(env, s, r, Orders.Reserve(call), s');
      case Hear(r, answer) => OrdersKeepMail(env, s, r, Orders.Hear(answer), s');
      case Accept(r, event, now, replyLost) => RecordKeepsMail(env, s, r, event, now, replyLost, s');
      case RelayMoves(w, relay) => RelayKeepsMail(env, s, w, relay, s');
      case Route(w) => RouteKeepsMail(env, s, w, s');
      case RouteLate(event) =>
        MailMoveKeepsMail(env, s, 0, Mail.Publish(MessageOf(env, s.orders.events[event])), s');
      case MailMoves(h, mail) => MailMoveKeepsMail(env, s, h, mail, s');
      case _ =>
        SameMailOk(env, s, s');
        assert DeliveredKept(s, s');
    }
  }

  // ----- all of it

  ghost predicate Inv(env: Env, s: State)
  {
    ServicesOk(env, s) && StockTied(s) && MailTied(env, s)
  }

  lemma InitServices(env: Env, s: State)
    requires CodecOk(env.formats.uuids) && Init(s)
    ensures ServicesOk(env, s)
  {
    StockSafety.InitInv(s.stock);
    OrderSafety.InitInv(env.formats, s.orders);
    MailSafety.InitInv(s.mail);
  }

  lemma InitInv(env: Env, s: State)
    requires CodecOk(env.formats.uuids) && Init(s)
    ensures Inv(env, s)
  {
    InitServices(env, s);
    assert StockTied(s);
    forall message: Mail.Message ensures !Delivery.Copy(s.mail, message) {}
    assert MailTied(env, s);
  }

  lemma StepKeepsInv(env: Env, s: State, s': State)
    requires Inv(env, s) && Step(env, s, s')
    ensures Inv(env, s')
  {
    var a :| Next(env, s, a, s');
    StepProjects(env, s, a, s');
    StepKeepsServices(env, s, s');
    NextKeepsTied(env, s, a, s');
    NextKeepsMail(env, s, a, s');
  }

  lemma {:induction false} RunKeepsInv(env: Env, run: seq<State>, n: nat)
    requires IsRun(env, run) && n < |run|
    ensures Inv(env, run[n])
  {
    if n == 0 {
      InitInv(env, run[0]);
    } else {
      RunKeepsInv(env, run, n - 1);
      assert Inv(env, run[n]) by {
        assert StepAt(env, run, n);
        StepKeepsInv(env, run[n - 1], run[n]);
      }
    }
  }
}
