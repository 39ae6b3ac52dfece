/** What one step of one service may do, as far as the other services are concerned. */
module SystemSteps {
  import opened Collections
  import opened Baskets
  import opened OrderDomain
  import opened StockTables
  import Orders = OrderRuns
  import OrderSafety
  import Stock = ReservationRuns
  import StockSafety = ReservationSafety
  import StockTheorems = ReservationTheorems
  import Relay = OutboxRuns
  import RelaySafety = OutboxSafety
  import Box = Outbox
  import Mail = NotificationRuns
  import MailSafety = NotificationSafety
  import Delivery = NotificationDelivery
  import Notifications

  // ----- orders

  lemma WhoAccepts(formats: Orders.Formats, s: Orders.State, r: Orders.RequestId, a: Orders.Action, s': Orders.State)
    requires Orders.Next(formats, s, r, a, s')
    ensures forall q :: q in s'.requests && s'.requests[q].pc.Accepting? ==>
              || (q in s.requests && s.requests[q].pc == s'.requests[q].pc)
              || (q == r && a == Orders.Hear(Orders.Granted) && q in s.requests && s.requests[q].pc.Waiting?
                  && s.requests[q].pc.order == s'.requests[q].pc.order)
  {
  }

  lemma WhoRejects(formats: Orders.Formats, s: Orders.State, r: Orders.RequestId, a: Orders.Action, s': Orders.State)
    requires Orders.Next(formats, s, r, a, s')
    ensures forall q :: q in s'.requests && s'.requests[q].pc.Rejecting? ==>
              || (q in s.requests && s.requests[q].pc == s'.requests[q].pc)
              || (q == r && a == Orders.Hear(Orders.Insufficient) && q in s.requests && s.requests[q].pc.Waiting?
                  && s.requests[q].pc.order == s'.requests[q].pc.order)
  {
  }

  lemma WhoWaits(formats: Orders.Formats, s: Orders.State, r: Orders.RequestId, a: Orders.Action, s': Orders.State)
    requires Orders.Next(formats, s, r, a, s')
    ensures forall q :: q in s'.requests && s'.requests[q].pc.Waiting? ==>
              || (q in s.requests && s.requests[q].pc == s'.requests[q].pc)
              || (q == r && a.Reserve? && q in s.requests && s.requests[q].pc.Reserving?
                  && s'.requests[q].pc.order == s.requests[q].pc.order && s'.requests[q].pc.call == a.call)
  {
  }

  /** An order becomes accepted or rejected only by the request that was about to say so. */
  lemma WhoDecides(formats: Orders.Formats, s: Orders.State, r: Orders.RequestId, a: Orders.Action, s': Orders.State, id: Orders.OrderId)
    requires Orders.Next(formats, s, r, a, s') && id in s'.orders && s'.orders[id].status != Pending
    requires r in s.requests && s.requests[r].pc.Creating? ==> s.requests[r].pc.order.status == Pending
    ensures || (id in s.orders && s.orders[id].status == s'.orders[id].status)
            || (a.Accept? && s'.orders[id].status == Accepted && r in s.requests && s.requests[r].pc.Accepting?
                && s.requests[r].pc.order.id == id)
            || (a.Reject? && s'.orders[id].status == Rejected && r in s.requests && s.requests[r].pc.Rejecting?
                && s.requests[r].pc.order.id == id)
  {
  }

  lemma WhoRecords(formats: Orders.Formats, s: Orders.State, r: Orders.RequestId, a: Orders.Action, s': Orders.State)
    requires Orders.Next(formats, s, r, a, s')
    ensures s'.events == s.events
         || (a.Accept? && a.event !in s.events && r in s.requests && s.requests[r].pc.Accepting?
             && s'.events.Keys == s.events.Keys + {a.event}
             && s'.events[a.event].orderId == s.requests[r].pc.order.id && s'.events[a.event].id == a.event)
    ensures forall id :: id in s.events ==> id in s'.events && s'.events[id] == s.events[id]
  {
  }

  // ----- stock

  lemma NewCallsStart(s: Stock.State, id: Stock.CallId, a: Stock.Action, s': Stock.State)
    requires Stock.Next(s, id, a, s')
    ensures StockTheorems.LinesKept(s, s')
    ensures forall call :: call in s'.calls && call !in s.calls ==>
              a.Start? && call == id && s'.calls[call].order == a.order && s'.calls[call].lines == a.lines
  {
    StockTheorems.CallsKeepLines(s, id, a, s');
  }

  ghost predicate Backed(s: Stock.State, order: string)
  {
    HeldBy(s.reservations, order) != map[]
  }

  lemma BackedForGood(s: Stock.State, id: Stock.CallId, a: Stock.Action, s': Stock.State, order: string)
    requires Stock.Next(s, id, a, s') && Backed(s, order)
    ensures Backed(s', order)
  {
    if a.Commit? {
      var sku :| sku in HeldBy(s.reservations, order);
      assert sku in HeldBy(s'.reservations, order);
    }
  }

  ghost predicate Refused(s: Stock.State, order: string)
  {
    exists call :: call in s.calls && s.calls[call].order == order
      && s.calls[call].pc == Stock.Done(Stock.Refused(Stock.ShortOfStock))
  }

  lemma RefusedForGood(s: Stock.State, id: Stock.CallId, a: Stock.Action, s': Stock.State, order: string)
    requires Stock.Next(s, id, a, s') && Refused(s, order)
    ensures Refused(s', order)
  {
    var call :| call in s.calls && s.calls[call].order == order
      && s.calls[call].pc == Stock.Done(Stock.Refused(Stock.ShortOfStock));
    assert s'.calls[call] == s.calls[call];
  }

  /** A call that was told its stock is reserved is right about it. */
  lemma ReservedIsBacked(s: Stock.State, call: Stock.CallId)
    requires StockSafety.Inv(s) && call in s.calls
    requires s.calls[call].pc == Stock.Done(Stock.Reserved) || s.calls[call].pc == Stock.Done(Stock.AlreadyHeld)
    ensures Backed(s, s.calls[call].order)
  {
    var c := s.calls[call];
    assert StockSafety.CallOk(s, c);
    if c.committed { assert StockSafety.HoldsLine(s, c, 0); }
  }

  // ----- outbox

  lemma RowsKeepOrders(c: Relay.Config, s: Relay.State, w: Relay.WorkerId, a: Relay.Action, s': Relay.State)
    requires !a.Record? && Relay.Next(c, s, w, a, s')
    ensures s'.recorded == s.recorded && s'.rows.Keys <= s.rows.Keys
    ensures forall id :: id in s'.rows ==> s'.rows[id].order == s.rows[id].order
  {
  }

  lemma RowsGoOnlyPublished(c: Relay.Config, s: Relay.State, w: Relay.WorkerId, a: Relay.Action, s': Relay.State)
    requires RelaySafety.Inv(s) && !a.Record? && Relay.Next(c, s, w, a, s')
    ensures s.confirmed <= s'.confirmed
    ensures forall id :: id in s.rows && id !in s'.rows ==> id in s'.confirmed
  {
    forall id | id in s.rows && id !in s'.rows ensures id in s'.confirmed {
      assert RelaySafety.RowOk(s, id, s.rows[id]);
    }
  }

  /** An event is confirmed only by a publication that the broker had routed. */
  lemma WhoConfirms(c: Relay.Config, s: Relay.State, w: Relay.WorkerId, a: Relay.Action, s': Relay.State)
    requires Relay.Next(c, s, w, a, s')
    ensures forall id :: id in s'.confirmed && id !in s.confirmed ==>
              var worker := Relay.WorkerAt(s, w); worker.Publishing? && worker.routed && worker.entry.event == id
    ensures forall v :: v in s'.workers && s'.workers[v].Publishing? && s'.workers[v].routed ==>
              || (v in s.workers && s'.workers[v] == s.workers[v])
              || (v == w && a.Route? && v in s.workers && s.workers[v].Publishing?
                  && s'.workers[v].entry == s.workers[v].entry)
  {
  }

  // ----- mail

  lemma CopiesAreOfPublished(c: Mail.Config, s: Mail.State, h: Mail.HandlerId, a: Mail.Action, s': Mail.State, message: Mail.Message)
    requires Mail.Next(c, s, h, a, s') && Delivery.Copy(s', message)
    ensures Delivery.Copy(s, message) || a == Mail.Publish(message)
  {
    if message in s'.working || message in s'.retry || message in s'.parked {
      QueuedIsOfPublished(c, s, h, a, s', message);
    } else {
      var g :| g in s'.handlers && s'.handlers[g].Busy? && s'.handlers[g].message == message;
      HeldIsOfPublished(c, s, h, a, s', g);
    }
  }

  ghost predicate ActorHas(s: Mail.State, h: Mail.HandlerId, message: Mail.Message)
  {
    h in s.handlers && s.handlers[h].Busy? && s.handlers[h].message == message
  }

  lemma QueuedIsOfPublished(c: Mail.Config, s: Mail.State, h: Mail.HandlerId, a: Mail.Action, s': Mail.State, message: Mail.Message)
    requires Mail.Next(c, s, h, a, s') && (message in s'.working || message in s'.retry || message in s'.parked)
    ensures Delivery.Copy(s, message) || a == Mail.Publish(message)
  {
    assert ActorHas(s, h, message) ==> Delivery.InHand(s, message);
  }

  lemma HeldIsOfPublished(c: Mail.Config, s: Mail.State, h: Mail.HandlerId, a: Mail.Action, s': Mail.State, g: Mail.HandlerId)
    requires Mail.Next(c, s, h, a, s') && g in s'.handlers && s'.handlers[g].Busy?
    ensures Delivery.Copy(s, s'.handlers[g].message)
  {
    MailSafety.OnlyTheActorMoves(c, s, h, a, s');
    var message := s'.handlers[g].message;
    assert ActorHas(s, g, message) ==> Delivery.InHand(s, message);
  }

  /** Attempts are counted only for a message in hand. */
  lemma AttemptsAreForMessages(c: Mail.Config, s: Mail.State, h: Mail.HandlerId, a: Mail.Action, s': Mail.State)
    requires Mail.Next(c, s, h, a, s')
    ensures forall t :: t in s'.begun ==>
              || (t in s.begun && s'.begun[t] == s.begun[t])
              || (Mail.HandlerAt(s, h).Busy? && s'.begun[t] == Notifications.KeyOf(Mail.HandlerAt(s, h).message.order))
  {
  }
}
