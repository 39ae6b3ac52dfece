/**
 * The three services together. A step of the system is a step of one service, or of two
 * where they share a transaction or a message: a call to inventory and its answer, the
 * acceptance with its outbox row, and a publication that reaches the broker's queue.
 */
module SystemRuns {
  import opened Collections
  import opened Skus
  import opened Canonical
  import opened OrderDomain
  import opened OrderRows
  import opened Pipeline
  import opened InventoryAnswers
  import Orders = OrderRuns
  import Stock = ReservationRuns
  import Relay = OutboxRuns
  import Mail = NotificationRuns

  type CallId = nat
  type EventId = string

  datatype Env = Env(formats: Orders.Formats, isUuid: string -> bool, relay: Relay.Config, mail: Mail.Config)

  /** A call as it was sent; it may arrive late, or never. */
  datatype Reservation = Reservation(order: string, lines: seq<RawLine>)

  datatype State = State(
    orders: Orders.State, sent: map<CallId, Reservation>, stock: Stock.State, outbox: Relay.State, mail: Mail.State)

  datatype Action =
    | OrderMoves(r: Orders.RequestId, order: Orders.Action)
    | Call(r: Orders.RequestId, call: CallId)
    | Arrive(call: CallId)
    | StockMoves(call: CallId, stock: Stock.Action)
    | Hear(r: Orders.RequestId, answer: Orders.Answer)
    | Accept(r: Orders.RequestId, event: EventId, now: Time, replyLost: bool)
    | RelayMoves(w: Relay.WorkerId, relay: Relay.Action)
    | Route(w: Relay.WorkerId)
    | RouteLate(event: EventId)
    | MailMoves(h: Mail.HandlerId, mail: Mail.Action)

  /** A line of a reservation request: the quantity is cut down to 32 bits. */
  function ReservationLine(item: OrderItem): RawLine { RawLine(item.productSku, ToInt32(item.quantity)) }

  function ReservationFor(order: OrderData): Reservation
  {
    Reservation(order.id, Mapped(ReservationLine, order.items))
  }

  function VerdictOf(stock: Stock.State, call: CallId): Option<Stock.Verdict>
  {
    if call in stock.calls && stock.calls[call].pc.Done? then Some(stock.calls[call].pc.verdict) else None
  }

  /** The event as a worker reads it back from its stored payload. */
  function ReadBack(event: Event): Option<Event> { EventFrom(event.id, event.orderId, PayloadOf(event)) }

  predicate Decodes(env: Env, event: Event)
  {
    ReadBack(event).Some? && Decode(event.id, WireOf(ReadBack(event).value), env.formats.parse).Decoded?
  }

  function MessageOf(env: Env, event: Event): Mail.Message
  {
    Mail.Message(event.id, event.orderId, Decodes(env, event))
  }

  ghost predicate OrderStep(env: Env, s: State, r: Orders.RequestId, a: Orders.Action, s': State)
  {
    Orders.Next(env.formats, s.orders, r, a, s'.orders)
  }

  ghost predicate CallStep(env: Env, s: State, r: Orders.RequestId, call: CallId, s': State)
  {
    && r in s.orders.requests && s.orders.requests[r].pc.Reserving? && call !in s.sent
    && OrderStep(env, s, r, Orders.Reserve(call), s')
    && s' == s.(orders := s'.orders, sent := s.sent[call := ReservationFor(s.orders.requests[r].pc.order)])
  }

  ghost predicate ArriveStep(env: Env, s: State, call: CallId, s': State)
  {
    call in s.sent &&
    var order, lines := Trim(s.sent[call].order), Cleaned(s.sent[call].lines);
    && Acceptable(order, lines, env.isUuid)
    && Stock.Next(s.stock, call, Stock.Start(order, Canonicals(lines)), s'.stock)
    && s' == s.(stock := s'.stock)
  }

  ghost predicate HearStep(env: Env, s: State, r: Orders.RequestId, answer: Orders.Answer, s': State)
  {
    && r in s.orders.requests && s.orders.requests[r].pc.Waiting?
    && MayHear(VerdictOf(s.stock, s.orders.requests[r].pc.call), answer)
    && OrderStep(env, s, r, Orders.Hear(answer), s') && s' == s.(orders := s'.orders)
  }

  /** The compare-and-set and the outbox row are one transaction. */
  ghost predicate AcceptStep(env: Env, s: State, r: Orders.RequestId, event: EventId, now: Time, replyLost: bool, s': State)
  {
    && r in s.orders.requests && s.orders.requests[r].pc.Accepting?
    && OrderStep(env, s, r, Orders.Accept(event, now, replyLost), s')
    && if event in s'.orders.events then
         && Relay.Next(env.relay, s.outbox, 0, Relay.Record(event, s.orders.requests[r].pc.order.id), s'.outbox)
         && s' == s.(orders := s'.orders, outbox := s'.outbox)
       else s' == s.(orders := s'.orders)
  }

  /** The message reaches the queue, whatever the worker will learn about it. */
  ghost predicate RouteStep(env: Env, s: State, w: Relay.WorkerId, s': State)
  {
    var worker := Relay.WorkerAt(s.outbox, w);
    && worker.Publishing? && worker.entry.event in s.orders.events
    && Relay.Next(env.relay, s.outbox, w, Relay.Route, s'.outbox)
    && Mail.Next(env.mail, s.mail, 0, Mail.Publish(MessageOf(env, s.orders.events[worker.entry.event])), s'.mail)
    && s' == s.(outbox := s'.outbox, mail := s'.mail)
  }

  ghost predicate RelayStep(env: Env, s: State, w: Relay.WorkerId, a: Relay.Action, s': State)
  {
    && !a.Record? && !a.Route?
    && (a.Claim? && a.event in s.orders.events ==> a.readable == ReadBack(s.orders.events[a.event]).Some?)
    && Relay.Next(env.relay, s.outbox, w, a, s'.outbox) && s' == s.(outbox := s'.outbox)
  }

  ghost predicate Next(env: Env, s: State, a: Action, s': State)
  {
    match a
    case OrderMoves(r, order) =>
      && !order.Reserve? && !order.Hear? && !order.Accept?
      && OrderStep(env, s, r, order, s') && s' == s.(orders := s'.orders)
    case Call(r, call) => CallStep(env, s, r, call, s')
    case Arrive(call) => ArriveStep(env, s, call, s')
    case StockMoves(call, stock) =>
      !stock.Start? && Stock.Next(s.stock, call, stock, s'.stock) && s' == s.(stock := s'.stock)
    case Hear(r, answer) => HearStep(env, s, r, answer, s')
    case Accept(r, event, now, replyLost) => AcceptStep(env, s, r, event, now, replyLost, s')
    case RelayMoves(w, relay) => RelayStep(env, s, w, relay, s')
    case Route(w) => RouteStep(env, s, w, s')
    case RouteLate(event) =>
      && event in s.orders.events
      && Mail.Next(env.mail, s.mail, 0, Mail.Publish(MessageOf(env, s.orders.events[event])), s'.mail) && s' == s.(mail := s'.mail)
    case MailMoves(h, mail) => !mail.Publish? && Mail.Next(env.mail, s.mail, h, mail, s'.mail) && s' == s.(mail := s'.mail)
  }

  ghost predicate Init(s: State)
  {
    Orders.Init(s.orders) && s.sent == map[] && Stock.Init(s.stock) && Relay.Init(s.outbox) && Mail.Init(s.mail)
  }

  ghost predicate Step(env: Env, s: State, s': State)
  {
    exists a :: Next(env, s, a, s')
  }

  /** One step of a run, as a term of its own: proofs name the step they look at. */
  ghost predicate StepAt(env: Env, run: seq<State>, i: int)
  {
    0 < i < |run| && Step(env, run[i - 1], run[i])
  }

  ghost predicate IsRun(env: Env, run: seq<State>)
  {
    && CodecOk(env.formats.uuids) && run != [] && Init(run[0])
    && forall i {:trigger StepAt(env, run, i)} :: 0 < i < |run| ==> StepAt(env, run, i)
  }
}
