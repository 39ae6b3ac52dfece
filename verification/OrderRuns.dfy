/**
 * Any number of CreateOrder requests at once over one orders table. A request is a
 * program counter over the use case; it may stop at any point, and a reply may be lost
 * after its transaction committed. What inventory answers is left open here.
 */
module OrderRuns {
  import opened Collections
  import opened Skus
  import opened OrderDomain
  import opened OrderRows
  import opened Pipeline

  type RequestId = nat
  type CallId = nat
  type OrderId = string
  type EventId = string

  const RESERVATION_ATTEMPTS := 3

  /** How addresses and UUIDs are read and written. */
  datatype Formats = Formats(parse: AddressParser, uuids: UuidCodec)

  type Orders = map<OrderId, OrderData>

  /** What one call to inventory came to. Only the last two say that nothing was decided. */
  datatype Answer = Granted | Insufficient | Unavailable | Defect

  datatype Reply = Stored(order: OrderData, created: bool) | OutOfStock | Error

  datatype Pc =
    | Looking
    | Building
    | Creating(order: OrderData)
    | Reloading
    | Reserving(order: OrderData, attempt: nat)
    | Waiting(order: OrderData, attempt: nat, call: CallId)
    | Accepting(order: OrderData)
    | Rejecting(order: OrderData)
    | Resolving(id: OrderId)
    | Done(reply: Reply)

  datatype Request = Request(key: string, created: bool, pc: Pc)

  /**
   * `ids` are the order ids ever generated, `creators` says which request stored an order,
   * and `events` are the events ever recorded, whether or not the outbox still has them.
   */
  datatype State = State(
    orders: Orders, requests: map<RequestId, Request>,
    ids: set<OrderId>, creators: map<OrderId, RequestId>, events: map<EventId, Event>)

  datatype Action =
    | Start(key: string)
    | Find(found: Option<OrderId>)
    | Build(order: OrderData)
    | Create(replyLost: bool)
    | Reload(found: Option<OrderId>)
    | Reserve(call: CallId)
    | Hear(answer: Answer)
    | Accept(event: EventId, now: Time, replyLost: bool)
    | Reject(now: Time, replyLost: bool)
    | Resolve
    | Stop

  predicate KeyTaken(orders: Orders, key: string)
  {
    exists id :: id in orders && orders[id].key == key
  }

  /** What a lookup by key may answer. */
  predicate FoundByKey(orders: Orders, key: string, found: Option<OrderId>)
  {
    match found
    case None => !KeyTaken(orders, key)
    case Some(id) => id in orders && orders[id].key == key
  }

  function AfterLoad(order: OrderData, created: bool): Pc
  {
    match order.status
    case Accepted | Shipped | Cancelled => Done(Stored(order, created))
    case Rejected => Done(OutOfStock)
    case Pending => Reserving(order, 0)
  }

  /** Unlike the first load, a reload that still finds the order pending is an error. */
  function AfterConflict(order: OrderData, created: bool): Pc
  {
    if order.status == Pending then Done(Error) else AfterLoad(order, created)
  }

  /** Only a call that reached no verdict is repeated. */
  function AfterAnswer(order: OrderData, attempt: nat, answer: Answer): Pc
  {
    match answer
    case Granted => Accepting(order)
    case Insufficient => Rejecting(order)
    case Unavailable => if attempt + 1 < RESERVATION_ATTEMPTS then Reserving(order, attempt + 1) else Done(Error)
    case Defect => Done(Error)
  }

  function Decided(order: OrderData, status: Status, now: Time): OrderData
  {
    order.(status := status, updatedAt := now)
  }

  /** The conditional update writes the state of an order and nothing else of it. */
  function Updated(orders: Orders, order: OrderData): Orders
    requires order.id in orders
  {
    orders[order.id := Decided(orders[order.id], order.status, order.updatedAt)]
  }

  predicate StillPending(orders: Orders, id: OrderId)
  {
    id in orders && orders[id].status == Pending
  }

  predicate CanonicalId(id: string, uuids: UuidCodec)
  {
    uuids.parse(id).Some? && CanonicalText(id, uuids) == id
  }

  /** An order as it is loaded again: the customer's id in canonical spelling. Its own id is generated in it. */
  function Spelled(order: OrderData, uuids: UuidCodec): OrderData
  {
    if uuids.parse(order.customerId).Some? then order.(customerId := CanonicalText(order.customerId, uuids)) else order
  }

  predicate ClockOk(order: OrderData, now: Time) { now != ZERO_TIME && now >= order.updatedAt }

  function Moved(s: State, r: RequestId, pc: Pc): State
    requires r in s.requests
  {
    s.(requests := s.requests[r := s.requests[r].(pc := pc)])
  }

  ghost predicate BuildStep(formats: Formats, s: State, r: RequestId, order: OrderData, s': State)
    requires r in s.requests
  {
    && s.requests[r].pc.Building?
    && OrderValid(order, formats.parse) && IsTrimmed(order.id) && CanonicalId(order.id, formats.uuids)
    && order.status == Pending
    && order.key == s.requests[r].key && order.id !in s.ids
    && s' == Moved(s, r, Creating(order)).(ids := s.ids + {order.id})
  }

  ghost predicate CreateStep(formats: Formats, s: State, r: RequestId, replyLost: bool, s': State)
    requires r in s.requests
  {
    var request := s.requests[r];
    request.pc.Creating? &&
    var order := request.pc.order;
    if formats.uuids.parse(order.customerId).None? then s' == Moved(s, r, Done(Error))
    else if KeyTaken(s.orders, order.key) then s' == Moved(s, r, Reloading)
    else if order.id in s.orders || !FitsSchema(order) then s' == Moved(s, r, Done(Error))
    else s' == s.(
      orders := s.orders[order.id := Spelled(order, formats.uuids)], creators := s.creators[order.id := r],
      requests := s.requests[r :=
        Request(request.key, true, if replyLost then Done(Error) else AfterLoad(order, true))])
  }

  /** The acceptance and its event commit together or not at all. */
  ghost predicate AcceptStep(s: State, r: RequestId, event: EventId, now: Time, replyLost: bool, s': State)
    requires r in s.requests
  {
    var request := s.requests[r];
    request.pc.Accepting? &&
    var order := Decided(request.pc.order, Accepted, now);
    && ClockOk(request.pc.order, now) && event !in s.events && Trim(event) != ""
    && if StillPending(s.orders, order.id) then
         s' == Moved(s, r, Done(if replyLost then Error else Stored(order, request.created))).(
           orders := Updated(s.orders, order), events := s.events[event := EventOf(event, order)])
       else s' == Moved(s, r, Resolving(order.id))
  }

  ghost predicate RejectStep(s: State, r: RequestId, now: Time, replyLost: bool, s': State)
    requires r in s.requests
  {
    var request := s.requests[r];
    request.pc.Rejecting? &&
    var order := Decided(request.pc.order, Rejected, now);
    && ClockOk(request.pc.order, now)
    && if StillPending(s.orders, order.id) then
         s' == Moved(s, r, Done(if replyLost then Error else OutOfStock)).(orders := Updated(s.orders, order))
       else s' == Moved(s, r, Resolving(order.id))
  }

  ghost predicate RequestStep(formats: Formats, s: State, r: RequestId, a: Action, s': State)
  {
    r in s.requests &&
    var request, pc := s.requests[r], s.requests[r].pc;
    match a
    case Find(found) =>
      pc.Looking? && FoundByKey(s.orders, request.key, found) &&
      s' == Moved(s, r, if found.None? then Building else AfterLoad(s.orders[found.value], false))
    case Build(order) => BuildStep(formats, s, r, order, s')
    case Create(replyLost) => CreateStep(formats, s, r, replyLost, s')
    case Reload(found) =>
      pc.Reloading? && FoundByKey(s.orders, request.key, found) &&
      s' == Moved(s, r, if found.None? then Done(Error) else AfterLoad(s.orders[found.value], false))
    case Reserve(call) => pc.Reserving? && s' == Moved(s, r, Waiting(pc.order, pc.attempt, call))
    case Hear(answer) => pc.Waiting? && s' == Moved(s, r, AfterAnswer(pc.order, pc.attempt, answer))
    case Accept(event, now, replyLost) => AcceptStep(s, r, event, now, replyLost, s')
    case Reject(now, replyLost) => RejectStep(s, r, now, replyLost, s')
    case Resolve =>
      pc.Resolving? && pc.id in s.orders && s' == Moved(s, r, AfterConflict(s.orders[pc.id], request.created))
    case Stop => !pc.Done? && s' == Moved(s, r, Done(Error))
    case Start(_) => false
  }

  ghost predicate Next(formats: Formats, s: State, r: RequestId, a: Action, s': State)
  {
    match a
    case Start(key) => r !in s.requests && s' == s.(requests := s.requests[r := Request(key, false, Looking)])
    case _ => RequestStep(formats, s, r, a, s')
  }

  ghost predicate Init(s: State)
  {
    s == State(map[], map[], {}, map[], map[])
  }

  ghost predicate Step(formats: Formats, s: State, s': State)
  {
    exists r, a :: Next(formats, s, r, a, s')
  }

  /** One step of a run, as a term of its own: proofs name the step they look at. */
  ghost predicate StepAt(formats: Formats, run: seq<State>, i: int)
  {
    0 < i < |run| && Step(formats, run[i - 1], run[i])
  }

  ghost predicate IsRun(formats: Formats, run: seq<State>)
  {
    && CodecOk(formats.uuids) && run != [] && Init(run[0])
    && forall i {:trigger StepAt(formats, run, i)} :: 0 < i < |run| ==> StepAt(formats, run, i)
  }
}
