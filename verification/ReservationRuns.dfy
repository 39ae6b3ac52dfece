/**
 * Any number of ReserveStock calls running at once, statement by statement.
 *
 * A call is a program counter over the use case's read-then-claim loop and the claim
 * transaction inside it. Transactions run under READ COMMITTED: what a transaction has
 * written stays invisible until it commits, an insert waits for another transaction that
 * is inserting the same key, and an update first tests the committed row and then waits
 * for the transaction that has it locked. Any call may be cut short at any point.
 */
module ReservationRuns {
  import opened Collections
  import opened Skus
  import opened Baskets
  import opened StockTables

  type CallId = nat

  datatype Stage = Inserting | Taking

  datatype Refusal = UnknownProduct | ShortOfStock

  datatype Verdict =
    | Reserved
    | AlreadyHeld
    | Mismatch
    | Refused(cause: Refusal)
    | GaveUp
    | Failed

  datatype Pc =
    | Finding(pass: nat)
    | Claiming(pass: nat, pos: nat, stage: Stage)
    | Describing(cause: Refusal)
    | Done(verdict: Verdict)

  /** `committed` records that this call's transaction committed, even if its reply was lost. */
  datatype Call = Call(order: OrderId, lines: seq<Line>, pc: Pc, committed: bool)

  datatype State = State(stock: Stock, reservations: Reservations, calls: map<CallId, Call>)

  datatype Action =
    | Start(order: OrderId, lines: seq<Line>)
    | Find
    | Insert
    | Take
    | Commit(replyLost: bool)
    | Describe(queryFails: bool)
    | Abort
    | SetOnHand(sku: Sku, onHand: int)

  // ----- locks

  /** The call has inserted the row (its order, sku) and not finished its transaction. */
  ghost predicate HoldsKey(call: Call, sku: Sku)
  {
    call.pc.Claiming? &&
    exists j :: 0 <= j < |call.lines| && call.lines[j].sku == sku &&
      (j < call.pc.pos || (j == call.pc.pos && call.pc.stage == Taking))
  }

  /** The call has updated the stock row and not finished its transaction. */
  ghost predicate HoldsRow(call: Call, sku: Sku)
  {
    call.pc.Claiming? && exists j :: 0 <= j < |call.lines| && j < call.pc.pos && call.lines[j].sku == sku
  }

  ghost predicate KeyLocked(s: State, id: CallId, order: OrderId, sku: Sku)
  {
    exists other :: other in s.calls && other != id && s.calls[other].order == order && HoldsKey(s.calls[other], sku)
  }

  ghost predicate RowLocked(s: State, id: CallId, sku: Sku)
  {
    exists other :: other in s.calls && other != id && HoldsRow(s.calls[other], sku)
  }

  // ----- steps

  ghost predicate AtLine(call: Call, stage: Stage)
  {
    call.pc.Claiming? && call.pc.pos < |call.lines| && call.pc.stage == stage
  }

  function Moved(s: State, id: CallId, pc: Pc): State
    requires id in s.calls
  {
    s.(calls := s.calls[id := s.calls[id].(pc := pc)])
  }

  /** The verdict of the first pass over Find, or the transaction it opens. */
  function AfterFind(held: map<Sku, int>, call: Call): Pc
    requires call.pc.Finding?
  {
    if held == map[] then Claiming(call.pc.pass, 0, Inserting)
    else if held == Basket(call.lines) then Done(AlreadyHeld)
    else Done(Mismatch)
  }

  /** A lost race ends the pass; the loop goes round again or gives up. */
  function AfterConflict(pass: nat): Pc
  {
    if pass + 1 < CLAIM_ATTEMPTS then Finding(pass + 1) else Done(GaveUp)
  }

  ghost predicate InsertStep(s: State, id: CallId, s': State)
    requires id in s.calls
  {
    var call := s.calls[id];
    AtLine(call, Inserting) &&
    var line := call.lines[call.pc.pos];
    if line.sku !in s.stock then s' == Moved(s, id, Describing(UnknownProduct))
    else if KeyLocked(s, id, call.order, line.sku) then false
    else if line.sku in HeldBy(s.reservations, call.order) then s' == Moved(s, id, AfterConflict(call.pc.pass))
    else s' == Moved(s, id, call.pc.(stage := Taking))
  }

  ghost predicate TakeStep(s: State, id: CallId, s': State)
    requires id in s.calls
  {
    var call := s.calls[id];
    AtLine(call, Taking) &&
    var line := call.lines[call.pc.pos];
    if !CanTake(s.stock, line) then s' == Moved(s, id, Describing(ShortOfStock))
    else if RowLocked(s, id, line.sku) then false
    else s' == Moved(s, id, Claiming(call.pc.pass, call.pc.pos + 1, Inserting))
  }

  ghost predicate CommitStep(s: State, id: CallId, replyLost: bool, s': State)
    requires id in s.calls
  {
    var call := s.calls[id];
    call.pc.Claiming? && call.pc.pos == |call.lines| &&
    s' == State(
      Charged(s.stock, Basket(call.lines)),
      Held(s.reservations, call.order, Basket(call.lines)),
      s.calls[id := call.(pc := Done(if replyLost then Failed else Reserved), committed := true)])
  }

  /** The report a refusal turns into; it reads the tables after the rollback. */
  ghost function Described(stock: Stock, call: Call, queryFails: bool): Verdict
    requires call.pc.Describing?
  {
    if queryFails then Refused(call.pc.cause)
    else if exists i :: 0 <= i < |call.lines| && call.lines[i].sku !in stock then Refused(UnknownProduct)
    else if exists i :: 0 <= i < |call.lines| && !CanTake(stock, call.lines[i]) then Refused(ShortOfStock)
    else Refused(call.pc.cause)
  }

  ghost predicate CallStep(s: State, id: CallId, a: Action, s': State)
  {
    id in s.calls &&
    var call := s.calls[id];
    match a
    case Find => call.pc.Finding? && s' == Moved(s, id, AfterFind(HeldBy(s.reservations, call.order), call))
    case Insert => InsertStep(s, id, s')
    case Take => TakeStep(s, id, s')
    case Commit(replyLost) => CommitStep(s, id, replyLost, s')
    case Describe(queryFails) => call.pc.Describing? && s' == Moved(s, id, Done(Described(s.stock, call, queryFails)))
    case Abort => !call.pc.Done? && s' == Moved(s, id, Done(Failed))
    case _ => false
  }

  ghost predicate StartStep(s: State, id: CallId, order: OrderId, lines: seq<Line>, s': State)
  {
    id !in s.calls && IsCanonical(lines) && s' == s.(calls := s.calls[id := Call(order, lines, Finding(0), false)])
  }

  /**
   * The warehouse changes what is on hand, or a product is added. The row lock makes it
   * wait for claims on the product, and the table's checks keep it above what is promised.
   */
  ghost predicate SetOnHandStep(s: State, sku: Sku, onHand: int, s': State)
  {
    && (forall id :: id in s.calls ==> !HoldsRow(s.calls[id], sku))
    && var row := if sku in s.stock then s.stock[sku] else StockRow(0, 0);
    && onHand >= row.reserved
    && s' == s.(stock := s.stock[sku := row.(onHand := onHand)])
  }

  ghost predicate Next(s: State, id: CallId, a: Action, s': State)
  {
    match a
    case Start(order, lines) => StartStep(s, id, order, lines, s')
    case SetOnHand(sku, onHand) => SetOnHandStep(s, sku, onHand, s')
    case _ => CallStep(s, id, a, s')
  }

  ghost predicate Init(s: State)
  {
    && s.reservations == map[] && s.calls == map[]
    && forall sku :: sku in s.stock ==> s.stock[sku].reserved == 0 <= s.stock[sku].onHand
  }
}
