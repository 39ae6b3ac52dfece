/**
 * What a ReserveStock verdict becomes on its way back: a status code at inventory's edge,
 * and one of four answers at the order service's.
 */
module InventoryAnswers {
  import opened Collections
  import opened ReservationRuns
  import OrderRuns

  datatype Code = OK | InvalidArgument | NotFound | AlreadyExists | FailedPrecondition
    | Canceled | DeadlineExceeded | Unavailable | Internal

  /** Inventory's edge. A request that is not canonicalized never gets a verdict. */
  function CodeFor(verdict: Option<Verdict>): Code
  {
    match verdict
    case None => InvalidArgument
    case Some(Reserved) | Some(AlreadyHeld) => OK
    case Some(Mismatch) => AlreadyExists
    case Some(Refused(UnknownProduct)) => NotFound
    case Some(Refused(ShortOfStock)) => FailedPrecondition
    case Some(GaveUp) | Some(Failed) => Internal
  }

  /** The order service's edge: only a call that reached no verdict may be repeated. */
  function AnswerFor(code: Code): OrderRuns.Answer
  {
    match code
    case OK => OrderRuns.Granted
    case FailedPrecondition => OrderRuns.Insufficient
    case Canceled | InvalidArgument | NotFound | AlreadyExists | Internal => OrderRuns.Defect
    case Unavailable | DeadlineExceeded => OrderRuns.Unavailable
  }

  /** The network may replace any status by one that says the call did not get through. */
  predicate MayHear(verdict: Option<Verdict>, answer: OrderRuns.Answer)
  {
    answer == OrderRuns.Unavailable || answer == OrderRuns.Defect
    || (verdict.Some? && answer == AnswerFor(CodeFor(verdict)))
  }

  /** The two answers that change an order each stand for one thing inventory said. */
  lemma DecidingAnswers(verdict: Option<Verdict>, answer: OrderRuns.Answer)
    requires MayHear(verdict, answer)
    ensures answer == OrderRuns.Granted ==> verdict == Some(Reserved) || verdict == Some(AlreadyHeld)
    ensures answer == OrderRuns.Insufficient ==> verdict == Some(Refused(ShortOfStock))
  {
  }
}
