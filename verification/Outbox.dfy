/**
 * The outbox table, one function per statement, and the store that runs them. Times are
 * the database's own, in nanoseconds; intervals are written in whole milliseconds.
 */
module Outbox {
  import opened Collections
  import opened Intervals

  type EventId = string
  type OrderId = string
  type Token = nat

  const MAX_PUBLISH_ATTEMPTS := 10
  datatype Status = Pending | Published | NeedsAttention

  datatype Row = Row(
    order: OrderId, status: Status, attempts: int, nextAttemptAt: int, token: Option<Token>, publishedAt: int)

  type Rows = map<EventId, Row>

  /** A claimed row, as the worker that claimed it remembers it. */
  datatype Entry = Entry(event: EventId, attempts: int, token: Token)

  function Recorded(order: OrderId, now: int): Row { Row(order, Pending, 0, now, None, 0) }

  predicate Due(row: Row, now: int) { row.status == Pending && row.nextAttemptAt <= now }

  function ClaimedRow(row: Row, now: int, lease: nat, token: Token): Row
  {
    row.(nextAttemptAt := now + Interval(lease), token := Some(token))
  }

  function PublishedRow(row: Row, now: int): Row { row.(status := Published, publishedAt := now) }

  /** The fence: the row is still pending under the claim the worker holds. */
  predicate Current(rows: Rows, entry: Entry)
  {
    entry.event in rows && rows[entry.event].token == Some(entry.token) && rows[entry.event].status == Pending
  }

  /** What a worker writes once an attempt is over. */
  datatype Write =
    | MarkPublished
    | Release(delay: nat)
    | ScheduleRetry(delay: nat)
    | SetAside(countAttempt: bool)

  /** Recording success is not fenced; every other write is. */
  function Written(rows: Rows, entry: Entry, write: Write, now: int): Rows
  {
    if write == MarkPublished then
      if entry.event in rows && rows[entry.event].status != Published
      then rows[entry.event := PublishedRow(rows[entry.event], now)]
      else rows
    else if !Current(rows, entry) then rows
    else
      var row := rows[entry.event];
      rows[entry.event := match write
        case Release(delay) => row.(nextAttemptAt := now + Interval(delay))
        case ScheduleRetry(delay) => row.(attempts := row.attempts + 1, nextAttemptAt := now + Interval(delay))
        case SetAside(count) => row.(status := NeedsAttention, attempts := row.attempts + if count then 1 else 0)]
  }

  /**
   * What a write does to its row, column by column. A row that is to be tried again stays
   * pending, and is not due before the delay, in whole milliseconds, is over; a row that is
   * set aside or published is not due at any time.
   */
  ghost predicate RowWritten(before: Row, after: Row, write: Write, now: int)
  {
    && after.order == before.order && after.token == before.token
    && match write
       case MarkPublished =>
         after.status == Published && after.publishedAt == now && after.attempts == before.attempts
         && forall time :: !Due(after, time)
       case Release(delay) =>
         after.status == Pending && after.attempts == before.attempts
         && forall time :: Due(after, time) <==> time >= now + Interval(delay)
       case ScheduleRetry(delay) =>
         after.status == Pending && after.attempts == before.attempts + 1
         && forall time :: Due(after, time) <==> time >= now + Interval(delay)
       case SetAside(count) =>
         after.status == NeedsAttention && after.attempts == before.attempts + (if count then 1 else 0)
         && forall time :: !Due(after, time)
  }

  /** A write changes its own row, if it may, and no other. */
  lemma WrittenMeans(rows: Rows, entry: Entry, write: Write, now: int)
    ensures var after := Written(rows, entry, write, now);
            && (forall id :: id != entry.event ==> (id in after <==> id in rows) && (id in rows ==> after[id] == rows[id]))
            && (if Current(rows, entry) || (write == MarkPublished && entry.event in rows && rows[entry.event].status != Published)
                then entry.event in after && RowWritten(rows[entry.event], after[entry.event], write, now)
                else after == rows)
  {
  }

  /** A redriven row starts afresh: its whole budget again, and due at once. Nothing else changes. */
  lemma RedrivenMeans(rows: Rows, chosen: set<EventId>, now: int, id: EventId)
    ensures id in Redriven(rows, chosen, now) <==> id in rows
    ensures id in rows && id in chosen && rows[id].status == NeedsAttention ==>
              var row := Redriven(rows, chosen, now)[id];
              row.attempts == 0 && Due(row, now) && row.token == rows[id].token && row.order == rows[id].order
    ensures id in rows && !(id in chosen && rows[id].status == NeedsAttention) ==>
              Redriven(rows, chosen, now)[id] == rows[id]
  {
  }

  /** A recorded event is due at once, with its whole budget; a claimed one is not before its lease is over. */
  lemma ClaimedMeans(order: OrderId, row: Row, now: int, lease: nat, token: Token)
    ensures Due(Recorded(order, now), now) && Recorded(order, now).attempts == 0 && Recorded(order, now).order == order
    ensures var claimed := ClaimedRow(row, now, lease, token);
            && claimed.token == Some(token) && claimed.attempts == row.attempts && claimed.status == row.status
            && forall time :: time < now + Interval(lease) ==> !Due(claimed, time)
  {
  }

  /** How a publication ended. */
  datatype Outcome = Routed | Unreachable | Unpublishable | NotRouted | OutcomeUnknown

  /**
   * The retry policy: an outage costs no budget, a permanent failure is set aside at once,
   * and any other failure uses one attempt until the budget is spent.
   */
  function WriteFor(entry: Entry, outcome: Outcome, delay: nat): Write
  {
    match outcome
    case Routed => MarkPublished
    case Unreachable => Release(delay)
    case Unpublishable => SetAside(false)
    case NotRouted | OutcomeUnknown =>
      if entry.attempts + 1 >= MAX_PUBLISH_ATTEMPTS then SetAside(true) else ScheduleRetry(delay)
  }

  /**
   * The policy, outcome by outcome: only failures of the publication itself use budget, the
   * tenth of them sets the event aside, and a permanent failure does so at once.
   */
  lemma PolicyMeans(entry: Entry, outcome: Outcome, delay: nat)
    ensures outcome == Routed <==> WriteFor(entry, outcome, delay) == MarkPublished
    ensures outcome == Unreachable ==> WriteFor(entry, outcome, delay) == Release(delay)
    ensures outcome == Unpublishable <==> WriteFor(entry, outcome, delay) == SetAside(false)
    ensures outcome == NotRouted || outcome == OutcomeUnknown ==>
              WriteFor(entry, outcome, delay) == if entry.attempts < 9 then ScheduleRetry(delay) else SetAside(true)
  {
  }

  /** The operator's redrive: a fresh budget, due at once, and the old claim token left in place. */
  function Redriven(rows: Rows, chosen: set<EventId>, now: int): Rows
  {
    map id | id in rows :: if id in chosen && rows[id].status == NeedsAttention
      then rows[id].(status := Pending, attempts := 0, nextAttemptAt := now) else rows[id]
  }

  predicate Expired(row: Row, now: int, retention: nat)
  {
    row.status == Published && row.publishedAt < now - Interval(retention)
  }

  /** A row expires when it has been published for the retention, and no more than a millisecond sooner. */
  lemma ExpiredMeans(row: Row, now: int, retention: nat)
    ensures row.status == Published && row.publishedAt + retention < now ==> Expired(row, now, retention)
    ensures Expired(row, now, retention) ==> row.status == Published && row.publishedAt + retention - MILLISECOND < now
  {
    IntervalLosesLessThanOne(retention);
  }

  class EventOutbox {
    var rows: Rows

    constructor ()
      ensures rows == map[]
    {
      rows := map[];
    }

    /** Claims a due row, longest due first; the token must be one never given out before. */
    method ClaimNext(now: int, lease: nat, token: Token) returns (claimed: Option<Entry>)
      modifies this
      ensures claimed.None? ==> rows == old(rows) && forall id :: id in rows ==> !Due(rows[id], now)
      ensures claimed.Some? ==>
                var id := claimed.value.event;
                && id in old(rows) && Due(old(rows)[id], now)
                && (forall other :: other in old(rows) && Due(old(rows)[other], now) ==>
                      old(rows)[id].nextAttemptAt <= old(rows)[other].nextAttemptAt)
                && claimed.value == Entry(id, old(rows)[id].attempts, token)
                && rows == old(rows)[id := ClaimedRow(old(rows)[id], now, lease, token)]
    {
      var first: Option<EventId> := None;
      var left := rows.Keys;
      while left != {}
        invariant left <= rows.Keys
        invariant first.None? ==> forall id :: id in rows && id !in left ==> !Due(rows[id], now)
        invariant first.Some? ==> first.value in rows && Due(rows[first.value], now)
        invariant first.Some? ==> forall id :: id in rows && id !in left && Due(rows[id], now) ==>
                                    rows[first.value].nextAttemptAt <= rows[id].nextAttemptAt
        decreases |left|
      {
        var id :| id in left;
        left := left - {id};
        if Due(rows[id], now) && (first.None? || rows[id].nextAttemptAt < rows[first.value].nextAttemptAt) {
          first := Some(id);
        }
      }
      if first.None? {
        return None;
      }
      var id := first.value;
      claimed := Some(Entry(id, rows[id].attempts, token));
      rows := rows[id := ClaimedRow(rows[id], now, lease, token)];
    }

    method MarkPublished(event: EventId, now: int)
      modifies this
      ensures forall entry: Entry :: entry.event == event ==> rows == Written(old(rows), entry, Write.MarkPublished, now)
      ensures event !in old(rows) || old(rows)[event].status == Published ==> rows == old(rows)
      ensures event in old(rows) && old(rows)[event].status != Published ==>
                && event in rows && rows == old(rows)[event := rows[event]]
                && RowWritten(old(rows)[event], rows[event], Write.MarkPublished, now)
    {
      if event in rows && rows[event].status != Published {
        rows := rows[event := PublishedRow(rows[event], now)];
      }
    }

    /** A write only the current claim may make; false means another worker has taken the row over. */
    method ExecFenced(entry: Entry, write: Write, now: int) returns (done: bool)
      requires write != Write.MarkPublished
      modifies this
      ensures rows == Written(old(rows), entry, write, now)
      ensures done == Current(old(rows), entry)
      ensures !done ==> rows == old(rows)
      ensures done ==>
                && entry.event in rows && rows == old(rows)[entry.event := rows[entry.event]]
                && RowWritten(old(rows)[entry.event], rows[entry.event], write, now)
    {
      done := Current(rows, entry);
      if done {
        var row := rows[entry.event];
        match write {
          case Release(delay) =>
            row := row.(nextAttemptAt := now + Interval(delay));
          case ScheduleRetry(delay) =>
            row := row.(attempts := row.attempts + 1, nextAttemptAt := now + Interval(delay));
          case SetAside(countAttempt) =>
            row := row.(status := NeedsAttention, attempts := row.attempts + if countAttempt then 1 else 0);
        }
        rows := rows[entry.event := row];
      }
    }

    /** Deletes at most `limit` expired rows, and fewer only when no more have expired. */
    method DeletePublished(now: int, retention: nat, limit: nat) returns (deleted: nat)
      modifies this
      ensures rows.Keys <= old(rows).Keys && forall id :: id in rows ==> rows[id] == old(rows)[id]
      ensures forall id :: id in old(rows) && id !in rows ==> Expired(old(rows)[id], now, retention)
      ensures deleted == |old(rows)| - |rows| && deleted <= limit
      ensures deleted < limit ==> forall id :: id in rows ==> !Expired(rows[id], now, retention)
    {
      deleted := 0;
      var expired := set id | id in rows && Expired(rows[id], now, retention);
      while expired != {} && deleted < limit
        invariant expired == set id | id in rows && Expired(rows[id], now, retention)
        invariant rows.Keys <= old(rows).Keys && forall id :: id in rows ==> rows[id] == old(rows)[id]
        invariant forall id :: id in old(rows) && id !in rows ==> Expired(old(rows)[id], now, retention)
        invariant deleted == |old(rows)| - |rows| && deleted <= limit
        decreases limit - deleted
      {
        var id :| id in expired;
        RemoveOne(rows, id);
        rows := rows - {id};
        expired := expired - {id};
        deleted := deleted + 1;
      }
    }

    method Redrive(chosen: set<EventId>, now: int)
      modifies this
      ensures rows == Redriven(old(rows), chosen, now)
    {
      rows := Redriven(rows, chosen, now);
    }
  }

  lemma RemoveOne(rows: Rows, id: EventId)
    requires id in rows
    ensures |rows - {id}| == |rows| - 1
  {
    assert (rows - {id}).Keys == rows.Keys - {id};
    assert |rows.Keys| == |rows| && |(rows - {id}).Keys| == |rows - {id}|;
  }
}
