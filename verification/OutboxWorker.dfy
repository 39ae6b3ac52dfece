/**
 * The background worker: one claimed event at a time, a capped and jittered backoff, and
 * a cleanup that deletes one batch per idle poll.
 */
module OutboxWorker {
  import opened Collections
  import opened Intervals
  import opened Outbox

  const SECOND := 1_000_000_000
  const INITIAL_DELAY := 5 * SECOND
  const MAX_DELAY := 300 * SECOND
  const RETENTION := 30 * 24 * 3600 * SECOND
  const CLEANUP_INTERVAL := 3600 * SECOND
  const CLEANUP_BATCH := 1000

  function Pow2(n: nat): nat { if n == 0 then 1 else 2 * Pow2(n - 1) }

  function Min(a: nat, b: nat): nat { if a < b then a else b }

  /** Doubling from the initial delay, capped: the closed form of the loop below. */
  function Backoff(attempt: int): nat
  {
    Min(INITIAL_DELAY * Pow2(if attempt < 1 then 0 else attempt - 1), MAX_DELAY)
  }

  /** A random point in the upper half of the backoff. */
  function Jittered(attempt: int, random: int -> int): int
  {
    Backoff(attempt) / 2 + random(Backoff(attempt) / 2 + 1)
  }

  ghost predicate IsRandom(random: int -> int)
  {
    forall n :: n > 0 ==> 0 <= random(n) < n
  }

  lemma {:induction false} Pow2Monotone(a: nat, b: nat)
    requires a <= b
    ensures Pow2(a) <= Pow2(b)
  {
    if a < b { Pow2Monotone(a, b - 1); }
  }

  /** 5s, 10s, 20s, 40s, 80s, 160s, and five minutes from the seventh attempt on. */
  lemma BackoffIsCapped(attempt: int)
    ensures attempt <= 1 ==> Backoff(attempt) == INITIAL_DELAY
    ensures 1 <= attempt <= 6 ==> Backoff(attempt) == INITIAL_DELAY * Pow2(attempt - 1)
    ensures attempt >= 7 <==> Backoff(attempt) == MAX_DELAY
  {
    assert Pow2(1) == 2 && Pow2(2) == 4 && Pow2(3) == 8 && Pow2(4) == 16 && Pow2(5) == 32 && Pow2(6) == 64;
    if attempt >= 7 { Pow2Monotone(6, attempt - 1); }
    else if attempt >= 1 { Pow2Monotone(attempt - 1, 5); }
  }

  lemma JitterBounds(attempt: int, random: int -> int)
    requires IsRandom(random)
    ensures Backoff(attempt) / 2 <= Jittered(attempt, random) <= Backoff(attempt)
    ensures INITIAL_DELAY / 2 <= Jittered(attempt, random) <= MAX_DELAY
  {
    Pow2Monotone(0, if attempt < 1 then 0 else attempt - 1);
  }

  method RetryDelay(attempt: int, random: int -> int) returns (wait: int)
    requires IsRandom(random)
    ensures wait == Jittered(attempt, random) && 0 < wait <= MAX_DELAY
  {
    var delay := INITIAL_DELAY;
    var step := 1;
    while step < attempt && delay < MAX_DELAY
      invariant 1 <= step && (step > 1 ==> step <= attempt)
      invariant delay == INITIAL_DELAY * Pow2(step - 1)
      decreases attempt - step
    {
      delay := delay * 2;
      step := step + 1;
    }
    if step < attempt { Pow2Monotone(step - 1, attempt - 1); }
    delay := Min(delay, MAX_DELAY);
    JitterBounds(attempt, random);
    var half := delay / 2;
    wait := half + random(half + 1);
  }

  /** What the outside world answers during one turn of the worker. */
  datatype Answers = Answers(
    claimFails: bool, claimedAt: int, token: Token, readable: bool, outcome: Outcome, writtenAt: int, writeLost: bool,
    clock: int, deleteFails: bool)

  /** When the cleanup last began, and whether it has more to do. */
  datatype Cleanup = Cleanup(last: int, unfinished: bool)

  predicate CleanupDue(cleanup: Cleanup, clock: int)
  {
    cleanup.unfinished || clock - cleanup.last >= CLEANUP_INTERVAL
  }

  /** One batch at most, of expired rows only; a round is over once a batch was not full. */
  ghost predicate Cleaned(
    before: Rows, after: Rows, prior: Cleanup, next: Cleanup, clock: int, now: int, fails: bool)
  {
    && after.Keys <= before.Keys && (forall id :: id in after ==> after[id] == before[id])
    && (forall id :: id in before && id !in after ==> Expired(before[id], now, RETENTION))
    && next.last == (if CleanupDue(prior, clock) && !prior.unfinished then clock else prior.last)
    && (!CleanupDue(prior, clock) || fails ==> after == before && !next.unfinished)
    && (next.unfinished ==> |after| == |before| - CLEANUP_BATCH)
    && (CleanupDue(prior, clock) && !fails && !next.unfinished ==> forall id :: id in after ==> !Expired(after[id], now, RETENTION))
  }

  /** Success may be recorded whoever holds the row, as long as it is not recorded yet. */
  predicate MayPublish(rows: Rows, entry: Entry)
  {
    entry.event in rows && rows[entry.event].status != Published
  }

  /** The row waits for at least half the backoff, and at most all of it, cut down to whole milliseconds. */
  predicate WaitsFor(row: Row, backoff: int, from: int)
  {
    from + backoff / 2 - MILLISECOND < row.nextAttemptAt <= from + backoff
  }

  /** No wait is shorter than half the initial delay, or longer than the cap. */
  lemma WaitsLongEnough(row: Row, attempt: int, from: int)
    requires WaitsFor(row, Backoff(attempt), from)
    ensures from + INITIAL_DELAY / 2 - MILLISECOND < row.nextAttemptAt <= from + MAX_DELAY
  {
    Pow2Monotone(0, if attempt < 1 then 0 else attempt - 1);
  }

  class PublishOrderEvents {
    const outbox: EventOutbox
    const lease: nat
    const pollInterval: nat
    const random: int -> int

    var outages: nat
    var lastCleanup: int
    var cleanupUnfinished: bool

    constructor (outbox: EventOutbox, lease: nat, pollInterval: nat, random: int -> int, never: int)
      ensures this.outbox == outbox && this.lease == lease && this.pollInterval == pollInterval && this.random == random
      ensures outages == 0 && lastCleanup == never && !cleanupUnfinished
    {
      this.outbox, this.lease, this.pollInterval, this.random := outbox, lease, pollInterval, random;
      outages, lastCleanup, cleanupUnfinished := 0, never, false;
    }

    /** The wait that a settled attempt writes into its row, when it writes one. */
    ghost function DelayAfter(entry: Entry, outcome: Outcome, outages: nat): int
    {
      Jittered(if outcome == Unreachable then outages + 1 else entry.attempts + 1, random)
    }

    /** The row as an attempt leaves it, with the wait that its outcome asks for. */
    ghost predicate Settled(before: Row, after: Row, entry: Entry, outcome: Outcome, outages: nat, writtenAt: int)
    {
      && after.order == before.order && after.token == before.token
      && match outcome
         case Routed => after.status == Published && after.publishedAt == writtenAt && after.attempts == before.attempts
         case Unpublishable => after.status == NeedsAttention && after.attempts == before.attempts
         case Unreachable =>
           && after.status == Pending && after.attempts == before.attempts
           && WaitsFor(after, Backoff(outages + 1), writtenAt)
         case _ =>
           && after.attempts == before.attempts + 1
           && if entry.attempts + 1 < MAX_PUBLISH_ATTEMPTS
              then after.status == Pending && WaitsFor(after, Backoff(entry.attempts + 1), writtenAt)
              else after.status == NeedsAttention
    }

    lemma SettledByWrite(rows: Rows, entry: Entry, outcome: Outcome, writtenAt: int)
      requires IsRandom(random)
      ensures forall outages: nat ::
                && DelayAfter(entry, outcome, outages) > 0
                && var write := WriteFor(entry, outcome, DelayAfter(entry, outcome, outages));
                (Current(rows, entry) || (outcome == Routed && MayPublish(rows, entry))) ==>
                  && entry.event in Written(rows, entry, write, writtenAt)
                  && Settled(rows[entry.event], Written(rows, entry, write, writtenAt)[entry.event], entry, outcome, outages,
                             writtenAt)
    {
      forall outages: nat
        ensures DelayAfter(entry, outcome, outages) > 0
      {
        JitterBounds(if outcome == Unreachable then outages + 1 else entry.attempts + 1, random);
      }
    }

    /** Records how the attempt ended. A lost write changes nothing and is not repeated. */
    method Settle(entry: Entry, outcome: Outcome, writtenAt: int, writeLost: bool) returns (pause: int)
      requires IsRandom(random)
      modifies this`outages, outbox
      ensures outages == if outcome == Unreachable then old(outages) + 1 else 0
      ensures DelayAfter(entry, outcome, old(outages)) > 0
      ensures outbox.rows == if writeLost then old(outbox.rows) else
                Written(old(outbox.rows), entry,
                        WriteFor(entry, outcome, DelayAfter(entry, outcome, old(outages))), writtenAt)
      ensures pause == PauseAfter(entry, outcome, old(outages))
      ensures forall id :: id != entry.event ==>
                (id in outbox.rows <==> id in old(outbox.rows)) && (id in outbox.rows ==> outbox.rows[id] == old(outbox.rows)[id])
      ensures !writeLost && (Current(old(outbox.rows), entry) || (outcome == Routed && MayPublish(old(outbox.rows), entry))) ==>
                && entry.event in outbox.rows
                && Settled(old(outbox.rows)[entry.event], outbox.rows[entry.event], entry, outcome, old(outages), writtenAt)
      ensures writeLost || (outcome != Routed && !Current(old(outbox.rows), entry)) ==> outbox.rows == old(outbox.rows)
    {
      SettledByWrite(old(outbox.rows), entry, outcome, writtenAt);
      JitterBounds(if outcome == Unreachable then outages + 1 else entry.attempts + 1, random);
      if outcome == Unreachable {
        outages := outages + 1;
        pause := RetryDelay(outages, random);
        if !writeLost { var _ := outbox.ExecFenced(entry, Release(pause), writtenAt); }
        return;
      }
      outages := 0;
      if outcome == Routed {
        if !writeLost { outbox.MarkPublished(entry.event, writtenAt); }
        return 0;
      }
      if outcome == Unpublishable {
        if !writeLost { var _ := outbox.ExecFenced(entry, SetAside(false), writtenAt); }
        return 0;
      }
      var attempt := entry.attempts + 1;
      if attempt >= MAX_PUBLISH_ATTEMPTS {
        if !writeLost { var _ := outbox.ExecFenced(entry, SetAside(true), writtenAt); }
        return pollInterval;
      }
      var delay := RetryDelay(attempt, random);
      if !writeLost { var _ := outbox.ExecFenced(entry, ScheduleRetry(delay), writtenAt); }
      pause := pollInterval;
    }

    function CleanupState(): Cleanup
      reads this
    {
      Cleanup(lastCleanup, cleanupUnfinished)
    }

    /** How long the worker pauses after an attempt. */
    ghost function PauseAfter(entry: Entry, outcome: Outcome, outages: nat): int
    {
      match outcome
      case Unreachable => DelayAfter(entry, outcome, outages)
      case Routed => 0
      case Unpublishable => 0
      case _ => pollInterval
    }

    /**
     * One turn: claim the longest due event, publish it, record the outcome. A stored
     * event that cannot be read is set aside without being published, and a turn that
     * finds nothing to claim takes one step of the cleanup.
     */
    method PublishNext(answers: Answers) returns (pause: int, claimed: Option<Entry>)
      requires IsRandom(random)
      modifies this`outages, this`lastCleanup, this`cleanupUnfinished, outbox
      ensures answers.claimFails ==>
                && claimed == None && pause == pollInterval
                && outbox.rows == old(outbox.rows) && outages == old(outages) && CleanupState() == old(CleanupState())
      ensures !answers.claimFails && claimed.None? ==>
                && pause == pollInterval && outages == old(outages)
                && (forall id :: id in old(outbox.rows) ==> !Due(old(outbox.rows)[id], answers.claimedAt))
                && Cleaned(old(outbox.rows), outbox.rows, old(CleanupState()), CleanupState(), answers.clock,
                           answers.claimedAt, answers.deleteFails)
      ensures claimed.Some? ==>
                var entry := claimed.value;
                var outcome := if answers.readable then answers.outcome else Unpublishable;
                && entry.event in old(outbox.rows) && Due(old(outbox.rows)[entry.event], answers.claimedAt)
                && var row := ClaimedRow(old(outbox.rows)[entry.event], answers.claimedAt, lease, answers.token);
                && entry == Entry(entry.event, row.attempts, answers.token)
                && var rows := old(outbox.rows)[entry.event := row];
                && outages == (if !answers.readable then old(outages) else if outcome == Unreachable then old(outages) + 1 else 0)
                && DelayAfter(entry, outcome, old(outages)) > 0 && pause == PauseAfter(entry, outcome, old(outages))
                && CleanupState() == old(CleanupState())
                && outbox.rows == if answers.writeLost then rows else
                     Written(rows, entry, WriteFor(entry, outcome, DelayAfter(entry, outcome, old(outages))),
                             answers.writtenAt)
    {
      if answers.claimFails {
        return pollInterval, None;
      }
      claimed := outbox.ClaimNext(answers.claimedAt, lease, answers.token);
      if claimed.None? {
        DeleteOldPublishedEvents(answers.clock, answers.claimedAt, answers.deleteFails);
        return pollInterval, claimed;
      }
      if !answers.readable {
        JitterBounds(claimed.value.attempts + 1, random);
        if !answers.writeLost {
          var _ := outbox.ExecFenced(claimed.value, SetAside(false), answers.writtenAt);
        }
        return 0, claimed;
      }
      pause := Settle(claimed.value, answers.outcome, answers.writtenAt, answers.writeLost);
    }

    /** At most one batch: a round starts once an interval and goes on while its batches are full. */
    method DeleteOldPublishedEvents(clock: int, now: int, deleteFails: bool)
      modifies this`lastCleanup, this`cleanupUnfinished, outbox
      ensures Cleaned(old(outbox.rows), outbox.rows, old(CleanupState()), CleanupState(), clock, now, deleteFails)
    {
      if !cleanupUnfinished {
        if clock - lastCleanup < CLEANUP_INTERVAL {
          return;
        }
        lastCleanup := clock;
      }
      if deleteFails {
        cleanupUnfinished := false;
        return;
      }
      var deleted := outbox.DeletePublished(now, RETENTION, CLEANUP_BATCH);
      cleanupUnfinished := deleted == CLEANUP_BATCH;
    }

    /**
     * What claims, settlements, redrives and other workers' cleanups may do between two
     * idle polls: no row expires meanwhile, and expired rows are only ever deleted.
     */
    method OthersAct(now: int)
      modifies outbox
      ensures forall id :: id in outbox.rows && Expired(outbox.rows[id], now, RETENTION) ==>
                id in old(outbox.rows) && outbox.rows[id] == old(outbox.rows)[id]
    {
    }

    /**
     * The idle polls of one round, with anything else in between: each takes a batch, the
     * number of expired rows falls with each, and the last leaves none.
     */
    method FinishRound(clock: int, now: int)
      requires cleanupUnfinished
      modifies this`lastCleanup, this`cleanupUnfinished, outbox
      ensures !cleanupUnfinished && lastCleanup == old(lastCleanup)
      ensures forall id :: id in outbox.rows ==> !Expired(outbox.rows[id], now, RETENTION)
    {
      while cleanupUnfinished
        invariant lastCleanup == old(lastCleanup)
        invariant !cleanupUnfinished ==> forall id :: id in outbox.rows ==> !Expired(outbox.rows[id], now, RETENTION)
        decreases cleanupUnfinished, |ExpiredIn(outbox.rows, now)|
      {
        ghost var before := outbox.rows;
        OthersAct(now);
        ghost var seen := outbox.rows;
        SubsetIsSmaller(ExpiredIn(seen, now), ExpiredIn(before, now));
        DeleteOldPublishedEvents(clock, now, false);
        if cleanupUnfinished { BatchShrinks(seen, outbox.rows, now); }
      }
    }
  }

  ghost function ExpiredIn(rows: Rows, now: int): set<EventId>
  {
    set id | id in rows && Expired(rows[id], now, RETENTION)
  }

  lemma {:induction false} SubsetIsSmaller<T>(part: set<T>, whole: set<T>)
    requires part <= whole
    ensures |part| <= |whole|
    ensures part != whole ==> |part| < |whole|
  {
    if part != {} {
      var x :| x in part;
      SubsetIsSmaller(part - {x}, whole - {x});
    }
  }

  /** A full batch leaves fewer expired rows. */
  lemma BatchShrinks(before: Rows, after: Rows, now: int)
    requires after.Keys <= before.Keys && |after| < |before| && forall id :: id in after ==> after[id] == before[id]
    requires forall id :: id in before && id !in after ==> Expired(before[id], now, RETENTION)
    ensures |ExpiredIn(after, now)| < |ExpiredIn(before, now)|
  {
    assert |after.Keys| < |before.Keys|;
    assert after.Keys != before.Keys && !(before.Keys <= after.Keys);
    var gone :| gone in before.Keys && gone !in after.Keys;
    assert gone in ExpiredIn(before, now) && gone !in ExpiredIn(after, now);
    SubsetIsSmaller(ExpiredIn(after, now), ExpiredIn(before, now));
  }
}
