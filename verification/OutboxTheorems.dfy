/** The promises of the outbox, over every run. */
module OutboxTheorems {
  import opened Collections
  import opened Intervals
  import opened Outbox
  import opened OutboxRuns
  import opened OutboxSafety

  /**
   * The budget: a pending row has used at most nine attempts and a row that needs
   * attention at most ten, whatever was taken over, lost or redriven; and a worker that
   * has not written yet, and whose claim is current, knows the row's count.
   */
  lemma BudgetHolds(c: Config, run: seq<State>, n: nat, id: EventId, w: WorkerId)
    requires IsRun(c, run) && n < |run| && id in run[n].rows
    ensures var row, worker := run[n].rows[id], WorkerAt(run[n], w);
            && 0 <= row.attempts <= MAX_PUBLISH_ATTEMPTS
            && (row.status == Pending ==> row.attempts <= MAX_PUBLISH_ATTEMPTS - 1)
            && (!worker.Idle? && Current(run[n].rows, worker.entry) && worker.entry.event == id ==>
                  worker.entry.attempts == row.attempts)
  {
    RunKeepsInv(c, run, n);
    assert RowOk(run[n], id, run[n].rows[id]);
    if w in run[n].workers { assert WorkerOk(run[n], run[n].workers[w]); }
  }

  /** A redriven row starts afresh, and no worker still holds the token it kept. */
  lemma RedriveMeetsNoHolder(c: Config, run: seq<State>, n: nat, id: EventId, w: WorkerId)
    requires IsRun(c, run) && n < |run| && id in run[n].rows && run[n].rows[id].status == NeedsAttention
    requires !WorkerAt(run[n], w).Idle? && WorkerAt(run[n], w).entry.event == id
    ensures run[n].rows[id].token != Some(WorkerAt(run[n], w).entry.token)
  {
    RunKeepsInv(c, run, n);
    assert WorkerOk(run[n], run[n].workers[w]);
  }

  /** A counted failure lands: the publication was not routed, or may not have been, and the claim is still current. */
  ghost predicate FailureLands(c: Config, s: State, s': State, id: EventId)
  {
    exists w, a :: Next(c, s, w, a, s') && a.Write? && !a.lost
      && s.workers[w].outcome in {NotRouted, OutcomeUnknown} && s.workers[w].entry.event == id
      && Current(s.rows, s.workers[w].entry)
  }

  ghost predicate FailureAt(c: Config, run: seq<State>, i: int, id: EventId)
  {
    0 < i < |run| && FailureLands(c, run[i - 1], run[i], id)
  }

  /** The operator has put the row back. */
  ghost predicate RedrivenAt(run: seq<State>, i: int, id: EventId)
  {
    0 < i < |run| && id in run[i - 1].rows && id in run[i].rows
    && run[i - 1].rows[id].status == NeedsAttention && run[i].rows[id].status == Pending
  }

  lemma FailureCounts(c: Config, s: State, s': State, id: EventId)
    requires FailureLands(c, s, s', id)
    ensures id in s.rows && id in s'.rows && s'.rows[id].attempts == s.rows[id].attempts + 1
  {
    var w, a :| Next(c, s, w, a, s') && a.Write? && !a.lost
      && s.workers[w].outcome in {NotRouted, OutcomeUnknown} && s.workers[w].entry.event == id
      && Current(s.rows, s.workers[w].entry);
  }

  lemma NothingElseCounts(c: Config, s: State, w: WorkerId, a: Action, s': State, id: EventId)
    requires Next(c, s, w, a, s') && id in s.rows && id in s'.rows && (a.Record? ==> a.event != id)
    requires s.rows[id].status == NeedsAttention ==> s'.rows[id].status != Pending
    requires s'.rows[id].attempts != s.rows[id].attempts
    ensures a.Write? && !a.lost && s.workers[w].outcome in {NotRouted, OutcomeUnknown}
    ensures s.workers[w].entry.event == id && Current(s.rows, s.workers[w].entry)
  {
  }

  lemma StepCountsFailure(c: Config, s: State, w: WorkerId, a: Action, s': State, id: EventId)
    requires Inv(s) && Next(c, s, w, a, s') && id in s.rows && id in s'.rows
    requires s.rows[id].status == NeedsAttention ==> s'.rows[id].status != Pending
    ensures s'.rows[id].attempts == s.rows[id].attempts + if FailureLands(c, s, s', id) then 1 else 0
  {
    if FailureLands(c, s, s', id) {
      FailureCounts(c, s, s', id);
    } else if s'.rows[id].attempts != s.rows[id].attempts {
      assert id in s.recorded by { assert RowOk(s, id, s.rows[id]); }
      NothingElseCounts(c, s, w, a, s', id);
      assert false;
    }
  }

  ghost function FailuresIn(c: Config, run: seq<State>, m: nat, n: nat, id: EventId): nat
  {
    if n <= m then 0 else FailuresIn(c, run, m, n - 1, id) + if FailureAt(c, run, n, id) then 1 else 0
  }

  /**
   * What a row's attempts are: between two redrives, exactly the counted failures that
   * landed. Outages, lost writes and superseded writes leave no trace in it.
   */
  lemma {:induction false} AttemptsCountFailures(c: Config, run: seq<State>, m: nat, n: nat, id: EventId)
    requires IsRun(c, run) && m <= n < |run| && id in run[m].rows && id in run[n].rows
    requires forall i :: m < i <= n ==> !RedrivenAt(run, i, id)
    ensures run[n].rows[id].attempts == run[m].rows[id].attempts + FailuresIn(c, run, m, n, id)
    decreases n - m
  {
    if m < n {
      RunKeepsInv(c, run, n - 1);
      assert Step(c, run[n - 1], run[n]) by { assert StepAt(c, run, n); }
      RecordedSince(c, run, m, n - 1, id);
      RowsNeverReturn(c, run[n - 1], run[n], id);
      AttemptsCountFailures(c, run, m, n - 1, id);
      assert !RedrivenAt(run, n, id);
      var w, a :| Next(c, run[n - 1], w, a, run[n]);
      StepCountsFailure(c, run[n - 1], w, a, run[n], id);
    }
  }

  lemma {:induction false} RecordedSince(c: Config, run: seq<State>, m: nat, n: nat, id: EventId)
    requires IsRun(c, run) && m <= n < |run| && id in run[m].rows
    ensures id in run[n].recorded
    decreases n - m
  {
    if m < n {
      RecordedSince(c, run, m, n - 1, id);
      RunKeepsInv(c, run, n - 1);
      assert StepAt(c, run, n);
      RowsNeverReturn(c, run[n - 1], run[n], id);
    } else {
      RunKeepsInv(c, run, n);
      assert RowOk(run[n], id, run[n].rows[id]);
    }
  }

  /** The row has been claimed under another token since. */
  ghost predicate Superseded(s: State, event: EventId, token: Token)
  {
    token in s.issued && event in s.recorded && (event in s.rows ==> s.rows[event].token != Some(token))
  }

  lemma StepKeepsSuperseded(c: Config, s: State, w: WorkerId, a: Action, s': State, event: EventId, token: Token)
    requires Next(c, s, w, a, s') && Superseded(s, event, token)
    ensures Superseded(s', event, token)
  {
  }

  /** A superseded token never comes back, not even by a redrive, which leaves tokens in place. */
  lemma {:induction false} SupersededForGood(c: Config, run: seq<State>, m: nat, n: nat, event: EventId, token: Token)
    requires IsRun(c, run) && m <= n < |run| && Superseded(run[m], event, token)
    ensures Superseded(run[n], event, token)
    decreases n - m
  {
    if m < n {
      SupersededForGood(c, run, m, n - 1, event, token);
      assert Superseded(run[n], event, token) by {
        assert StepAt(c, run, n);
        var w, a :| Next(c, run[n - 1], w, a, run[n]);
        StepKeepsSuperseded(c, run[n - 1], w, a, run[n], event, token);
      }
    }
  }

  /**
   * From the moment a worker's claim is superseded, nothing that it still writes has any
   * effect; only the fact that the event was routed may still be recorded.
   */
  lemma SupersededWritesNothing(c: Config, run: seq<State>, m: nat, n: nat, w: WorkerId, a: Action, s': State)
    requires IsRun(c, run) && m <= n < |run| && Next(c, run[n], w, a, s') && a.Write?
    requires run[n].workers[w].outcome != Routed
    requires Superseded(run[m], run[n].workers[w].entry.event, run[n].workers[w].entry.token)
    ensures s'.rows == run[n].rows
  {
    SupersededForGood(c, run, m, n, run[n].workers[w].entry.event, run[n].workers[w].entry.token);
  }

  // ----- the backoff

  /** Nobody may take the row up before `until`: it waits, under no current claim, or it is done with. */
  ghost predicate Waiting(s: State, id: EventId, until: int)
  {
    id in s.recorded &&
    (id in s.rows ==>
       || s.rows[id].status == Published
       || (s.rows[id].status == Pending && s.rows[id].nextAttemptAt == until
           && forall w :: w in s.workers && !s.workers[w].Idle? && s.workers[w].entry.event == id ==>
                s.rows[id].token != Some(s.workers[w].entry.token)))
  }

  lemma StepKeepsWaiting(c: Config, s: State, w: WorkerId, a: Action, s': State, id: EventId, until: int)
    requires Next(c, s, w, a, s') && Waiting(s, id, until) && s.now < until
    ensures Waiting(s', id, until)
  {
  }

  /** A write that asks for another attempt leaves its row waiting, because its writer was the only current one. */
  lemma RetryWaits(c: Config, s: State, w: WorkerId, a: Action, s': State)
    requires Inv(s) && Next(c, s, w, a, s') && a.Write? && !a.lost && Current(s.rows, s.workers[w].entry)
    requires var worker := s.workers[w]; var write := WriteFor(worker.entry, worker.outcome, a.delay);
             write == Release(a.delay) || write == ScheduleRetry(a.delay)
    ensures Waiting(s', s.workers[w].entry.event, s.now + Interval(a.delay))
  {
    assert WorkerOk(s, s.workers[w]);
    forall v | v in s'.workers && !s'.workers[v].Idle? ensures s'.workers[v].entry.token != s.workers[w].entry.token {
      assert v != w;
    }
  }

  lemma {:induction false} WaitsUntil(c: Config, run: seq<State>, m: nat, n: nat, id: EventId, until: int)
    requires IsRun(c, run) && m <= n < |run| && Waiting(run[m], id, until)
    requires forall i :: m <= i < n ==> run[i].now < until
    ensures Waiting(run[n], id, until)
    decreases n - m
  {
    if m < n {
      WaitsUntil(c, run, m, n - 1, id, until);
      assert Waiting(run[n], id, until) by {
        assert StepAt(c, run, n);
        var w, a :| Next(c, run[n - 1], w, a, run[n]);
        StepKeepsWaiting(c, run[n - 1], w, a, run[n], id, until);
      }
    }
  }

  lemma {:induction false} TimeOnlyPasses(c: Config, run: seq<State>, m: nat, n: nat)
    requires IsRun(c, run) && m <= n < |run|
    ensures run[m].now <= run[n].now
    decreases n - m
  {
    if m < n {
      TimeOnlyPasses(c, run, m, n - 1);
      assert StepAt(c, run, n);
      var w, a :| Next(c, run[n - 1], w, a, run[n]);
    }
  }

  /**
   * The backoff holds: after a landed retry or release at time T with delay d, in whole
   * milliseconds, nobody can claim the event before T + d, whatever other workers,
   * operators and late writes do.
   */
  lemma BackoffHolds(c: Config, run: seq<State>, m: nat, n: nat, w: WorkerId, a: Action)
    requires IsRun(c, run) && m + 1 <= n < |run| && Next(c, run[m], w, a, run[m + 1])
    requires a.Write? && !a.lost && Current(run[m].rows, run[m].workers[w].entry)
    requires var worker := run[m].workers[w]; var write := WriteFor(worker.entry, worker.outcome, a.delay);
             write == Release(a.delay) || write == ScheduleRetry(a.delay)
    requires run[n].now < run[m].now + Interval(a.delay)
    ensures var id := run[m].workers[w].entry.event; id in run[n].rows ==> !Due(run[n].rows[id], run[n].now)
  {
    var id, until := run[m].workers[w].entry.event, run[m].now + Interval(a.delay);
    RunKeepsInv(c, run, m);
    RetryWaits(c, run[m], w, a, run[m + 1]);
    forall i | m + 1 <= i < n ensures run[i].now < until { TimeOnlyPasses(c, run, i, n); }
    WaitsUntil(c, run, m + 1, n, id, until);
  }

  // ----- published is truthful and terminal

  /** A row says published only if some publication of its event returned no error. */
  lemma PublishedIsTruthful(c: Config, run: seq<State>, n: nat, id: EventId)
    requires IsRun(c, run) && n < |run| && id in run[n].rows && run[n].rows[id].status == Published
    ensures id in run[n].confirmed
  {
    RunKeepsInv(c, run, n);
    assert RowOk(run[n], id, run[n].rows[id]);
  }

  /** One step never reopens a published row, and removes only published rows past their retention. */
  lemma StepKeepsRow(c: Config, s: State, w: WorkerId, a: Action, s': State, id: EventId)
    requires Inv(s) && Next(c, s, w, a, s') && id in s.rows
    ensures id in s'.rows && s.rows[id].status == Published ==> s'.rows[id] == s.rows[id]
    ensures id !in s'.rows ==> a.Delete? && Expired(s.rows[id], s.now, a.retention)
    ensures id in s'.recorded
  {
    assert RowOk(s, id, s.rows[id]);
  }

  /** An event that was ever recorded comes into the table no second time. */
  lemma RowsNeverReturn(c: Config, s: State, s': State, id: EventId)
    requires Inv(s) && Step(c, s, s') && id in s.recorded
    ensures id in s'.recorded
    ensures id in s'.rows ==> id in s.rows && (s.rows[id].status == Published ==> s'.rows[id] == s.rows[id])
  {
    var w, a :| Next(c, s, w, a, s');
    if id in s.rows { StepKeepsRow(c, s, w, a, s', id); }
  }

  /** The cleanup has deleted the row, which had been published for longer than the retention. */
  ghost predicate ExpiredAt(run: seq<State>, i: int, id: EventId)
  {
    0 < i < |run| && RowExpired(run[i - 1], id) && id !in run[i].rows
  }

  ghost predicate RowExpired(s: State, id: EventId)
  {
    id in s.rows && exists retention: nat :: Expired(s.rows[id], s.now, retention)
  }

  /** A row that has left the table had been published for longer than the retention when it did, and stays away. */
  lemma {:induction false} RowsLeaveOnlyPublished(c: Config, run: seq<State>, m: nat, n: nat, id: EventId)
    requires IsRun(c, run) && m <= n < |run| && id in run[m].rows && id !in run[n].rows
    ensures exists i :: m < i <= n && ExpiredAt(run, i, id) && forall j :: i <= j <= n ==> id !in run[j].rows
    decreases n - m
  {
    RunKeepsInv(c, run, n - 1);
    assert Step(c, run[n - 1], run[n]) by { assert StepAt(c, run, n); }
    if id in run[n - 1].rows {
      var w, a :| Next(c, run[n - 1], w, a, run[n]);
      StepKeepsRow(c, run[n - 1], w, a, run[n], id);
      assert RowExpired(run[n - 1], id) by { assert Expired(run[n - 1].rows[id], run[n - 1].now, a.retention); }
      assert ExpiredAt(run, n, id);
    } else {
      RowsLeaveOnlyPublished(c, run, m, n - 1, id);
    }
  }

  /** Once published, a row stays as it is until the cleanup deletes it, and never comes back. */
  lemma {:induction false} PublishedIsTerminal(c: Config, run: seq<State>, m: nat, n: nat, id: EventId)
    requires IsRun(c, run) && m <= n < |run|
    requires id in run[m].rows && run[m].rows[id].status == Published
    ensures id in run[n].rows ==> run[n].rows[id] == run[m].rows[id]
    ensures id in run[n].recorded
  {
    if m < n {
      PublishedIsTerminal(c, run, m, n - 1, id);
      RunKeepsInv(c, run, n - 1);
      assert StepAt(c, run, n);
      RowsNeverReturn(c, run[n - 1], run[n], id);
    } else {
      RunKeepsInv(c, run, n);
      assert RowOk(run[n], id, run[n].rows[id]);
    }
  }

  // ----- the lease keeps publications apart

  /** Every publication ends within three publish timeouts of its claim. */
  ghost predicate PublishesOnTime(c: Config, s: State)
  {
    forall w :: w in s.workers && s.workers[w].Publishing? ==> s.now <= s.workers[w].claimedAt + 3 * c.publishTimeout
  }

  /** And the write that follows ends within its own allowance as well. */
  ghost predicate SettlesOnTime(c: Config, s: State)
  {
    forall w :: w in s.workers && s.workers[w].Settling? ==>
      s.now <= s.workers[w].claimedAt + 3 * c.publishTimeout + WRITE_ALLOWANCE
  }

  lemma LeaseOutlastsAttempt(c: Config)
    requires ConfigOk(c)
    ensures Interval(c.lease) > 3 * c.publishTimeout + WRITE_ALLOWANCE - MILLISECOND
    ensures Interval(c.lease) > 3 * c.publishTimeout
  {
  }

  /** Until the row is published, a worker still at work on it holds its claim and its lease. */
  ghost predicate Leased(c: Config, s: State, worker: Worker)
  {
    !worker.Idle? && worker.entry.event in s.rows && s.rows[worker.entry.event].status != Published ==>
      && Current(s.rows, worker.entry)
      && s.rows[worker.entry.event].nextAttemptAt == worker.claimedAt + Interval(c.lease)
  }

  ghost predicate PublishersLeased(c: Config, s: State)
  {
    forall w :: w in s.workers && s.workers[w].Publishing? ==> Leased(c, s, s.workers[w])
  }

  ghost predicate AllLeased(c: Config, s: State)
  {
    forall w :: w in s.workers ==> Leased(c, s, s.workers[w])
  }

  lemma StepKeepsLeased(c: Config, s: State, w: WorkerId, a: Action, s': State, v: WorkerId)
    requires ConfigOk(c) && Inv(s) && Next(c, s, w, a, s') && v in s'.workers && !s'.workers[v].Idle?
    requires v in s.workers && v != w ==>
               Leased(c, s, s.workers[v]) && (s.workers[v].Publishing? || s.workers[v].Settling?)
               && s.now < s.workers[v].claimedAt + Interval(c.lease)
    requires v == w && !a.Claim? ==> v in s.workers && !s.workers[v].Idle? && Leased(c, s, s.workers[v])
    ensures Leased(c, s', s'.workers[v])
  {
    if v in s.workers { assert WorkerOk(s, s.workers[v]); }
    if w in s.workers { assert WorkerOk(s, s.workers[w]); }
  }

  lemma StepKeepsPublishersLeased(c: Config, s: State, s': State)
    requires ConfigOk(c) && Inv(s) && PublishersLeased(c, s) && PublishesOnTime(c, s) && Step(c, s, s')
    ensures PublishersLeased(c, s')
  {
    var w, a :| Next(c, s, w, a, s');
    LeaseOutlastsAttempt(c);
    forall v | v in s'.workers && s'.workers[v].Publishing? ensures Leased(c, s', s'.workers[v]) {
      StepKeepsLeased(c, s, w, a, s', v);
    }
  }

  lemma {:induction false} RunKeepsPublishersLeased(c: Config, run: seq<State>, n: nat)
    requires ConfigOk(c) && IsRun(c, run) && n < |run|
    requires forall i :: 0 <= i <= n ==> PublishesOnTime(c, run[i])
    ensures PublishersLeased(c, run[n])
  {
    if n > 0 {
      RunKeepsPublishersLeased(c, run, n - 1);
      RunKeepsInv(c, run, n - 1);
      assert PublishersLeased(c, run[n]) by {
        assert StepAt(c, run, n);
        StepKeepsPublishersLeased(c, run[n - 1], run[n]);
      }
    }
  }

  ghost predicate OnePublisherEach(s: State)
  {
    forall v, w :: v in s.workers && w in s.workers && v != w && s.workers[v].Publishing? && s.workers[w].Publishing? ==>
      s.workers[v].entry.event != s.workers[w].entry.event
  }

  /** A worker publishes what it was publishing, or what it has just claimed. */
  lemma WhoPublishes(c: Config, s: State, w: WorkerId, a: Action, s': State, v: WorkerId)
    requires Next(c, s, w, a, s') && v in s'.workers && s'.workers[v].Publishing?
    ensures || (v in s.workers && s.workers[v].Publishing? && s'.workers[v].entry.event == s.workers[v].entry.event)
            || (v == w && a.Claim? && s'.workers[v].entry.event == a.event)
  {
  }

  /** While one worker publishes an event, nobody can claim it. */
  lemma NobodyClaims(c: Config, s: State, w: WorkerId, a: Action, s': State, v: WorkerId)
    requires ConfigOk(c) && PublishersLeased(c, s) && PublishesOnTime(c, s) && a.Claim? && Next(c, s, w, a, s')
    requires v in s.workers && s.workers[v].Publishing?
    ensures s.workers[v].entry.event != a.event
  {
    LeaseOutlastsAttempt(c);
    assert Leased(c, s, s.workers[v]);
  }

  lemma StepKeepsOnePublisher(c: Config, s: State, s': State)
    requires ConfigOk(c) && PublishersLeased(c, s) && PublishesOnTime(c, s) && OnePublisherEach(s) && Step(c, s, s')
    ensures OnePublisherEach(s')
  {
    var w, a :| Next(c, s, w, a, s');
    forall u, v | u in s'.workers && v in s'.workers && u != v && s'.workers[u].Publishing? && s'.workers[v].Publishing?
      ensures s'.workers[u].entry.event != s'.workers[v].entry.event
    {
      WhoPublishes(c, s, w, a, s', u);
      WhoPublishes(c, s, w, a, s', v);
      if a.Claim? && u == w && v in s.workers && s.workers[v].Publishing? { NobodyClaims(c, s, w, a, s', v); }
      if a.Claim? && v == w && u in s.workers && s.workers[u].Publishing? { NobodyClaims(c, s, w, a, s', u); }
    }
  }

  /** Lease exclusion: no event is ever being published by two workers at once. */
  lemma {:induction false} LeaseExcludes(c: Config, run: seq<State>, n: nat)
    requires ConfigOk(c) && IsRun(c, run) && n < |run|
    requires forall i :: 0 <= i <= n ==> PublishesOnTime(c, run[i])
    ensures OnePublisherEach(run[n])
  {
    if n > 0 {
      LeaseExcludes(c, run, n - 1);
      RunKeepsPublishersLeased(c, run, n - 1);
      assert OnePublisherEach(run[n]) by {
        assert StepAt(c, run, n);
        StepKeepsOnePublisher(c, run[n - 1], run[n]);
      }
    }
  }

  /** What keeps the write inside the lease: the lease as PostgreSQL receives it, in whole milliseconds. */
  predicate LeaseCoversWrite(c: Config)
  {
    Interval(c.lease) > 3 * c.publishTimeout + WRITE_ALLOWANCE
  }

  lemma StepKeepsAllLeased(c: Config, s: State, s': State)
    requires LeaseCoversWrite(c) && Inv(s) && Step(c, s, s')
    requires AllLeased(c, s) && PublishesOnTime(c, s) && SettlesOnTime(c, s)
    ensures AllLeased(c, s')
  {
    var w, a :| Next(c, s, w, a, s');
    forall v | v in s'.workers ensures Leased(c, s', s'.workers[v]) {
      if !s'.workers[v].Idle? { StepKeepsLeased(c, s, w, a, s', v); }
    }
  }

  ghost predicate OnTimeRun(c: Config, run: seq<State>)
  {
    IsRun(c, run) && forall i :: 0 <= i < |run| ==> PublishesOnTime(c, run[i]) && SettlesOnTime(c, run[i])
  }

  /** When the writes are on time too, each finds its claim current: none is ever refused. */
  lemma {:induction false} TimelyWritesAreNeverRefused(c: Config, run: seq<State>, n: nat)
    requires LeaseCoversWrite(c) && OnTimeRun(c, run) && n < |run|
    ensures AllLeased(c, run[n])
  {
    if n > 0 {
      TimelyWritesAreNeverRefused(c, run, n - 1);
      RunKeepsInv(c, run, n - 1);
      assert AllLeased(c, run[n]) by {
        assert StepAt(c, run, n);
        StepKeepsAllLeased(c, run[n - 1], run[n]);
      }
    }
  }

  /**
   * The condition is exact. The startup check compares the lease before it is cut down to
   * milliseconds, so a lease it accepts can still be short by less than one.
   */
  lemma LeaseCoversWriteExactly(c: Config)
    ensures LeaseCoversWrite(c) <==> forall run, n :: OnTimeRun(c, run) && 0 <= n < |run| ==> AllLeased(c, run[n])
  {
    if LeaseCoversWrite(c) {
      forall run, n | OnTimeRun(c, run) && 0 <= n < |run| ensures AllLeased(c, run[n]) {
        TimelyWritesAreNeverRefused(c, run, n);
      }
    } else {
      var run := TakenOverBeforeItsWrite(c);
      assert !AllLeased(c, run[|run| - 1]);
    }
  }

  lemma Extend(c: Config, run: seq<State>, w: WorkerId, a: Action, s': State)
    requires OnTimeRun(c, run) && Next(c, run[|run| - 1], w, a, s') && PublishesOnTime(c, s') && SettlesOnTime(c, s')
    ensures OnTimeRun(c, run + [s'])
  {
    var longer := run + [s'];
    assert Step(c, run[|run| - 1], s');
    forall i | 0 < i < |longer| ensures StepAt(c, longer, i) {
      assert i < |run| ==> StepAt(c, run, i);
    }
  }

  function FirstHeld(c: Config): Row { ClaimedRow(Recorded("order", 0), 0, c.lease, 0) }

  /** One event, claimed at time zero, whose publication has just failed. */
  function FailedAttempt(c: Config): State
  {
    State(0, map["event" := FirstHeld(c)], map[0 := Settling(Entry("event", 0, 0), 0, NotRouted)], {0}, {"event"}, {})
  }

  lemma FailsOnce(c: Config) returns (run: seq<State>)
    ensures OnTimeRun(c, run) && run[|run| - 1] == FailedAttempt(c)
  {
    var s0 := State(0, map[], map[], {}, {}, {});
    var s1 := State(0, map["event" := Recorded("order", 0)], map[], {}, {"event"}, {});
    var s2 := State(0, map["event" := FirstHeld(c)], map[0 := Publishing(Entry("event", 0, 0), 0, false)], {0}, {"event"}, {});
    Extend(c, [s0], 0, Record("event", "order"), s1);
    Extend(c, [s0] + [s1], 0, Claim("event", 0, true, false), s2);
    Extend(c, [s0] + [s1] + [s2], 0, EndPublish(NotRouted), FailedAttempt(c));
    run := [s0] + [s1] + [s2] + [FailedAttempt(c)];
  }

  lemma TakenOverBeforeItsWrite(c: Config) returns (run: seq<State>)
    requires !LeaseCoversWrite(c)
    ensures OnTimeRun(c, run) && !AllLeased(c, run[|run| - 1])
  {
    var later, failed := Interval(c.lease), Settling(Entry("event", 0, 0), 0, NotRouted);
    var s4 := FailedAttempt(c).(now := later);
    var s5 := State(later, map["event" := ClaimedRow(FirstHeld(c), later, c.lease, 1)],
                    map[0 := failed, 1 := Publishing(Entry("event", 0, 1), later, false)], {0, 1}, {"event"}, {});
    var before := FailsOnce(c);
    Extend(c, before, 0, Tick(later), s4);
    Extend(c, before + [s4], 1, Claim("event", 1, true, false), s5);
    run := before + [s4] + [s5];
    assert run[|run| - 1] == s5 && s5.workers[0] == failed;
    assert !Leased(c, s5, s5.workers[0]);
  }
}
