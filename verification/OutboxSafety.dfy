/** What every step of the outbox keeps: the budget, the fence, and the truth of 'published'. */
module OutboxSafety {
  import opened Collections
  import opened Outbox
  import opened OutboxRuns

  ghost predicate RowOk(s: State, id: EventId, row: Row)
  {
    && id in s.recorded
    && (row.token.Some? ==> row.token.value in s.issued)
    && 0 <= row.attempts <= MAX_PUBLISH_ATTEMPTS
    && (row.status == Pending ==> row.attempts < MAX_PUBLISH_ATTEMPTS)
    && (row.status == Published ==> id in s.confirmed)
  }

  ghost predicate RowsOk(s: State)
  {
    forall id :: id in s.rows ==> RowOk(s, id, s.rows[id])
  }

  /** A worker's memory of its row is right for as long as its token is the row's. */
  ghost predicate Remembers(s: State, entry: Entry)
  {
    && entry.token in s.issued && entry.event in s.recorded
    && 0 <= entry.attempts < MAX_PUBLISH_ATTEMPTS
    && (entry.event in s.rows && s.rows[entry.event].token == Some(entry.token) ==>
          && s.rows[entry.event].status != NeedsAttention
          && (s.rows[entry.event].status == Pending ==> s.rows[entry.event].attempts == entry.attempts))
  }

  ghost predicate WorkerOk(s: State, worker: Worker)
  {
    && (!worker.Idle? ==> Remembers(s, worker.entry))
    && (worker.Settling? && worker.outcome == Routed ==> worker.entry.event in s.confirmed)
  }

  ghost predicate WorkersOk(s: State)
  {
    forall w :: w in s.workers ==> WorkerOk(s, s.workers[w])
  }

  /** No two claims share a token. */
  ghost predicate TokensDiffer(s: State)
  {
    forall v, w :: v in s.workers && w in s.workers && v != w && !s.workers[v].Idle? && !s.workers[w].Idle? ==>
      s.workers[v].entry.token != s.workers[w].entry.token
  }

  ghost predicate Inv(s: State)
  {
    RowsOk(s) && WorkersOk(s) && TokensDiffer(s)
  }

  lemma ClaimKeepsInv(c: Config, s: State, w: WorkerId, a: Action, s': State)
    requires Inv(s) && a.Claim? && ClaimStep(c, s, w, a, s')
    ensures Inv(s')
  {
    assert RowOk(s, a.event, s.rows[a.event]);
    forall v | v in s'.workers ensures WorkerOk(s', s'.workers[v]) {
      if v != w { assert WorkerOk(s, s.workers[v]); }
    }
    forall v | v in s.workers && v != w && !s.workers[v].Idle? ensures s.workers[v].entry.token != a.token {
      assert WorkerOk(s, s.workers[v]);
    }
  }

  lemma WriteKeepsRows(s: State, entry: Entry, write: Outbox.Write, s': State)
    requires RowsOk(s) && Remembers(s, entry)
    requires write == MarkPublished ==> entry.event in s.confirmed
    requires write.ScheduleRetry? ==> entry.attempts + 1 < MAX_PUBLISH_ATTEMPTS
    requires s'.recorded == s.recorded && s'.issued == s.issued && s'.confirmed == s.confirmed
    requires s'.rows == Written(s.rows, entry, write, s.now)
    ensures RowsOk(s')
  {
    forall id | id in s'.rows ensures RowOk(s', id, s'.rows[id]) {
      assert RowOk(s, id, s.rows[id]);
    }
  }

  /** One worker's write leaves every other worker's memory right. */
  lemma WriteKeepsMemory(s: State, entry: Entry, write: Outbox.Write, s': State, other: Entry)
    requires Remembers(s, other) && other.token != entry.token
    requires s'.recorded == s.recorded && s'.issued == s.issued
    requires s'.rows == Written(s.rows, entry, write, s.now)
    ensures Remembers(s', other)
  {
  }

  lemma WriteKeepsInv(c: Config, s: State, w: WorkerId, a: Action, s': State)
    requires Inv(s) && a.Write? && Next(c, s, w, a, s')
    ensures Inv(s')
  {
    var worker := s.workers[w];
    assert WorkerOk(s, worker);
    if !a.lost { WriteKeepsRows(s, worker.entry, WriteFor(worker.entry, worker.outcome, a.delay), s'); }
    else { forall id | id in s'.rows ensures RowOk(s', id, s'.rows[id]) { assert RowOk(s, id, s.rows[id]); } }
    forall v | v in s'.workers ensures WorkerOk(s', s'.workers[v]) {
      if v != w {
        assert WorkerOk(s, s.workers[v]);
        if !a.lost && !s.workers[v].Idle? {
          WriteKeepsMemory(s, worker.entry, WriteFor(worker.entry, worker.outcome, a.delay), s', s.workers[v].entry);
        }
      }
    }
  }

  /** A redrive touches only rows whose token no worker holds any more. */
  lemma RedriveKeepsInv(c: Config, s: State, w: WorkerId, a: Action, s': State)
    requires Inv(s) && a.Redrive? && Next(c, s, w, a, s')
    ensures Inv(s')
  {
    forall id | id in s'.rows ensures RowOk(s', id, s'.rows[id]) { assert RowOk(s, id, s.rows[id]); }
    forall v | v in s'.workers ensures WorkerOk(s', s'.workers[v]) { assert WorkerOk(s, s.workers[v]); }
  }

  lemma OtherStepsKeepInv(c: Config, s: State, w: WorkerId, a: Action, s': State)
    requires Inv(s) && !a.Claim? && !a.Write? && !a.Redrive? && Next(c, s, w, a, s')
    ensures Inv(s')
  {
    forall id | id in s'.rows ensures RowOk(s', id, s'.rows[id]) {
      if id in s.rows { assert RowOk(s, id, s.rows[id]); }
    }
    forall v | v in s'.workers ensures WorkerOk(s', s'.workers[v]) {
      if v in s.workers { assert WorkerOk(s, s.workers[v]); }
    }
  }

  lemma NextKeepsInv(c: Config, s: State, w: WorkerId, a: Action, s': State)
    requires Inv(s) && Next(c, s, w, a, s')
    ensures Inv(s')
  {
    if a.Claim? { ClaimKeepsInv(c, s, w, a, s'); }
    else if a.Write? { WriteKeepsInv(c, s, w, a, s'); }
    else if a.Redrive? { RedriveKeepsInv(c, s, w, a, s'); }
    else { OtherStepsKeepInv(c, s, w, a, s'); }
  }

  lemma {:induction false} RunKeepsInv(c: Config, run: seq<State>, n: nat)
    requires IsRun(c, run) && n < |run|
    ensures Inv(run[n])
  {
    if n > 0 {
      RunKeepsInv(c, run, n - 1);
      assert Inv(run[n]) by {
        assert StepAt(c, run, n);
        StepKeepsInv(c, run[n - 1], run[n]);
      }
    }
  }

  lemma StepKeepsInv(c: Config, s: State, s': State)
    requires Inv(s) && Step(c, s, s')
    ensures Inv(s')
  {
    var w, a :| Next(c, s, w, a, s');
    NextKeepsInv(c, s, w, a, s');
  }
}
