/**
 * Several outbox workers over one table, with crashes, lost writes, lost replies, an
 * operator and the cleanup, in any interleaving.
 */
module OutboxRuns {
  import opened Collections
  import opened Outbox

  type WorkerId = nat

  /** The lease and the publish timeout, as configured. */
  datatype Config = Config(lease: nat, publishTimeout: nat)

  const WRITE_ALLOWANCE := 5_000_000_000

  /** The rule the configuration is checked against when the service starts. */
  predicate ConfigOk(c: Config)
  {
    c.lease > 3 * c.publishTimeout + WRITE_ALLOWANCE
  }

  /** `routed` says that the broker has put the message being published into a queue. */
  datatype Worker =
    | Idle
    | Publishing(entry: Entry, claimedAt: int, routed: bool)
    | Settling(entry: Entry, claimedAt: int, outcome: Outcome)

  /**
   * `issued`, `recorded` and `confirmed` are the history of the run: the claim tokens ever
   * given out, the events ever stored, and the events some publication of which returned
   * no error.
   */
  datatype State = State(
    now: int, rows: Rows, workers: map<WorkerId, Worker>,
    issued: set<Token>, recorded: set<EventId>, confirmed: set<EventId>)

  datatype Action =
    | Tick(now: int)
    | Record(event: EventId, order: OrderId)
    | Claim(event: EventId, token: Token, readable: bool, replyLost: bool)
    | Route
    | EndPublish(outcome: Outcome)
    | Write(delay: nat, lost: bool)
    | Crash
    | Redrive(chosen: set<EventId>)
    | Delete(ids: set<EventId>, retention: nat)

  function WorkerAt(s: State, w: WorkerId): Worker
  {
    if w in s.workers then s.workers[w] else Idle
  }

  ghost predicate ClaimStep(c: Config, s: State, w: WorkerId, a: Action, s': State)
    requires a.Claim?
  {
    && WorkerAt(s, w).Idle?
    && a.event in s.rows && Due(s.rows[a.event], s.now)
    && a.token !in s.issued
    && var entry := Entry(a.event, s.rows[a.event].attempts, a.token);
    && s' == s.(
         rows := s.rows[a.event := ClaimedRow(s.rows[a.event], s.now, c.lease, a.token)],
         issued := s.issued + {a.token},
         workers := s.workers[w :=
           if a.replyLost then Idle
           else if a.readable then Publishing(entry, s.now, false) else Settling(entry, s.now, Unpublishable)])
  }

  ghost predicate Next(c: Config, s: State, w: WorkerId, a: Action, s': State)
  {
    var worker := WorkerAt(s, w);
    match a
    case Tick(now) => now >= s.now && s' == s.(now := now)
    case Record(event, order) =>
      event !in s.recorded &&
      s' == s.(rows := s.rows[event := Recorded(order, s.now)], recorded := s.recorded + {event})
    case Claim(_, _, _, _) => ClaimStep(c, s, w, a, s')
    case Route => worker.Publishing? && s' == s.(workers := s.workers[w := worker.(routed := true)])
    case EndPublish(outcome) =>
      && worker.Publishing? && (outcome == Routed ==> worker.routed)
      && s' == s.(workers := s.workers[w := Settling(worker.entry, worker.claimedAt, outcome)],
                  confirmed := if outcome == Routed then s.confirmed + {worker.entry.event} else s.confirmed)
    case Write(delay, lost) =>
      && worker.Settling?
      && s' == s.(workers := s.workers[w := Idle],
                  rows := if lost then s.rows
                          else Written(s.rows, worker.entry, WriteFor(worker.entry, worker.outcome, delay), s.now))
    case Crash => s' == s.(workers := s.workers[w := Idle])
    case Redrive(chosen) => s' == s.(rows := Redriven(s.rows, chosen, s.now))
    case Delete(ids, retention) =>
      && (forall id :: id in ids ==> id in s.rows && Expired(s.rows[id], s.now, retention))
      && s' == s.(rows := s.rows - ids)
  }

  ghost predicate Init(s: State)
  {
    s.rows == map[] && s.workers == map[] && s.issued == {} && s.recorded == {} && s.confirmed == {}
  }

  ghost predicate Step(c: Config, s: State, s': State)
  {
    exists w, a :: Next(c, s, w, a, s')
  }

  /** One step of a run, as a term of its own: proofs name the step they look at. */
  ghost predicate StepAt(c: Config, run: seq<State>, i: int)
  {
    0 < i < |run| && Step(c, run[i - 1], run[i])
  }

  ghost predicate IsRun(c: Config, run: seq<State>)
  {
    run != [] && Init(run[0]) && forall i {:trigger StepAt(c, run, i)} :: 0 < i < |run| ==> StepAt(c, run, i)
  }
}
