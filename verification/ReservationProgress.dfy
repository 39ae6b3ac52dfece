/**
 * Why sorted baskets cannot deadlock, and why every finite set of calls finishes.
 *
 * A transaction takes, per line, first the reservation key and then the stock row. Over
 * strictly sorted lines this is an increasing order of (sku, stage), so whoever waits is
 * behind whoever it waits for.
 */
module ReservationProgress {
  import opened Collections
  import opened Skus
  import opened Baskets
  import opened StockTables
  import opened ReservationRuns
  import opened ReservationSafety

  /** a's next statement blocks on a lock that b holds. */
  ghost predicate WaitsFor(s: State, a: CallId, b: CallId)
  {
    a in s.calls && b in s.calls && a != b && s.calls[a].pc.Claiming? && s.calls[a].pc.pos < |s.calls[a].lines| &&
    var waiting, line := s.calls[a], s.calls[a].lines[s.calls[a].pc.pos];
    match waiting.pc.stage
    case Inserting => line.sku in s.stock && s.calls[b].order == waiting.order && HoldsKey(s.calls[b], line.sku)
    case Taking => CanTake(s.stock, line) && HoldsRow(s.calls[b], line.sku)
  }

  /** The next lock b needs comes after the next lock a needs, or b needs no more locks. */
  ghost predicate Behind(a: Call, b: Call)
  {
    && a.pc.Claiming? && b.pc.Claiming? && a.pc.pos < |a.lines|
    && (b.pc.pos < |b.lines| ==>
          var mine, theirs := a.lines[a.pc.pos].sku, b.lines[b.pc.pos].sku;
          Before(mine, theirs) || (mine == theirs && a.pc.stage == Inserting && b.pc.stage == Taking))
  }

  lemma BehindTransitive(a: Call, b: Call, c: Call)
    requires Behind(a, b) && Behind(b, c)
    ensures Behind(a, c)
  {
    if c.pc.pos < |c.lines| {
      var x, y, z := a.lines[a.pc.pos].sku, b.lines[b.pc.pos].sku, c.lines[c.pc.pos].sku;
      if Before(x, y) && Before(y, z) { BeforeTransitive(x, y, z); }
    }
  }

  lemma BehindIrreflexive(a: Call)
    ensures !Behind(a, a)
  {
    if Behind(a, a) { BeforeIrreflexive(a.lines[a.pc.pos].sku); }
  }

  lemma WaitersAreBehind(s: State, a: CallId, b: CallId)
    requires CallsOk(s) && WaitsFor(s, a, b)
    ensures Behind(s.calls[a], s.calls[b])
  {
    assert CallOk(s, s.calls[b]);
  }

  /** No cycle in the wait-for graph: following it never comes back to where it started. */
  lemma {:induction false} NoDeadlock(s: State, path: seq<CallId>)
    requires CallsOk(s) && |path| > 1
    requires forall i :: 0 < i < |path| ==> WaitsFor(s, path[i - 1], path[i])
    ensures path[0] != path[|path| - 1]
    ensures path[0] in s.calls && path[|path| - 1] in s.calls
    ensures Behind(s.calls[path[0]], s.calls[path[|path| - 1]])
  {
    var last := |path| - 1;
    assert WaitsFor(s, path[last - 1], path[last]);
    WaitersAreBehind(s, path[last - 1], path[last]);
    if last > 1 {
      NoDeadlock(s, path[..last]);
      BehindTransitive(s.calls[path[0]], s.calls[path[last - 1]], s.calls[path[last]]);
    }
    BehindIrreflexive(s.calls[path[0]]);
  }

  /** Among any claims there is one that is behind none of them. */
  lemma {:induction false} Foremost(s: State, claims: set<CallId>) returns (first: CallId)
    requires claims != {} && claims <= s.calls.Keys
    ensures first in claims && forall other :: other in claims ==> !Behind(s.calls[first], s.calls[other])
    decreases |claims|
  {
    var pick :| pick in claims;
    BehindIrreflexive(s.calls[pick]);
    first := pick;
    if claims != {pick} {
      assert claims - {pick} != {};
      var rest := Foremost(s, claims - {pick});
      if Behind(s.calls[rest], s.calls[pick]) {
        forall other | other in claims ensures !Behind(s.calls[pick], s.calls[other]) {
          if Behind(s.calls[pick], s.calls[other]) {
            BehindTransitive(s.calls[rest], s.calls[pick], s.calls[other]);
          }
        }
      } else {
        first := rest;
      }
    }
  }

  /** While a call is unfinished, some call can take its next step without being cut short. */
  lemma SomeCallCanStep(s: State)
    requires CallsOk(s) && exists id :: id in s.calls && !s.calls[id].pc.Done?
    ensures exists id, a, s' :: CallStep(s, id, a, s') && !a.Abort?
  {
    var id :| id in s.calls && !s.calls[id].pc.Done?;
    var claims := set c | c in s.calls && s.calls[c].pc.Claiming?;
    if s.calls[id].pc.Finding? {
      var s' := Moved(s, id, AfterFind(HeldBy(s.reservations, s.calls[id].order), s.calls[id]));
      assert CallStep(s, id, Find, s');
    } else if s.calls[id].pc.Describing? {
      var s' := Moved(s, id, Done(Described(s.stock, s.calls[id], false)));
      assert CallStep(s, id, Describe(false), s');
    } else {
      assert id in claims;
      var first := Foremost(s, claims);
      ForemostCanStep(s, first);
    }
  }

  lemma ForemostCanStep(s: State, id: CallId)
    requires CallsOk(s) && id in s.calls && s.calls[id].pc.Claiming?
    requires forall other :: other in s.calls && s.calls[other].pc.Claiming? ==> !Behind(s.calls[id], s.calls[other])
    ensures exists a, s' :: CallStep(s, id, a, s') && !a.Abort?
  {
    var call := s.calls[id];
    forall other ensures !WaitsFor(s, id, other) {
      if WaitsFor(s, id, other) { WaitersAreBehind(s, id, other); }
    }
    assert CallOk(s, call);
    if call.pc.pos == |call.lines| {
      CommitEnabled(s, id);
    } else if call.pc.stage == Inserting {
      InsertEnabled(s, id);
    } else {
      TakeEnabled(s, id);
    }
  }

  lemma CommitEnabled(s: State, id: CallId)
    requires id in s.calls && s.calls[id].pc.Claiming? && s.calls[id].pc.pos == |s.calls[id].lines|
    ensures exists s' :: CallStep(s, id, Commit(false), s')
  {
    var call := s.calls[id];
    var s' := State(Charged(s.stock, Basket(call.lines)), Held(s.reservations, call.order, Basket(call.lines)),
      s.calls[id := call.(pc := Done(Reserved), committed := true)]);
    assert CallStep(s, id, Commit(false), s');
  }

  lemma InsertEnabled(s: State, id: CallId)
    requires id in s.calls && AtLine(s.calls[id], Inserting) && forall other :: !WaitsFor(s, id, other)
    ensures exists s' :: CallStep(s, id, Insert, s')
  {
    var call := s.calls[id];
    var sku := call.lines[call.pc.pos].sku;
    if sku in s.stock && KeyLocked(s, id, call.order, sku) {
      var other :| other in s.calls && other != id && s.calls[other].order == call.order && HoldsKey(s.calls[other], sku);
      assert WaitsFor(s, id, other);
    }
    var s' := Moved(s, id,
      if sku !in s.stock then Describing(UnknownProduct)
      else if sku in HeldBy(s.reservations, call.order) then AfterConflict(call.pc.pass)
      else call.pc.(stage := Taking));
    assert CallStep(s, id, Insert, s');
  }

  lemma TakeEnabled(s: State, id: CallId)
    requires id in s.calls && AtLine(s.calls[id], Taking) && forall other :: !WaitsFor(s, id, other)
    ensures exists s' :: CallStep(s, id, Take, s')
  {
    var call := s.calls[id];
    var line := call.lines[call.pc.pos];
    if CanTake(s.stock, line) && RowLocked(s, id, line.sku) {
      var other :| other in s.calls && other != id && HoldsRow(s.calls[other], line.sku);
      assert WaitsFor(s, id, other);
    }
    var s' := Moved(s, id,
      if CanTake(s.stock, line) then Claiming(call.pc.pass, call.pc.pos + 1, Inserting) else Describing(ShortOfStock));
    assert CallStep(s, id, Take, s');
  }

  // ----- termination

  function PassWork(call: Call): nat { 2 * |call.lines| + 4 }

  /** An upper bound on the steps a call has left. */
  function Work(call: Call): int
  {
    match call.pc
    case Finding(pass) => if pass == 0 then PassWork(call) + PassWork(call) else PassWork(call)
    case Claiming(pass, pos, stage) =>
      (if pass == 0 then PassWork(call) else 0) + 2 * (|call.lines| - pos) + (if stage == Inserting then 3 else 2)
    case Describing(_) => 1
    case Done(_) => 0
  }

  ghost function Remaining(s: State): int
  {
    Total(map id | id in s.calls :: Work(s.calls[id]))
  }

  lemma StepsUseUpWork(s: State, id: CallId, a: Action, s': State)
    requires CallsOk(s) && CallStep(s, id, a, s')
    ensures id in s'.calls && s'.calls == s.calls[id := s'.calls[id]]
    ensures Work(s'.calls[id]) < Work(s.calls[id])
  {
    assert CallOk(s, s.calls[id]);
  }

  lemma RemainingDecreases(s: State, id: CallId, a: Action, s': State)
    requires CallsOk(s) && CallStep(s, id, a, s')
    ensures Remaining(s') < Remaining(s)
  {
    StepsUseUpWork(s, id, a, s');
    var before := map c | c in s.calls :: Work(s.calls[c]);
    var after := map c | c in s'.calls :: Work(s'.calls[c]);
    assert after == before[id := Work(s'.calls[id])];
    TotalUpdate(before, id, Work(s'.calls[id]));
  }

  lemma RemainingNonNegative(s: State)
    requires CallsOk(s)
    ensures Remaining(s) >= 0
  {
    var work := map c | c in s.calls :: Work(s.calls[c]);
    forall c | c in work ensures work[c] >= 0 { assert CallOk(s, s.calls[c]); }
    TotalNonNegative(work);
  }

  ghost predicate SomeCallSteps(s: State, s': State)
  {
    exists id, a :: CallStep(s, id, a, s')
  }

  ghost predicate SomeCallStepsAt(run: seq<State>, i: int)
  {
    0 < i < |run| && SomeCallSteps(run[i - 1], run[i])
  }

  lemma OneStepCloser(s: State, s': State)
    requires Inv(s) && SomeCallSteps(s, s')
    ensures Inv(s') && Remaining(s') < Remaining(s)
  {
    var id, a :| CallStep(s, id, a, s');
    RemainingDecreases(s, id, a, s');
    NextKeepsInv(s, id, a, s');
  }

  /** A step of a call that has started, or of the warehouse. */
  ghost predicate NothingStarts(s: State, s': State)
  {
    SomeCallSteps(s, s') || exists sku, onHand :: SetOnHandStep(s, sku, onHand, s')
  }

  ghost predicate NothingStartsAt(run: seq<State>, i: int)
  {
    0 < i < |run| && NothingStarts(run[i - 1], run[i])
  }

  /** The steps of calls in a run: the warehouse's steps leave the calls alone. */
  ghost function CallStepsIn(run: seq<State>): nat
  {
    if |run| < 2 then 0
    else CallStepsIn(run[..|run| - 1]) + if run[|run| - 1].calls != run[|run| - 2].calls then 1 else 0
  }

  /** Every step of a call counts: it changes the calls. */
  lemma CallStepsCount(s: State, s': State)
    requires Inv(s) && SomeCallSteps(s, s')
    ensures s'.calls != s.calls
  {
    var id, a :| CallStep(s, id, a, s');
    StepsUseUpWork(s, id, a, s');
  }

  lemma StepComesCloser(s: State, s': State)
    requires Inv(s) && NothingStarts(s, s')
    ensures Inv(s') && Remaining(s') + (if s'.calls != s.calls then 1 else 0) <= Remaining(s)
  {
    if SomeCallSteps(s, s') {
      OneStepCloser(s, s');
    } else {
      var sku, onHand :| SetOnHandStep(s, sku, onHand, s');
      assert Next(s, 0, SetOnHand(sku, onHand), s');
      NextKeepsInv(s, 0, SetOnHand(sku, onHand), s');
    }
  }

  /**
   * However the calls of a state are interleaved, with each other and with the
   * warehouse, they are finished after Remaining of their steps.
   */
  lemma {:induction false} EveryClaimEnds(run: seq<State>)
    requires run != [] && Inv(run[0])
    requires forall i {:trigger NothingStartsAt(run, i)} :: 0 < i < |run| ==> NothingStartsAt(run, i)
    ensures CallStepsIn(run) <= Remaining(run[0])
    ensures Inv(run[|run| - 1]) && CallStepsIn(run) + Remaining(run[|run| - 1]) <= Remaining(run[0])
    decreases |run|
  {
    var last := |run| - 1;
    if last > 0 {
      forall i | 0 < i < last ensures NothingStartsAt(run[..last], i) { assert NothingStartsAt(run, i); }
      EveryClaimEnds(run[..last]);
      assert NothingStartsAt(run, last);
      StepComesCloser(run[last - 1], run[last]);
    }
    RemainingNonNegative(run[last]);
  }
}
