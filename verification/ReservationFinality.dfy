/**
 * When a refusal is final. A refused claim leaves nothing behind, and as long as nothing
 * is added to the products of its basket, their free stock only falls, so no later or
 * delayed call for the same basket can commit either. ReservationWitnesses shows that
 * the condition is exact.
 */
module ReservationFinality {
  import opened Collections
  import opened Skus
  import opened Baskets
  import opened StockTables
  import opened ReservationRuns
  import opened ReservationSafety
  import opened ReservationTheorems

  /** Nothing of these products is added: none that was not known, and no more of those that were. */
  ghost predicate NoRestockOf(s: State, s': State, skus: set<Sku>)
  {
    forall sku :: sku in skus && sku in s'.stock ==> sku in s.stock && s'.stock[sku].onHand <= s.stock[sku].onHand
  }

  /** The statement that refuses a claim. */
  ghost predicate Refuses(s: State, id: CallId, s': State, cause: Refusal)
  {
    id in s.calls && s.calls[id].pc.Claiming? && id in s'.calls && s'.calls[id].pc == Describing(cause)
  }

  ghost predicate RefusesAt(run: seq<State>, m: nat, id: CallId, cause: Refusal)
  {
    0 < m < |run| && Refuses(run[m - 1], id, run[m], cause)
  }

  ghost predicate RefusedFor(call: Call, cause: Refusal)
  {
    call.pc == Describing(cause) || call.pc == Done(Refused(cause))
  }

  ghost predicate Lacks(stock: Stock, lines: seq<Line>, cause: Refusal)
  {
    exists i :: 0 <= i < |lines| &&
      (cause == UnknownProduct ==> lines[i].sku !in stock) &&
      (cause == ShortOfStock ==> lines[i].sku in stock && !CanTake(stock, lines[i]))
  }

  ghost predicate NothingCommitted(s: State, order: OrderId, lines: seq<Line>)
  {
    forall id :: id in s.calls && s.calls[id].order == order && s.calls[id].lines == lines ==> !s.calls[id].committed
  }

  /** What stays true once a basket was refused: it cannot be filled, and no call has committed it. */
  ghost predicate Settled(s: State, order: OrderId, lines: seq<Line>, cause: Refusal)
  {
    Lacks(s.stock, lines, cause) && NothingCommitted(s, order, lines)
  }

  // ----- one step

  lemma StockOnlyShrinks(s: State, actor: CallId, a: Action, s': State, skus: set<Sku>)
    requires Inv(s) && Next(s, actor, a, s') && NoRestockOf(s, s', skus)
    ensures forall sku :: sku in skus ==> (sku in s.stock <==> sku in s'.stock)
    ensures forall sku :: sku in skus && sku in s.stock ==> s'.stock[sku].Free() <= s.stock[sku].Free()
  {
    if a.Commit? { ReadyToCommit(s, actor); }
  }

  lemma LacksForever(s: State, s': State, lines: seq<Line>, cause: Refusal)
    requires Lacks(s.stock, lines, cause)
    requires forall sku :: sku in Basket(lines) ==> (sku in s.stock <==> sku in s'.stock)
    requires forall sku :: sku in Basket(lines) && sku in s.stock ==> s'.stock[sku].Free() <= s.stock[sku].Free()
    ensures Lacks(s'.stock, lines, cause)
  {
    var i :| 0 <= i < |lines| && (cause == UnknownProduct ==> lines[i].sku !in s.stock)
      && (cause == ShortOfStock ==> lines[i].sku in s.stock && !CanTake(s.stock, lines[i]));
    BasketKeys(lines, lines[i].sku);
  }

  /** Only a basket that lacks nothing is committed. */
  lemma CommitsAreFillable(s: State, actor: CallId, a: Action, s': State)
    requires Inv(s) && Next(s, actor, a, s') && a.Commit?
    ensures forall i :: 0 <= i < |s.calls[actor].lines| ==> CanTake(s.stock, s.calls[actor].lines[i])
  {
    var call := s.calls[actor];
    assert CallOk(s, call);
    forall i | 0 <= i < |call.lines| ensures CanTake(s.stock, call.lines[i]) {
      assert Secured(s, call.order, call.lines[i]);
    }
  }

  lemma NothingCommittedForever(
    s: State, actor: CallId, a: Action, s': State, order: OrderId, lines: seq<Line>, cause: Refusal)
    requires Inv(s) && Next(s, actor, a, s') && Settled(s, order, lines, cause)
    ensures NothingCommitted(s', order, lines)
  {
    CallsPersist(s, actor, a, s');
    forall id | id in s'.calls && s'.calls[id].order == order && s'.calls[id].lines == lines
      ensures !s'.calls[id].committed
    {
      if s'.calls[id].committed {
        OnlyCommitCommits(s, actor, a, s', id);
        CommitsAreFillable(s, actor, a, s');
      }
    }
  }

  lemma OnlyCommitCommits(s: State, actor: CallId, a: Action, s': State, id: CallId)
    requires Next(s, actor, a, s') && id in s'.calls && s'.calls[id].committed
    requires id in s.calls ==> !s.calls[id].committed
    ensures id == actor && a.Commit? && id in s.calls
  {
  }

  lemma OnlyItsOwnStatementRefuses(s: State, actor: CallId, a: Action, s': State, id: CallId, cause: Refusal)
    requires Next(s, actor, a, s') && Refuses(s, id, s', cause)
    ensures actor == id && CallStep(s, id, a, s') && s'.stock == s.stock && s'.calls == s.calls[id := s'.calls[id]]
    ensures s'.calls[id].order == s.calls[id].order && s'.calls[id].lines == s.calls[id].lines
    ensures s'.calls[id].committed == s.calls[id].committed
  {
  }

  /** When a statement refuses, nothing of its basket is held: the transaction owned its first key. */
  lemma RefusalStarts(s: State, id: CallId, a: Action, s': State, cause: Refusal)
    requires Inv(s) && id in s.calls && s.calls[id].pc.Claiming? && CallStep(s, id, a, s')
    requires s'.calls[id].pc == Describing(cause) && OneBasket(s, s.calls[id].order)
    ensures Settled(s, s.calls[id].order, s.calls[id].lines, cause)
  {
    var call := s.calls[id];
    assert CallOk(s, call);
    var line := call.lines[call.pc.pos];
    assert line.sku !in HeldBy(s.reservations, call.order) by {
      if line.sku in HeldBy(s.reservations, call.order) { HeldIsStocked(s, call.order, line.sku); }
    }
    forall other | other in s.calls && s.calls[other].order == call.order && s.calls[other].lines == call.lines
      ensures !s.calls[other].committed
    {
      if s.calls[other].committed { CommittedLineIsHeld(s, other, call.pc.pos); }
    }
  }

  lemma RefusalSettles(s: State, s': State, id: CallId, cause: Refusal)
    requires Inv(s) && Step(s, s') && Refuses(s, id, s', cause) && OneBasket(s, s.calls[id].order)
    ensures s'.calls[id].order == s.calls[id].order && s'.calls[id].lines == s.calls[id].lines
    ensures Settled(s', s.calls[id].order, s.calls[id].lines, cause)
  {
    var actor, a :| Next(s, actor, a, s');
    OnlyItsOwnStatementRefuses(s, actor, a, s', id, cause);
    RefusalStarts(s, id, a, s', cause);
  }

  lemma StepKeepsSettled(s: State, s': State, order: OrderId, lines: seq<Line>, cause: Refusal)
    requires Inv(s) && Step(s, s') && Settled(s, order, lines, cause) && NoRestockOf(s, s', Basket(lines).Keys)
    ensures Settled(s', order, lines, cause)
  {
    var actor, a :| Next(s, actor, a, s');
    StockOnlyShrinks(s, actor, a, s', Basket(lines).Keys);
    LacksForever(s, s', lines, cause);
    NothingCommittedForever(s, actor, a, s', order, lines, cause);
  }

  lemma CommittedLineIsHeld(s: State, id: CallId, i: nat)
    requires CallsOk(s) && id in s.calls && s.calls[id].committed && i < |s.calls[id].lines|
    ensures s.calls[id].lines[i].sku in HeldBy(s.reservations, s.calls[id].order)
  {
    assert HoldsLine(s, s.calls[id], i);
  }

  lemma HeldIsStocked(s: State, order: OrderId, sku: Sku)
    requires Conserved(s.stock, s.reservations) && sku in HeldBy(s.reservations, order)
    ensures sku in s.stock
  {
  }

  /** The report names a cause that holds, or repeats the cause of the refusal. */
  lemma ReportedCauseHolds(s: State, id: CallId, queryFails: bool, s': State, cause: Refusal)
    requires id in s.calls && CallStep(s, id, Describe(queryFails), s') && s'.calls[id].pc == Done(Refused(cause))
    requires Lacks(s.stock, s.calls[id].lines, s.calls[id].pc.cause)
    ensures Lacks(s.stock, s.calls[id].lines, cause)
  {
  }

  lemma WhoIsRefused(s: State, actor: CallId, a: Action, s': State, id: CallId, cause: Refusal)
    requires Next(s, actor, a, s') && id in s'.calls && RefusedFor(s'.calls[id], cause)
    ensures id in s.calls
    ensures s'.calls[id] == s.calls[id] || s.calls[id].pc.Describing? || Refuses(s, id, s', cause)
  {
  }

  ghost predicate WasRefused(s: State, id: CallId)
  {
    id in s.calls && exists cause :: RefusedFor(s.calls[id], cause)
  }

  /** Who is told of a refusal was refused by a statement. */
  lemma RefusedByStatement(s: State, s': State, id: CallId, cause: Refusal)
    requires Step(s, s') && id in s'.calls && RefusedFor(s'.calls[id], cause)
    ensures Refuses(s, id, s', cause) || WasRefused(s, id)
  {
    var actor, a :| Next(s, actor, a, s');
    WhoIsRefused(s, actor, a, s', id, cause);
    if s.calls[id].pc.Describing? { assert RefusedFor(s.calls[id], s.calls[id].pc.cause); }
    else if s'.calls[id] == s.calls[id] { assert RefusedFor(s.calls[id], cause); }
  }

  lemma {:induction false} RefusedWasRefusing(run: seq<State>, n: nat, id: CallId, cause: Refusal) returns (m: nat, first: Refusal)
    requires IsRun(run) && n < |run| && id in run[n].calls && RefusedFor(run[n].calls[id], cause)
    ensures m <= n && RefusesAt(run, m, id, first)
  {
    m, first := n, cause;
    if !RefusesAt(run, n, id, cause) {
      assert n > 0;
      assert WasRefused(run[n - 1], id) by {
        assert StepAt(run, n);
        RefusedByStatement(run[n - 1], run[n], id, cause);
      }
      var before :| RefusedFor(run[n - 1].calls[id], before);
      m, first := RefusedWasRefusing(run, n - 1, id, before);
    }
  }

  // ----- every run

  lemma {:induction false} OneBasketThroughout(run: seq<State>, m: nat, n: nat, order: OrderId)
    requires IsRun(run) && m <= n < |run| && OneBasket(run[n], order)
    ensures OneBasket(run[m], order)
    decreases n - m
  {
    if m < n {
      assert OneBasketBefore(run[n - 1], run[n], order) by {
        assert StepAt(run, n);
        var actor, a :| Next(run[n - 1], actor, a, run[n]);
        CallsPersist(run[n - 1], actor, a, run[n]);
      }
      OneBasketThroughout(run, m, n - 1, order);
    }
  }

  ghost predicate NoRestockSince(run: seq<State>, m: nat, n: nat, skus: set<Sku>)
  {
    n < |run| && forall i :: m < i <= n ==> NoRestockOf(run[i - 1], run[i], skus)
  }

  lemma {:induction false} RefusalStaysSettled(run: seq<State>, m: nat, n: nat, id: CallId, cause: Refusal)
    requires IsRun(run) && m <= n < |run| && RefusesAt(run, m, id, cause) && OneBasket(run[n], run[m].calls[id].order)
    requires NoRestockSince(run, m, n, Basket(run[m].calls[id].lines).Keys)
    ensures Settled(run[n], run[m].calls[id].order, run[m].calls[id].lines, cause)
    decreases n - m
  {
    var order, lines := run[m].calls[id].order, run[m].calls[id].lines;
    if m < n {
      OneBasketThroughout(run, n - 1, n, order);
      RefusalStaysSettled(run, m, n - 1, id, cause);
      RunKeepsInv(run, n - 1);
      assert Settled(run[n], order, lines, cause) by {
        assert StepAt(run, n);
        StepKeepsSettled(run[n - 1], run[n], order, lines, cause);
      }
    } else {
      RunKeepsInv(run, m - 1);
      assert Step(run[m - 1], run[m]) by { assert StepAt(run, m); }
      var before := run[m - 1].calls[id].order;
      assert before == order by { RefusalKeepsOrder(run[m - 1], run[m], id, cause); }
      OneBasketThroughout(run, m - 1, m, order);
      RefusalSettles(run[m - 1], run[m], id, cause);
    }
  }

  lemma RefusalKeepsOrder(s: State, s': State, id: CallId, cause: Refusal)
    requires Step(s, s') && Refuses(s, id, s', cause)
    ensures s'.calls[id].order == s.calls[id].order
  {
    var actor, a :| Next(s, actor, a, s');
    OnlyItsOwnStatementRefuses(s, actor, a, s', id, cause);
  }

  /**
   * A refusal is final for as long as nothing is added to its own products: from the
   * statement that refuses on, the basket cannot be filled, and no call for the order,
   * first or repeated, early or late, holds anything or has committed.
   */
  lemma RefusalIsFinal(run: seq<State>, m: nat, n: nat, id: CallId, cause: Refusal)
    requires IsRun(run) && m <= n < |run| && RefusesAt(run, m, id, cause) && OneBasket(run[n], run[m].calls[id].order)
    requires NoRestockSince(run, m, n, Basket(run[m].calls[id].lines).Keys)
    ensures HeldBy(run[n].reservations, run[m].calls[id].order) == map[]
    ensures Lacks(run[n].stock, run[m].calls[id].lines, cause)
  {
    RefusalStaysSettled(run, m, n, id, cause);
    RunKeepsInv(run, n);
    CallKeepsLines(run, m, n, id);
    UncommittedHoldsNothing(run[n], id);
  }

  lemma {:induction false} CallKeepsLines(run: seq<State>, m: nat, n: nat, id: CallId)
    requires IsRun(run) && m <= n < |run| && id in run[m].calls
    ensures id in run[n].calls && run[n].calls[id].order == run[m].calls[id].order
    ensures run[n].calls[id].lines == run[m].calls[id].lines
    decreases n - m
  {
    if m < n {
      CallKeepsLines(run, m, n - 1, id);
      assert LinesKept(run[n - 1], run[n]) by {
        assert StepAt(run, n);
        var actor, a :| Next(run[n - 1], actor, a, run[n]);
        CallsKeepLines(run[n - 1], actor, a, run[n]);
      }
    }
  }

  lemma UncommittedHoldsNothing(s: State, id: CallId)
    requires Accounted(s) && id in s.calls && NothingCommitted(s, s.calls[id].order, s.calls[id].lines)
    requires OneBasket(s, s.calls[id].order)
    ensures HeldBy(s.reservations, s.calls[id].order) == map[]
  {
    var held := HeldBy(s.reservations, s.calls[id].order);
    forall sku ensures sku !in held {}
    assert held == map[];
  }

  ghost predicate OneBasketEach(s: State)
  {
    forall id :: id in s.calls ==> OneBasket(s, s.calls[id].order)
  }
}
