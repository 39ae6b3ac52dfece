/**
 * The promises of ReserveStock, over every run of interleaved calls: conservation, whole
 * baskets, idempotency, and the retry bound. Deadlock freedom and termination are in
 * ReservationProgress.
 */
module ReservationTheorems {
  import opened Collections
  import opened Skus
  import opened Baskets
  import opened StockTables
  import opened ReservationRuns
  import opened ReservationSafety

  ghost predicate Step(s: State, s': State)
  {
    exists id, a :: Next(s, id, a, s')
  }

  /** One step of a run, as a term of its own: proofs name the step they look at. */
  ghost predicate StepAt(run: seq<State>, i: int)
  {
    0 < i < |run| && Step(run[i - 1], run[i])
  }

  ghost predicate IsRun(run: seq<State>)
  {
    run != [] && Init(run[0]) && forall i {:trigger StepAt(run, i)} :: 0 < i < |run| ==> StepAt(run, i)
  }

  lemma {:induction false} RunKeepsInv(run: seq<State>, n: nat)
    requires IsRun(run) && n < |run|
    ensures Inv(run[n])
  {
    if n == 0 {
      InitInv(run[0]);
    } else {
      RunKeepsInv(run, n - 1);
      assert Inv(run[n]) by {
        assert StepAt(run, n);
        StepKeepsInv(run[n - 1], run[n]);
      }
    }
  }

  lemma StepKeepsInv(s: State, s': State)
    requires Inv(s) && Step(s, s')
    ensures Inv(s')
  {
    var id, a :| Next(s, id, a, s');
    NextKeepsInv(s, id, a, s');
  }

  /** Stock conservation, for any number of orders and even for two calls that share an order id. */
  lemma StockIsConserved(run: seq<State>, n: nat, sku: Sku)
    requires IsRun(run) && n < |run| && sku in run[n].stock
    ensures var row := run[n].stock[sku];
            0 <= row.reserved <= row.onHand && row.reserved == HeldOf(run[n].reservations, sku)
  {
    RunKeepsInv(run, n);
  }

  /** All or nothing: whoever holds one row of an order holds the whole basket it came with. */
  lemma BasketsAreWhole(run: seq<State>, n: nat, order: OrderId, sku: Sku)
    requires IsRun(run) && n < |run| && sku in HeldBy(run[n].reservations, order)
    ensures exists id :: CommittedWith(run[n], id, order, sku) &&
              Basket(run[n].calls[id].lines).Items <= HeldBy(run[n].reservations, order).Items
  {
    RunKeepsInv(run, n);
    var id :| CommittedWith(run[n], id, order, sku);
    CommittedBasketIsHeld(run[n], id);
  }

  lemma CommittedBasketIsHeld(s: State, id: CallId)
    requires CallsOk(s) && id in s.calls && s.calls[id].committed
    ensures Basket(s.calls[id].lines).Items <= HeldBy(s.reservations, s.calls[id].order).Items
  {
    var call := s.calls[id];
    forall sku | sku in Basket(call.lines)
      ensures sku in HeldBy(s.reservations, call.order)
           && HeldBy(s.reservations, call.order)[sku] == Basket(call.lines)[sku]
    {
      var i := LineOf(call.lines, sku);
      assert HoldsLine(s, call, i);
    }
  }

  /**
   * How far sharing an order id can go wrong: two calls can both commit for one order
   * only if their baskets have no product in common. In particular, calls that repeat
   * one basket commit it at most once.
   */
  lemma CommitsForOneOrderAreDisjoint(run: seq<State>, n: nat, a: CallId, b: CallId)
    requires IsRun(run) && n < |run| && a in run[n].calls && b in run[n].calls && a != b
    requires run[n].calls[a].order == run[n].calls[b].order
    requires run[n].calls[a].committed && run[n].calls[b].committed
    ensures Basket(run[n].calls[a].lines).Keys !! Basket(run[n].calls[b].lines).Keys
  {
    RunKeepsInv(run, n);
    var s := run[n];
    forall sku | sku in Basket(s.calls[a].lines) && sku in Basket(s.calls[b].lines) ensures false {
      BasketKeys(s.calls[a].lines, sku);
      BasketKeys(s.calls[b].lines, sku);
      assert CommittedWith(s, a, s.calls[a].order, sku) && CommittedWith(s, b, s.calls[a].order, sku);
    }
  }

  // ----- one basket per order

  ghost predicate OneBasket(s: State, order: OrderId)
  {
    forall a, b :: a in s.calls && b in s.calls && s.calls[a].order == order && s.calls[b].order == order ==>
      s.calls[a].lines == s.calls[b].lines
  }

  lemma HeldIsWholeOrNothing(s: State, id: CallId)
    requires CallsOk(s) && Accounted(s) && id in s.calls && OneBasket(s, s.calls[id].order)
    ensures var held := HeldBy(s.reservations, s.calls[id].order);
            held == map[] || held == Basket(s.calls[id].lines)
  {
    var order, basket := s.calls[id].order, Basket(s.calls[id].lines);
    var held := HeldBy(s.reservations, order);
    if held != map[] {
      var sku :| sku in held;
      var winner :| CommittedWith(s, winner, order, sku);
      CommittedBasketIsHeld(s, winner);
      forall k | k in held ensures k in basket {
        var other :| CommittedWith(s, other, order, k);
        BasketKeys(s.calls[id].lines, k);
      }
      SameItems(basket, held);
    }
  }

  lemma SameItems(part: map<Sku, int>, whole: map<Sku, int>)
    requires part.Items <= whole.Items && whole.Keys <= part.Keys
    ensures part == whole
  {
    forall k | k in part ensures k in whole && whole[k] == part[k] {
      assert (k, part[k]) in part.Items;
    }
  }

  /**
   * Idempotency. While every call for an order asks for one basket, the order holds
   * nothing or exactly that basket, an accepted call, first or repeated, means it is
   * held in full, and no call is told that its basket differs.
   */
  lemma RepeatsHoldOneBasket(run: seq<State>, n: nat, id: CallId)
    requires IsRun(run) && n < |run| && id in run[n].calls && OneBasket(run[n], run[n].calls[id].order)
    ensures var call := run[n].calls[id];
            var held := HeldBy(run[n].reservations, call.order);
            && (held == map[] || held == Basket(call.lines))
            && (call.pc == Done(Reserved) || call.pc == Done(AlreadyHeld) ==> held == Basket(call.lines))
            && call.pc != Done(Mismatch)
  {
    var s, call := run[n], run[n].calls[id];
    RunKeepsInv(run, n);
    HeldIsWholeOrNothing(s, id);
    MismatchNeedsTwoBaskets(run, n, id);
    if call.committed { assert HoldsLine(s, call, 0); }
  }

  /** Repeats of one basket move stock at most once. */
  lemma RepeatsCommitOnce(run: seq<State>, n: nat, a: CallId, b: CallId)
    requires IsRun(run) && n < |run| && a in run[n].calls && b in run[n].calls
    requires run[n].calls[a].order == run[n].calls[b].order && OneBasket(run[n], run[n].calls[a].order)
    requires run[n].calls[a].committed && run[n].calls[b].committed
    ensures a == b
  {
    RunKeepsInv(run, n);
    assert CallOk(run[n], run[n].calls[a]);
    BasketLine(run[n].calls[a].lines, 0);
    if a != b { CommitsForOneOrderAreDisjoint(run, n, a, b); }
  }

  /** A call is told its basket differs only if another call for the order asked for another basket. */
  lemma {:induction false} MismatchNeedsTwoBaskets(run: seq<State>, n: nat, id: CallId)
    requires IsRun(run) && n < |run| && id in run[n].calls && OneBasket(run[n], run[n].calls[id].order)
    ensures run[n].calls[id].pc != Done(Mismatch)
  {
    if n > 0 {
      var s, s' := run[n - 1], run[n];
      RunKeepsInv(run, n - 1);
      if id in s.calls && OneBasket(s, s'.calls[id].order) && s.calls[id].order == s'.calls[id].order {
        MismatchNeedsTwoBaskets(run, n - 1, id);
      }
      assert s'.calls[id].pc != Done(Mismatch) by {
        assert StepAt(run, n);
        MismatchStep(s, s', id);
      }
    }
  }

  lemma MismatchStep(s: State, s': State, id: CallId)
    requires CallsOk(s) && Accounted(s) && Step(s, s') && id in s'.calls && OneBasket(s', s'.calls[id].order)
    requires id in s.calls && OneBasket(s, s'.calls[id].order) && s.calls[id].order == s'.calls[id].order ==>
               s.calls[id].pc != Done(Mismatch)
    ensures s'.calls[id].pc != Done(Mismatch)
  {
    var actor, a :| Next(s, actor, a, s');
    CallsPersist(s, actor, a, s');
    if id in s.calls {
      assert OneBasketBefore(s, s', s.calls[id].order);
      HeldIsWholeOrNothing(s, id);
      if s'.calls[id].pc == Done(Mismatch) { OnlyFindReportsMismatch(s, actor, a, s', id); }
    }
  }

  lemma OnlyFindReportsMismatch(s: State, actor: CallId, a: Action, s': State, id: CallId)
    requires Next(s, actor, a, s') && id in s.calls && id in s'.calls
    requires s'.calls[id].pc == Done(Mismatch) != s.calls[id].pc
    ensures HeldBy(s.reservations, s.calls[id].order) !in {map[], Basket(s.calls[id].lines)}
  {
  }

  ghost predicate OneBasketBefore(s: State, s': State, order: OrderId)
  {
    OneBasket(s', order) ==> OneBasket(s, order)
  }

  /** A call keeps its order and its lines for as long as it exists. */
  lemma CallsPersist(s: State, actor: CallId, a: Action, s': State)
    requires Next(s, actor, a, s')
    ensures forall id :: id in s.calls ==>
              id in s'.calls && s'.calls[id].order == s.calls[id].order && s'.calls[id].lines == s.calls[id].lines
    ensures forall order :: OneBasketBefore(s, s', order)
  {
    CallsKeepLines(s, actor, a, s');
    forall order ensures OneBasketBefore(s, s', order) { OneBasketInherited(s, s', order); }
  }

  ghost predicate LinesKept(s: State, s': State)
  {
    forall id :: id in s.calls ==>
      id in s'.calls && s'.calls[id].order == s.calls[id].order && s'.calls[id].lines == s.calls[id].lines
  }

  lemma CallsKeepLines(s: State, actor: CallId, a: Action, s': State)
    requires Next(s, actor, a, s')
    ensures LinesKept(s, s')
  {
  }

  lemma OneBasketInherited(s: State, s': State, order: OrderId)
    requires LinesKept(s, s')
    ensures OneBasketBefore(s, s', order)
  {
  }

  /** Two passes are enough: a call that lost its race always finds the winner. */
  lemma NeverGivesUp(run: seq<State>, n: nat, id: CallId)
    requires IsRun(run) && n < |run| && id in run[n].calls
    ensures run[n].calls[id].pc != Done(GaveUp)
    ensures run[n].calls[id].pc.Finding? && run[n].calls[id].pc.pass > 0 ==>
              HeldBy(run[n].reservations, run[n].calls[id].order) != map[]
  {
    RunKeepsInv(run, n);
    assert CallOk(run[n], run[n].calls[id]);
  }
}
