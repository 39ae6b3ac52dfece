/**
 * What every step of the interleaved claims keeps: exclusive locks, conservation of
 * stock, and whole baskets only.
 */
module ReservationSafety {
  import opened Collections
  import opened Skus
  import opened Baskets
  import opened StockTables
  import opened ReservationRuns

  /** A line that has passed both of its statements stays fillable until the commit. */
  ghost predicate Secured(s: State, order: OrderId, line: Line)
  {
    CanTake(s.stock, line) && line.sku !in HeldBy(s.reservations, order)
  }

  ghost predicate PcOk(s: State, call: Call)
  {
    match call.pc
    case Finding(pass) => pass < CLAIM_ATTEMPTS && (pass > 0 ==> HeldBy(s.reservations, call.order) != map[])
    case Claiming(pass, pos, stage) =>
      && pass == 0
      && pos <= |call.lines|
      && (stage == Taking ==> pos < |call.lines| && call.lines[pos].sku in s.stock
                              && call.lines[pos].sku !in HeldBy(s.reservations, call.order))
      && forall j :: 0 <= j < pos ==> Secured(s, call.order, call.lines[j])
    case Describing(_) => true
    case Done(verdict) => verdict != GaveUp && (verdict == Reserved ==> call.committed)
  }

  ghost predicate CallOk(s: State, call: Call)
  {
    && IsCanonical(call.lines)
    && PcOk(s, call)
    && (call.committed ==> call.pc.Done? && forall i :: 0 <= i < |call.lines| ==> HoldsLine(s, call, i))
    && (call.pc == Done(AlreadyHeld) || call.pc == Done(Mismatch) ==> HeldBy(s.reservations, call.order) != map[])
  }

  ghost predicate HoldsLine(s: State, call: Call, i: nat)
    requires i < |call.lines|
  {
    var held := HeldBy(s.reservations, call.order);
    call.lines[i].sku in held && held[call.lines[i].sku] == call.lines[i].quantity
  }

  ghost predicate CallsOk(s: State)
  {
    forall id :: id in s.calls ==> CallOk(s, s.calls[id])
  }

  /** No lock is held twice. */
  ghost predicate Exclusive(s: State)
  {
    forall a, b, sku :: a in s.calls && b in s.calls && a != b ==>
      && !(HoldsRow(s.calls[a], sku) && HoldsRow(s.calls[b], sku))
      && !(s.calls[a].order == s.calls[b].order && HoldsKey(s.calls[a], sku) && HoldsKey(s.calls[b], sku))
  }

  ghost predicate CommittedWith(s: State, id: CallId, order: OrderId, sku: Sku)
  {
    id in s.calls && s.calls[id].committed && s.calls[id].order == order
    && exists i :: 0 <= i < |s.calls[id].lines| && s.calls[id].lines[i].sku == sku
  }

  /** Every reservation row belongs to a call that committed its whole basket. */
  ghost predicate Accounted(s: State)
  {
    forall order, sku :: sku in HeldBy(s.reservations, order) ==> exists id :: CommittedWith(s, id, order, sku)
  }

  /** Two calls that both committed for one order had no product in common. */
  ghost predicate Disjoint(s: State)
  {
    forall a, b, order, sku :: CommittedWith(s, a, order, sku) && CommittedWith(s, b, order, sku) ==> a == b
  }

  ghost predicate Inv(s: State)
  {
    CallsOk(s) && Exclusive(s) && Conserved(s.stock, s.reservations) && Accounted(s) && Disjoint(s)
  }

  // ----- steps that only move a program counter

  /** Moving one call keeps every statement about the tables and about the other calls. */
  lemma MoveKeepsTables(s: State, id: CallId, pc: Pc)
    requires CallsOk(s) && Accounted(s) && Disjoint(s) && id in s.calls
    requires CallOk(s, s.calls[id].(pc := pc))
    ensures CallsOk(Moved(s, id, pc)) && Accounted(Moved(s, id, pc)) && Disjoint(Moved(s, id, pc))
  {
    var s' := Moved(s, id, pc);
    forall other | other in s'.calls ensures CallOk(s', s'.calls[other]) {
      SameTables(s, s', s'.calls[other]);
    }
    forall order, sku | sku in HeldBy(s'.reservations, order) ensures exists o :: CommittedWith(s', o, order, sku) {
      var o :| CommittedWith(s, o, order, sku);
      assert CommittedWith(s', o, order, sku);
    }
    forall a, b, order, sku | CommittedWith(s', a, order, sku) && CommittedWith(s', b, order, sku) ensures a == b {
      assert CommittedWith(s, a, order, sku) && CommittedWith(s, b, order, sku);
    }
  }

  lemma SameTables(s: State, s': State, call: Call)
    requires s'.stock == s.stock && s'.reservations == s.reservations && CallOk(s, call)
    ensures CallOk(s', call)
  {
    if call.committed {
      forall i | 0 <= i < |call.lines| ensures HoldsLine(s', call, i) { assert HoldsLine(s, call, i); }
    }
  }

  /** A call that gives locks up, or takes none, keeps them exclusive. */
  lemma ReleaseKeepsExclusive(s: State, id: CallId, pc: Pc)
    requires Exclusive(s) && id in s.calls
    requires forall sku :: HoldsKey(s.calls[id].(pc := pc), sku) ==> HoldsKey(s.calls[id], sku)
    requires forall sku :: HoldsRow(s.calls[id].(pc := pc), sku) ==> HoldsRow(s.calls[id], sku)
    ensures Exclusive(Moved(s, id, pc))
  {
  }

  lemma InsertTakesFreeKey(s: State, id: CallId)
    requires Exclusive(s) && id in s.calls && AtLine(s.calls[id], Inserting)
    requires !KeyLocked(s, id, s.calls[id].order, s.calls[id].lines[s.calls[id].pc.pos].sku)
    ensures Exclusive(Moved(s, id, s.calls[id].pc.(stage := Taking)))
  {
    var call := s.calls[id];
    var next := call.(pc := call.pc.(stage := Taking));
    forall sku ensures HoldsKey(next, sku) ==> HoldsKey(call, sku) || sku == call.lines[call.pc.pos].sku {}
    forall sku ensures HoldsRow(next, sku) ==> HoldsRow(call, sku) {}
  }

  lemma TakeTakesFreeRow(s: State, id: CallId)
    requires Exclusive(s) && id in s.calls && AtLine(s.calls[id], Taking)
    requires !RowLocked(s, id, s.calls[id].lines[s.calls[id].pc.pos].sku)
    ensures Exclusive(Moved(s, id, Claiming(s.calls[id].pc.pass, s.calls[id].pc.pos + 1, Inserting)))
  {
    var call := s.calls[id];
    var next := call.(pc := Claiming(call.pc.pass, call.pc.pos + 1, Inserting));
    forall sku ensures HoldsKey(next, sku) ==> HoldsKey(call, sku) {}
    forall sku ensures HoldsRow(next, sku) ==> HoldsRow(call, sku) || sku == call.lines[call.pc.pos].sku {}
  }

  lemma MoveKeepsInv(s: State, id: CallId, pc: Pc)
    requires Inv(s) && id in s.calls
    requires CallOk(s, s.calls[id].(pc := pc)) && Exclusive(Moved(s, id, pc))
    ensures Inv(Moved(s, id, pc))
  {
    MoveKeepsTables(s, id, pc);
  }

  lemma FindKeepsInv(s: State, id: CallId, s': State)
    requires Inv(s) && CallStep(s, id, Find, s')
    ensures Inv(s')
  {
    var pc := AfterFind(HeldBy(s.reservations, s.calls[id].order), s.calls[id]);
    ReleaseKeepsExclusive(s, id, pc);
    MoveKeepsInv(s, id, pc);
  }

  lemma InsertKeepsInv(s: State, id: CallId, s': State)
    requires Inv(s) && CallStep(s, id, Insert, s')
    ensures Inv(s')
  {
    var call := s.calls[id];
    var line := call.lines[call.pc.pos];
    if line.sku !in s.stock {
      ReleaseKeepsExclusive(s, id, Describing(UnknownProduct));
      MoveKeepsInv(s, id, Describing(UnknownProduct));
    } else if line.sku in HeldBy(s.reservations, call.order) {
      ReleaseKeepsExclusive(s, id, AfterConflict(call.pc.pass));
      MoveKeepsInv(s, id, AfterConflict(call.pc.pass));
    } else {
      InsertTakesFreeKey(s, id);
      MoveKeepsInv(s, id, call.pc.(stage := Taking));
    }
  }

  lemma TakeKeepsInv(s: State, id: CallId, s': State)
    requires Inv(s) && CallStep(s, id, Take, s')
    ensures Inv(s')
  {
    var call := s.calls[id];
    var line := call.lines[call.pc.pos];
    if !CanTake(s.stock, line) {
      ReleaseKeepsExclusive(s, id, Describing(ShortOfStock));
      MoveKeepsInv(s, id, Describing(ShortOfStock));
    } else {
      TakeTakesFreeRow(s, id);
      MoveKeepsInv(s, id, Claiming(call.pc.pass, call.pc.pos + 1, Inserting));
    }
  }

  lemma StopKeepsInv(s: State, id: CallId, pc: Pc)
    requires Inv(s) && id in s.calls && !s.calls[id].pc.Done?
    requires pc == Done(Failed) || (pc.Done? && pc.verdict.Refused?)
    ensures Inv(Moved(s, id, pc))
  {
    ReleaseKeepsExclusive(s, id, pc);
    MoveKeepsInv(s, id, pc);
  }

  lemma StartKeepsInv(s: State, id: CallId, order: OrderId, lines: seq<Line>, s': State)
    requires Inv(s) && StartStep(s, id, order, lines, s')
    ensures Inv(s')
  {
    forall other | other in s'.calls ensures CallOk(s', s'.calls[other]) {
      if other != id { SameTables(s, s', s.calls[other]); }
    }
    forall o, sku | sku in HeldBy(s'.reservations, o) ensures exists c :: CommittedWith(s', c, o, sku) {
      var c :| CommittedWith(s, c, o, sku);
      assert CommittedWith(s', c, o, sku);
    }
    forall a, b, o, sku | CommittedWith(s', a, o, sku) && CommittedWith(s', b, o, sku) ensures a == b {
      assert CommittedWith(s, a, o, sku) && CommittedWith(s, b, o, sku);
    }
  }

  lemma SetOnHandKeepsInv(s: State, sku: Sku, onHand: int, s': State)
    requires Inv(s) && SetOnHandStep(s, sku, onHand, s')
    ensures Inv(s')
  {
    if sku !in s.stock { UnstockedIsUnheld(s, sku); }
    forall id | id in s'.calls ensures CallOk(s', s'.calls[id]) {
      var call := s.calls[id];
      if call.pc.Claiming? {
        forall j | 0 <= j < call.pc.pos ensures Secured(s', call.order, call.lines[j]) {
          assert Secured(s, call.order, call.lines[j]);
          assert HoldsRow(call, call.lines[j].sku);
        }
      }
      forall i | call.committed && 0 <= i < |call.lines| ensures HoldsLine(s', call, i) {
        assert HoldsLine(s, call, i);
      }
    }
    forall o, k | k in HeldBy(s'.reservations, o) ensures exists c :: CommittedWith(s', c, o, k) {
      var c :| CommittedWith(s, c, o, k);
      assert CommittedWith(s', c, o, k);
    }
    forall a, b, o, k | CommittedWith(s', a, o, k) && CommittedWith(s', b, o, k) ensures a == b {
      assert CommittedWith(s, a, o, k) && CommittedWith(s, b, o, k);
    }
  }

  lemma NothingHeld(reservations: Reservations, sku: Sku)
    requires forall order :: order in reservations ==> sku !in reservations[order]
    ensures HeldOf(reservations, sku) == 0
  {
    TotalZero(map order | order in reservations :: Quantity(reservations[order], sku));
  }

  lemma UnstockedIsUnheld(s: State, sku: Sku)
    requires Conserved(s.stock, s.reservations) && sku !in s.stock
    ensures HeldOf(s.reservations, sku) == 0
  {
    NothingHeld(s.reservations, sku);
  }

  // ----- the commit

  /** At the commit every line of the basket is secured. */
  lemma ReadyToCommit(s: State, id: CallId)
    requires Inv(s) && id in s.calls && s.calls[id].pc.Claiming? && s.calls[id].pc.pos == |s.calls[id].lines|
    ensures var basket := Basket(s.calls[id].lines);
            && basket.Keys !! HeldBy(s.reservations, s.calls[id].order).Keys
            && (forall sku :: sku in basket ==>
                  basket[sku] > 0 && sku in s.stock && s.stock[sku].Free() >= basket[sku] && HoldsRow(s.calls[id], sku)
                  && HoldsKey(s.calls[id], sku))
  {
    var call := s.calls[id];
    var basket := Basket(call.lines);
    forall sku | sku in basket
      ensures basket[sku] > 0 && sku in s.stock && s.stock[sku].Free() >= basket[sku] && HoldsRow(call, sku)
              && HoldsKey(call, sku) && sku !in HeldBy(s.reservations, call.order)
    {
      var i := LineOf(call.lines, sku);
      assert Secured(s, call.order, call.lines[i]);
    }
  }

  /** Reading one order's rows back after a basket was inserted. */
  lemma HeldByAfter(reservations: Reservations, order: OrderId, basket: map<Sku, int>, o: OrderId)
    ensures HeldBy(Held(reservations, order, basket), o)
         == if o == order then HeldBy(reservations, order) + basket else HeldBy(reservations, o)
  {
  }

  /** A commit leaves alone what another call has secured, locked or committed. */
  lemma CommitKeepsOther(s: State, order: OrderId, basket: map<Sku, int>, s': State, call: Call)
    requires CallOk(s, call)
    requires s'.stock == Charged(s.stock, basket) && s'.reservations == Held(s.reservations, order, basket)
    requires basket.Keys !! HeldBy(s.reservations, order).Keys
    requires forall sku :: sku in basket ==> !HoldsRow(call, sku) && !(call.order == order && HoldsKey(call, sku))
    ensures CallOk(s', call)
  {
    HeldByAfter(s.reservations, order, basket, call.order);
    if call.pc.Claiming? {
      forall j | 0 <= j < call.pc.pos ensures Secured(s', call.order, call.lines[j]) {
        assert Secured(s, call.order, call.lines[j]);
        assert HoldsRow(call, call.lines[j].sku) && HoldsKey(call, call.lines[j].sku);
      }
      if call.pc.stage == Taking {
        assert HoldsKey(call, call.lines[call.pc.pos].sku);
      }
    }
    forall i | call.committed && 0 <= i < |call.lines| ensures HoldsLine(s', call, i) {
      assert HoldsLine(s, call, i);
    }
  }

  lemma CommitKeepsMine(s: State, id: CallId, replyLost: bool, s': State)
    requires CallsOk(s) && id in s.calls && CommitStep(s, id, replyLost, s')
    ensures CallOk(s', s'.calls[id])
  {
    var call := s.calls[id];
    HeldByAfter(s.reservations, call.order, Basket(call.lines), call.order);
    forall i | 0 <= i < |call.lines| ensures HoldsLine(s', s'.calls[id], i) {
      BasketLine(call.lines, i);
    }
  }

  lemma CommitAccounts(s: State, id: CallId, replyLost: bool, s': State)
    requires CallsOk(s) && Accounted(s) && id in s.calls && CommitStep(s, id, replyLost, s')
    ensures Accounted(s')
  {
    var call := s.calls[id];
    forall order, sku | sku in HeldBy(s'.reservations, order) ensures exists c :: CommittedWith(s', c, order, sku) {
      HeldByAfter(s.reservations, call.order, Basket(call.lines), order);
      if order == call.order && sku in Basket(call.lines) {
        BasketKeys(call.lines, sku);
        assert CommittedWith(s', id, order, sku);
      } else {
        var c :| CommittedWith(s, c, order, sku);
        assert CommittedWith(s', c, order, sku);
      }
    }
  }

  lemma CommitKeepsDisjoint(s: State, id: CallId, replyLost: bool, s': State)
    requires CallsOk(s) && Disjoint(s) && id in s.calls && CommitStep(s, id, replyLost, s')
    requires Basket(s.calls[id].lines).Keys !! HeldBy(s.reservations, s.calls[id].order).Keys
    ensures Disjoint(s')
  {
    forall a: CallId, b: CallId, order, sku | CommittedWith(s', a, order, sku) && CommittedWith(s', b, order, sku)
      ensures a == b
    {
      if a != id && b != id {
        assert CommittedWith(s, a, order, sku) && CommittedWith(s, b, order, sku);
      } else if a != b {
        var other := if a == id then b else a;
        assert CommittedWith(s, other, order, sku);
        CommittedIsHeld(s, other, order, sku);
        BasketKeys(s.calls[id].lines, sku);
      }
    }
  }

  lemma CommittedIsHeld(s: State, id: CallId, order: OrderId, sku: Sku)
    requires CallsOk(s) && CommittedWith(s, id, order, sku)
    ensures sku in HeldBy(s.reservations, order)
  {
    var i :| 0 <= i < |s.calls[id].lines| && s.calls[id].lines[i].sku == sku;
    assert HoldsLine(s, s.calls[id], i);
  }

  lemma CommitKeepsCalls(s: State, id: CallId, replyLost: bool, s': State)
    requires Inv(s) && id in s.calls && CommitStep(s, id, replyLost, s')
    ensures CallsOk(s')
  {
    ReadyToCommit(s, id);
    forall other | other in s'.calls ensures CallOk(s', s'.calls[other]) {
      if other == id { CommitKeepsMine(s, id, replyLost, s'); }
      else { CommitKeepsOther(s, s.calls[id].order, Basket(s.calls[id].lines), s', s.calls[other]); }
    }
  }

  lemma CommitKeepsInv(s: State, id: CallId, replyLost: bool, s': State)
    requires Inv(s) && id in s.calls && CommitStep(s, id, replyLost, s')
    ensures Inv(s')
  {
    ReadyToCommit(s, id);
    CommitConserves(s.stock, s.reservations, s.calls[id].order, Basket(s.calls[id].lines));
    CommitKeepsCalls(s, id, replyLost, s');
    CommitAccounts(s, id, replyLost, s');
    CommitKeepsDisjoint(s, id, replyLost, s');
    CommitKeepsExclusive(s, id, replyLost, s');
  }

  lemma CommitKeepsExclusive(s: State, id: CallId, replyLost: bool, s': State)
    requires Exclusive(s) && id in s.calls && CommitStep(s, id, replyLost, s')
    ensures Exclusive(s')
  {
  }

  // ----- every step, every run

  lemma NextKeepsInv(s: State, id: CallId, a: Action, s': State)
    requires Inv(s) && Next(s, id, a, s')
    ensures Inv(s')
  {
    match a
    case Start(order, lines) => StartKeepsInv(s, id, order, lines, s');
    case SetOnHand(sku, onHand) => SetOnHandKeepsInv(s, sku, onHand, s');
    case Find => FindKeepsInv(s, id, s');
    case Insert => InsertKeepsInv(s, id, s');
    case Take => TakeKeepsInv(s, id, s');
    case Commit(replyLost) => CommitKeepsInv(s, id, replyLost, s');
    case Describe(queryFails) => StopKeepsInv(s, id, Done(Described(s.stock, s.calls[id], queryFails)));
    case Abort => StopKeepsInv(s, id, Done(Failed));
  }

  lemma InitInv(s: State)
    requires Init(s)
    ensures Inv(s)
  {
    forall sku | sku in s.stock ensures HeldOf(s.reservations, sku) == 0 {
      NothingHeld(s.reservations, sku);
    }
  }
}
