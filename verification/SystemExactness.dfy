/**
 * The conditions on the promises of the whole system are exact. At most one confirmation
 * per order holds under the timing rule if and only if the handle timeout fits the stored
 * lease, and a rejected order can come to hold stock if and only if something is added to
 * one of its own products.
 */
module SystemExactness {
  import opened Collections
  import opened Skus
  import opened Baskets
  import opened Canonical
  import opened OrderDomain
  import opened Pipeline
  import opened SystemRuns
  import opened SystemSafety
  import opened SystemTheorems
  import opened SystemWitness
  import Tables = StockTables
  import Orders = OrderRuns
  import Stock = ReservationRuns
  import Witnesses = ReservationWitnesses
  import Progress = ReservationProgress
  import Finality = ReservationFinality
  import Mail = NotificationRuns
  import MailTheorems = NotificationTheorems
  import Timing = NotificationTiming
  import Notifications

  // ----- at most one confirmation

  lemma IdleIsOnTime(env: Env, run: seq<State>)
    requires IdleRun(env, run)
    ensures OnTimeRun(env, run)
  {
  }

  function WithMail(s: State, path: seq<Mail.State>): seq<State>
    requires path != []
  {
    seq(|path| - 1, i requires 0 <= i < |path| - 1 => s.(mail := path[i + 1]))
  }

  lemma MailStepIsStep(env: Env, s: State, mail: Mail.State, mail': Mail.State)
    requires Timing.QuietStep(env.mail, mail, mail')
    ensures Step(env, s.(mail := mail), s.(mail := mail'))
  {
    var h, a: Mail.Action :| !a.Publish? && Mail.Next(env.mail, mail, h, a, mail');
    assert Next(env, s.(mail := mail), MailMoves(h, a), s.(mail := mail'));
  }

  /** A path of the handlers, on time and recording their successes, continues a run. */
  lemma RunThenMail(env: Env, run: seq<State>, path: seq<Mail.State>) returns (all: seq<State>)
    requires OnTimeRun(env, run) && Timing.IsPath(env.mail, path, true) && path[0] == Last(run).mail
    ensures OnTimeRun(env, all) && Last(all) == Last(run).(mail := Timing.Last(path))
  {
    all := run + WithMail(Last(run), path);
    assert Last(run) == Last(run).(mail := path[0]);
    forall i | 0 < i < |all| ensures StepAt(env, all, i) {
      if i < |run| { assert StepAt(env, run, i); } else { PathStep(env, run, path, all, i); }
    }
    StaysOnTime(env, run, path, all);
  }

  lemma StaysOnTime(env: Env, run: seq<State>, path: seq<Mail.State>, all: seq<State>)
    requires OnTimeRun(env, run) && Timing.IsPath(env.mail, path, true) && path[0] == Last(run).mail
    requires all == run + WithMail(Last(run), path)
    ensures forall i :: 0 <= i < |all| ==> Timing.OnTime(env.mail, all[i].mail)
    ensures forall i :: 0 < i < |all| ==>
              all[i].mail == all[i - 1].mail || Timing.RecordsSuccess(all[i - 1].mail, all[i].mail)
  {
    forall i | 0 <= i < |all| ensures Timing.OnTime(env.mail, all[i].mail) {
      if i >= |run| { assert all[i].mail == path[i - |run| + 1]; }
    }
    forall i | 0 < i < |all|
      ensures all[i].mail == all[i - 1].mail || Timing.RecordsSuccess(all[i - 1].mail, all[i].mail)
    {
      if i >= |run| { assert all[i].mail == path[i - |run| + 1] && all[i - 1].mail == path[i - |run|]; }
    }
  }

  lemma PathStep(env: Env, run: seq<State>, path: seq<Mail.State>, all: seq<State>, i: nat)
    requires run != [] && Timing.IsPath(env.mail, path, true) && path[0] == Last(run).mail
    requires all == run + WithMail(Last(run), path) && |run| <= i < |all|
    ensures StepAt(env, all, i)
  {
    var s, k := Last(run), i - |run| + 1;
    assert s == s.(mail := path[0]);
    assert Timing.QuietStepAt(env.mail, path, k);
    assert all[i] == s.(mail := path[k]) && all[i - 1] == s.(mail := path[k - 1]);
    MailStepIsStep(env, s, path[k - 1], path[k]);
  }

  /** The order is accepted, and its message is in the queue twice. */
  lemma ConfirmedTwice(env: Env, stock: Tables.Stock, order: OrderData, event: EventId)
    returns (run: seq<State>, message: Mail.Message)
    requires CanBeAsked(env, order) && HasStock(stock, order) && Trim(event) != ""
    ensures OnTimeRun(env, run) && Timing.Fresh(Last(run).mail, message, 2) && message.order == order.id
  {
    var once := Confirms(env, stock, order, event);
    var s := Last(once);
    message := MessageOf(env, EventOf(event, Decision(order)));
    var twice := s.(mail := s.mail.(working := s.mail.working + multiset{message}));
    assert Next(env, s, RouteLate(event), twice);
    Extend(env, once, RouteLate(event), twice);
    run := once + [twice];
    IdleIsOnTime(env, run);
    assert IsRun(env, run);
    assert message.valid by {
      RunKeepsInv(env, run, |run| - 1);
      StoredEventIsValid(env, twice, event);
    }
  }

  /**
   * For any order that can be confirmed: under the timing rule no order is ever sent two
   * confirmations if and only if the handle timeout fits the lease as stored.
   */
  lemma AtMostOneConfirmationExactly(env: Env, stock: Tables.Stock, order: OrderData, event: EventId)
    requires CanBeAsked(env, order) && HasStock(stock, order) && Trim(event) != ""
    ensures Timing.LeaseCoversHandling(env.mail) <==>
            forall run: seq<State>, n: int, id: string :: OnTimeRun(env, run) && 0 <= n < |run| ==>
              |MailTheorems.SuccessesFor(run[n].mail, Notifications.KeyOf(id))| <= 1
  {
    if Timing.LeaseCoversHandling(env.mail) {
      forall run: seq<State>, n: int, id: string | OnTimeRun(env, run) && 0 <= n < |run|
        ensures |MailTheorems.SuccessesFor(run[n].mail, Notifications.KeyOf(id))| <= 1
      {
        AtMostOneConfirmation(env, run, n, id);
      }
    } else {
      var run := SentTwice(env, stock, order, event);
      assert |MailTheorems.SuccessesFor(run[|run| - 1].mail, Notifications.KeyOf(order.id))| == 2;
    }
  }

  lemma SentTwice(env: Env, stock: Tables.Stock, order: OrderData, event: EventId) returns (run: seq<State>)
    requires CanBeAsked(env, order) && HasStock(stock, order) && Trim(event) != ""
    requires !Timing.LeaseCoversHandling(env.mail)
    ensures OnTimeRun(env, run)
    ensures |MailTheorems.SuccessesFor(Last(run).mail, Notifications.KeyOf(order.id))| == 2
  {
    var before, message := ConfirmedTwice(env, stock, order, event);
    var path := Timing.TakenOverSendsTwice(env.mail, Last(before).mail, message);
    run := RunThenMail(env, before, path);
  }

  // ----- rejected, and yet held

  /** Only these products are ever added to after step m. */
  ghost predicate AddsOnly(run: seq<State>, m: nat, added: set<Sku>)
  {
    forall i :: m < i < |run| ==> Witnesses.AddsOnlyTo(run[i - 1].stock, run[i].stock, added)
  }

  /**
   * In this run a statement refuses a call for the order at step m, afterwards only
   * products of `added` are added to, and in the end the order is rejected and inventory
   * holds all of it.
   */
  ghost predicate HeldThoughRejected(env: Env, run: seq<State>, m: nat, call: CallId, order: OrderData, added: set<Sku>)
  {
    && IsRun(env, run) && RefusedAt(run, m, call, Stock.ShortOfStock, order.id) && AddsOnly(run, m, added)
    && order.id in Last(run).orders.orders && Last(run).orders.orders[order.id].items == order.items
    && Last(run).orders.orders[order.id].status == Rejected
    && Tables.HeldBy(Last(run).stock.reservations, order.id) == Wanted(order)
  }

  lemma AddedElsewhere(run: seq<State>, m: nat, added: set<Sku>, skus: set<Sku>)
    requires run != [] && AddsOnly(run, m, added) && added !! skus
    ensures NoRestockSince(run, m, |run| - 1, skus)
  {
    forall i | m < i <= |run| - 1 ensures Finality.NoRestockOf(run[i - 1].stock, run[i].stock, skus) {
      assert Witnesses.AddsOnlyTo(run[i - 1].stock, run[i].stock, added);
    }
  }

  lemma SomethingIsWanted(order: OrderData)
    requires order.items != []
    ensures Wanted(order) != map[]
  {
    SumOfLine(Mapped(LineFor, order.items), 0);
  }

  /**
   * A rejected order can come to hold stock by adding to these products if and only if one
   * of them is its own: a call that was given up arrives after the restock.
   */
  lemma RejectedHoldsExactly(env: Env, order: OrderData, added: set<Sku>)
    requires CanBeAsked(env, order)
    ensures (exists run, m, call :: HeldThoughRejected(env, run, m, call, order, added)) <==> !(added !! Wanted(order).Keys)
  {
    if run, m, call :| HeldThoughRejected(env, run, m, call, order, added) {
      if added !! Wanted(order).Keys {
        AddedElsewhere(run, m, added, Wanted(order).Keys);
        RefusedHoldsNothing(env, run, m, |run| - 1, call, Stock.ShortOfStock, order.id);
        SomethingIsWanted(order);
        assert false;
      }
    }
    if !(added !! Wanted(order).Keys) {
      var j := OwnLine(order, added);
      AcceptedIsCanonical(Cleaned(ReservationFor(order).lines));
      var run, m := HeldAfterAll(env, order, j, added);
    }
  }

  /** The line of the order's basket that carries one of these products. */
  lemma OwnLine(order: OrderData, added: set<Sku>) returns (j: nat)
    requires FitsSchema(order) && ItemsValid(order.items) && !(added !! Wanted(order).Keys)
    ensures j < |LinesOf(order)| && LinesOf(order)[j].sku in added
  {
    var sku :| sku in added && sku in Wanted(order);
    ReservedBasketIsWanted(order);
    CanonicalsCarrySums(Cleaned(ReservationFor(order).lines));
    j := LineOf(LinesOf(order), sku);
  }

  // ----- the run

  lemma ExtendAdding(
    env: Env, run: seq<State>, m: nat, added: set<Sku>, a: Action, s': State)
    requires IdleRun(env, run) && Next(env, Last(run), a, s') && s'.mail.handlers == map[]
    requires AddsOnly(run, m, added) && Witnesses.AddsOnlyTo(Last(run).stock, s'.stock, added)
    ensures IdleRun(env, run + [s']) && AddsOnly(run + [s'], m, added)
  {
    Extend(env, run, a, s');
  }

  function Short(order: OrderData, j: nat): Tables.Stock
    requires j < |LinesOf(order)|
  {
    Witnesses.AllBut(LinesOf(order), LinesOf(order)[j].sku, Stock.ShortOfStock)
  }

  function Asked(order: OrderData, attempt: nat, call: CallId): Orders.State
  {
    Created(order).(requests := map[0 := Orders.Request(order.key, true, Orders.Waiting(order, attempt, call))])
  }

  function Retrying(order: OrderData): Orders.State
  {
    Created(order).(requests := map[0 := Orders.Request(order.key, true, Orders.Reserving(order, 1))])
  }

  /** Two calls have been sent: the first is still on its way, and the second is waited for. */
  function BothSent(order: OrderData, stock: Tables.Stock): State
  {
    Empty(stock).(orders := Asked(order, 1, 1), sent := map[0 := ReservationFor(order), 1 := ReservationFor(order)])
  }

  /** The first call is sent, and nothing is heard of it. */
  function FirstSent(order: OrderData, stock: Tables.Stock): State
  {
    Empty(stock).(orders := Retrying(order), sent := map[0 := ReservationFor(order)])
  }

  lemma SendsFirstCall(env: Env, order: OrderData, stock: Tables.Stock) returns (run: seq<State>)
    requires CanBeAsked(env, order) && NothingReserved(stock)
    ensures IdleRun(env, run) && Last(run) == FirstSent(order, stock)
  {
    run := Creates(env, stock, order);
    var sent := Empty(stock).(orders := Asked(order, 0, 0), sent := map[0 := ReservationFor(order)]);
    assert Orders.Next(env.formats, Created(order), 0, Orders.Reserve(0), Asked(order, 0, 0));
    assert CallStep(env, Last(run), 0, 0, sent);
    Extend(env, run, Call(0, 0), sent);
    assert Orders.Next(env.formats, sent.orders, 0, Orders.Hear(Orders.Unavailable), Retrying(order));
    assert HearStep(env, sent, 0, Orders.Unavailable, FirstSent(order, stock));
    Extend(env, run + [sent], Hear(0, Orders.Unavailable), FirstSent(order, stock));
    run := run + [sent] + [FirstSent(order, stock)];
  }

  lemma SendsTwoCalls(env: Env, order: OrderData, stock: Tables.Stock) returns (run: seq<State>)
    requires CanBeAsked(env, order) && NothingReserved(stock)
    ensures IdleRun(env, run) && Last(run) == BothSent(order, stock)
  {
    run := SendsFirstCall(env, order, stock);
    RetryIsStep(env, order, stock);
    Extend(env, run, Call(0, 1), BothSent(order, stock));
    run := run + [BothSent(order, stock)];
  }

  lemma RetryIsStep(env: Env, order: OrderData, stock: Tables.Stock)
    ensures CallStep(env, FirstSent(order, stock), 0, 1, BothSent(order, stock))
  {
    assert Orders.Next(env.formats, Retrying(order), 0, Orders.Reserve(1), Asked(order, 1, 1));
  }

  function WithCall(s: State, id: CallId, call: Stock.Call): State
  {
    s.(stock := s.stock.(calls := s.stock.calls[id := call]))
  }

  /** The second call arrives, and is refused at the missing product. */
  lemma SecondIsRefused(env: Env, order: OrderData, j: nat) returns (run: seq<State>)
    requires CanBeAsked(env, order) && IsCanonical(LinesOf(order)) && j < |LinesOf(order)|
    ensures IdleRun(env, run) && RefusedAt(run, |run| - 1, 1, Stock.ShortOfStock, order.id)
    ensures Last(run) == WithCall(BothSent(order, Short(order, j)), 1,
                                  Witnesses.Refusing(order.id, LinesOf(order), Stock.ShortOfStock))
  {
    var lines := LinesOf(order);
    Witnesses.AllButIsEmptyStock(lines, lines[j].sku, Stock.ShortOfStock);
    var before := SendsTwoCalls(env, order, Short(order, j));
    var arrived := WithCall(Last(before), 1, Witnesses.Started(order.id, lines));
    assert ArriveStep(env, Last(before), 1, arrived);
    Extend(env, before, Arrive(1), arrived);
    before := before + [arrived];
    var path := Witnesses.RefusalPath(arrived.stock, 1, order.id, lines, j, Stock.ShortOfStock);
    run := RunThenStock(env, before, path);
    assert run[|run| - 2].stock == path[|path| - 2];
  }

  function RejectedOrder(order: OrderData): OrderData { Orders.Decided(order, Rejected, order.updatedAt) }

  function AfterReject(order: OrderData): Orders.State
  {
    Created(order).(
      orders := map[order.id := RejectedOrder(order)],
      requests := map[0 := Orders.Request(order.key, true, Orders.Done(Orders.OutOfStock))])
  }

  function ToldShort(order: OrderData): Orders.State
  {
    Created(order).(requests := map[0 := Orders.Request(order.key, true, Orders.Rejecting(order))])
  }

  /** The refusal is reported. */
  function Reported(order: OrderData, stock: Tables.Stock): State
  {
    WithCall(BothSent(order, stock), 1, Witnesses.Refuted(order.id, LinesOf(order), Stock.ShortOfStock))
  }

  lemma Reports(env: Env, before: seq<State>, order: OrderData, stock: Tables.Stock, m: nat, added: set<Sku>)
    returns (run: seq<State>)
    requires IdleRun(env, before) && m == |before| - 1
    requires Last(before) == WithCall(BothSent(order, stock), 1,
                                      Witnesses.Refusing(order.id, LinesOf(order), Stock.ShortOfStock))
    ensures IdleRun(env, run) && before <= run && AddsOnly(run, m, added) && Last(run) == Reported(order, stock)
  {
    var told := Reported(order, stock);
    assert Stock.CallStep(Last(before).stock, 1, Stock.Describe(true), told.stock);
    ExtendAdding(env, before, m, added, StockMoves(1, Stock.Describe(true)), told);
    run := before + [told];
  }

  /** It is heard, and the order is rejected. */
  lemma Rejects(env: Env, before: seq<State>, order: OrderData, stock: Tables.Stock, m: nat, added: set<Sku>)
    returns (run: seq<State>)
    requires IdleRun(env, before) && AddsOnly(before, m, added) && Last(before) == Reported(order, stock)
    requires order.status == Pending && Orders.ClockOk(order, order.updatedAt)
    ensures IdleRun(env, run) && before <= run && AddsOnly(run, m, added)
    ensures Last(run) == Reported(order, stock).(orders := AfterReject(order))
  {
    var heard := Reported(order, stock).(orders := ToldShort(order));
    HearingIsStep(env, order, stock);
    ExtendAdding(env, before, m, added, Hear(0, Orders.Insufficient), heard);
    run := before + [heard];
    var done := heard.(orders := AfterReject(order));
    RejectionIsStep(env, order);
    ExtendAdding(env, run, m, added, OrderMoves(0, Orders.Reject(order.updatedAt, false)), done);
    run := run + [done];
  }

  lemma HearingIsStep(env: Env, order: OrderData, stock: Tables.Stock)
    ensures HearStep(env, Reported(order, stock), 0, Orders.Insufficient, Reported(order, stock).(orders := ToldShort(order)))
  {
    assert Orders.Next(env.formats, Asked(order, 1, 1), 0, Orders.Hear(Orders.Insufficient), ToldShort(order));
  }

  lemma RejectionIsStep(env: Env, order: OrderData)
    requires order.status == Pending && Orders.ClockOk(order, order.updatedAt)
    ensures Orders.Next(env.formats, ToldShort(order), 0, Orders.Reject(order.updatedAt, false), AfterReject(order))
  {
    assert Orders.Updated(map[order.id := order], RejectedOrder(order)) == map[order.id := RejectedOrder(order)];
    assert Orders.RejectStep(ToldShort(order), 0, order.updatedAt, false, AfterReject(order));
  }

  /** The stock once the missing product has been added. */
  function FilledUp(order: OrderData, j: nat): Tables.Stock
    requires j < |LinesOf(order)|
  {
    Short(order, j)[LinesOf(order)[j].sku := Tables.StockRow(LinesOf(order)[j].quantity, 0)]
  }

  /** The missing product is added. */
  lemma IsFilledUp(env: Env, before: seq<State>, order: OrderData, j: nat, m: nat, added: set<Sku>)
    returns (run: seq<State>)
    requires IdleRun(env, before) && AddsOnly(before, m, added)
    requires IsCanonical(LinesOf(order)) && j < |LinesOf(order)| && LinesOf(order)[j].sku in added
    requires Last(before).stock == Stock.State(
               Short(order, j), map[], map[1 := Witnesses.Refuted(order.id, LinesOf(order), Stock.ShortOfStock)])
    ensures IdleRun(env, run) && before <= run && AddsOnly(run, m, added)
    ensures Last(run) == Last(before).(stock := Last(before).stock.(stock := FilledUp(order, j)))
  {
    var s, line := Last(before), LinesOf(order)[j];
    Witnesses.AllButLine(LinesOf(order), j, Stock.ShortOfStock, j);
    var filled := s.(stock := s.stock.(stock := FilledUp(order, j)));
    assert Stock.SetOnHandStep(s.stock, line.sku, line.quantity, filled.stock);
    ExtendAdding(env, before, m, added, StockMoves(0, Stock.SetOnHand(line.sku, line.quantity)), filled);
    run := before + [filled];
  }

  /** The first call arrives after all. */
  lemma FirstArrives(env: Env, before: seq<State>, order: OrderData, m: nat, added: set<Sku>)
    returns (run: seq<State>)
    requires IdleRun(env, before) && AddsOnly(before, m, added) && CanBeAsked(env, order)
    requires IsCanonical(LinesOf(order)) && 0 !in Last(before).stock.calls
    requires Last(before).sent == map[0 := ReservationFor(order), 1 := ReservationFor(order)]
    ensures IdleRun(env, run) && before <= run && AddsOnly(run, m, added)
    ensures Last(run) == WithCall(Last(before), 0, Witnesses.Started(order.id, LinesOf(order)))
  {
    var arrived := WithCall(Last(before), 0, Witnesses.Started(order.id, LinesOf(order)));
    assert ArriveStep(env, Last(before), 0, arrived);
    ExtendAdding(env, before, m, added, Arrive(0), arrived);
    run := before + [arrived];
  }

  /** The first call commits, for an order that has long been rejected. */
  lemma CommitsAfterAll(env: Env, before: seq<State>, order: OrderData, j: nat, m: nat, added: set<Sku>)
    returns (run: seq<State>)
    requires IdleRun(env, before) && AddsOnly(before, m, added) && m < |before|
    requires IsCanonical(LinesOf(order)) && j < |LinesOf(order)|
    requires Last(before).stock == Stock.State(
               FilledUp(order, j), map[],
               map[0 := Witnesses.Started(order.id, LinesOf(order)),
                   1 := Witnesses.Refuted(order.id, LinesOf(order), Stock.ShortOfStock)])
    ensures IdleRun(env, run) && before <= run && AddsOnly(run, m, added)
    ensures Last(run) == Last(before).(stock := Last(run).stock)
    ensures Tables.HeldBy(Last(run).stock.reservations, order.id) == Basket(LinesOf(order))
  {
    var s := Last(before).stock;
    var opening := Witnesses.Reads(s, 0, order.id, LinesOf(order));
    var reading := Witnesses.Last(opening);
    Witnesses.FilledUp(reading, 0, order.id, LinesOf(order), j, Stock.ShortOfStock);
    var path := Witnesses.PathToCommit(opening, 0);
    assert path[0] == opening[0];
    run := RunThenStock(env, before, path);
    PathAddsNothing(before, path, run, m, added);
    Witnesses.HeldIsBasket(order.id, LinesOf(order));
  }

  lemma PathAddsNothing(before: seq<State>, path: seq<Stock.State>, all: seq<State>, m: nat, added: set<Sku>)
    requires before != [] && AddsOnly(before, m, added) && Witnesses.IsPath(path) && path[0] == Last(before).stock
    requires all == before + WithStock(Last(before), path)
    ensures AddsOnly(all, m, added)
  {
    forall i | m < i < |all| ensures Witnesses.AddsOnlyTo(all[i - 1].stock, all[i].stock, added) {
      if i < |before| {
        assert Witnesses.AddsOnlyTo(before[i - 1].stock, before[i].stock, added);
      } else {
        var k := i - |before| + 1;
        assert Progress.SomeCallStepsAt(path, k);
        assert all[i].stock == path[k] && all[i - 1].stock == path[k - 1];
        Witnesses.CallStepKeepsOnHand(path[k - 1], path[k], path[k].stock.Keys);
      }
    }
  }

  lemma HeldAfterAll(env: Env, order: OrderData, j: nat, added: set<Sku>) returns (run: seq<State>, m: nat)
    requires CanBeAsked(env, order) && IsCanonical(LinesOf(order))
    requires j < |LinesOf(order)| && LinesOf(order)[j].sku in added
    ensures HeldThoughRejected(env, run, m, 1, order, added)
  {
    run := SecondIsRefused(env, order, j);
    m := |run| - 1;
    var refused := run;
    run := Reports(env, run, order, Short(order, j), m, added);
    run := Rejects(env, run, order, Short(order, j), m, added);
    run := IsFilledUp(env, run, order, j, m, added);
    run := FirstArrives(env, run, order, m, added);
    run := CommitsAfterAll(env, run, order, j, m, added);
    assert refused <= run;
    ReservedBasketIsWanted(order);
  }
}
