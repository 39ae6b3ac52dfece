/**
 * Runs that exist. They show that the conditions of the promises are exact: two baskets
 * can be committed for one order id exactly when they share no product, and a refusal can
 * be overturned exactly by adding to a product of its basket.
 */
module ReservationWitnesses {
  import opened Collections
  import opened Skus
  import opened Baskets
  import opened StockTables
  import opened ReservationRuns
  import opened ReservationSafety
  import opened ReservationTheorems
  import opened ReservationFinality
  import opened ReservationProgress

  // ----- paths of calls at work

  function Last(run: seq<State>): State
    requires run != []
  {
    run[|run| - 1]
  }

  /** Steps of calls that have started, and of nothing else. */
  ghost predicate IsPath(path: seq<State>)
  {
    path != [] && forall i {:trigger SomeCallStepsAt(path, i)} :: 0 < i < |path| ==> SomeCallStepsAt(path, i)
  }

  lemma ExtendPath(path: seq<State>, id: CallId, a: Action, s': State)
    requires IsPath(path) && CallStep(Last(path), id, a, s')
    ensures IsPath(path + [s'])
  {
    var longer := path + [s'];
    assert SomeCallSteps(Last(path), s');
    forall i | 0 < i < |longer| ensures SomeCallStepsAt(longer, i) {
      assert i < |path| ==> SomeCallStepsAt(path, i);
    }
  }

  lemma Extend(run: seq<State>, id: CallId, a: Action, s': State)
    requires IsRun(run) && Next(Last(run), id, a, s')
    ensures IsRun(run + [s'])
  {
    var longer := run + [s'];
    assert Step(Last(run), s');
    forall i | 0 < i < |longer| ensures StepAt(longer, i) {
      assert i < |run| ==> StepAt(run, i);
    }
  }

  lemma CallStepIsStep(s: State, s': State)
    requires SomeCallSteps(s, s')
    ensures Step(s, s')
  {
    var id, a :| CallStep(s, id, a, s');
    assert Next(s, id, a, s');
  }

  /** Calls never change what is on hand. */
  lemma CallStepKeepsOnHand(s: State, s': State, skus: set<Sku>)
    requires SomeCallSteps(s, s')
    ensures NoRestockOf(s, s', skus)
  {
    var id, a :| CallStep(s, id, a, s');
    CallKeepsOnHand(s, id, a, s');
  }

  lemma CallKeepsOnHand(s: State, id: CallId, a: Action, s': State)
    requires CallStep(s, id, a, s')
    ensures forall sku :: sku in s'.stock ==> sku in s.stock && s'.stock[sku].onHand == s.stock[sku].onHand
  {
  }

  /** A path continues a run, and adds nothing to any product. */
  lemma RunThenPath(run: seq<State>, path: seq<State>, m: nat, skus: set<Sku>)
    requires IsRun(run) && IsPath(path) && path[0] == Last(run)
    ensures IsRun(run + path[1..]) && run <= run + path[1..] && Last(run + path[1..]) == Last(path)
    ensures NoRestockSince(run, m, |run| - 1, skus) ==> NoRestockSince(run + path[1..], m, |run + path[1..]| - 1, skus)
  {
    var all := run + path[1..];
    forall i | 0 < i < |all| ensures StepAt(all, i) {
      if i < |run| { assert StepAt(run, i); }
      else {
        assert all[i] == path[i - |run| + 1] && all[i - 1] == path[i - |run|];
        assert SomeCallStepsAt(path, i - |run| + 1);
        CallStepIsStep(all[i - 1], all[i]);
      }
    }
    if NoRestockSince(run, m, |run| - 1, skus) {
      forall i | m < i <= |all| - 1 ensures NoRestockOf(all[i - 1], all[i], skus) {
        if i >= |run| {
          assert all[i] == path[i - |run| + 1] && all[i - 1] == path[i - |run|];
          assert SomeCallStepsAt(path, i - |run| + 1);
          CallStepKeepsOnHand(all[i - 1], all[i], skus);
        }
      }
    }
  }

  // ----- one call at work while the others are quiet

  ghost predicate Quiet(s: State, id: CallId)
  {
    forall other :: other in s.calls && other != id ==>
      s.calls[other].pc.Claiming? ==> s.calls[other].pc.pos == 0 && s.calls[other].pc.stage == Inserting
  }

  lemma QuietHoldsNothing(s: State, id: CallId, order: OrderId, sku: Sku)
    requires Quiet(s, id)
    ensures !KeyLocked(s, id, order, sku) && !RowLocked(s, id, sku)
  {
  }

  ghost predicate FillableFrom(s: State, id: CallId, pos: nat)
    requires id in s.calls
  {
    forall j :: pos <= j < |s.calls[id].lines| ==> Secured(s, s.calls[id].order, s.calls[id].lines[j])
  }

  ghost predicate AtStart(s: State, id: CallId, pos: nat)
  {
    id in s.calls && Quiet(s, id) && s.calls[id].pc == Claiming(0, pos, Inserting) && pos <= |s.calls[id].lines|
  }

  /** One line's two statements go through. */
  lemma TakesLine(path: seq<State>, id: CallId, pos: nat) returns (longer: seq<State>)
    requires IsPath(path) && AtStart(Last(path), id, pos) && pos < |Last(path).calls[id].lines|
    requires Secured(Last(path), Last(path).calls[id].order, Last(path).calls[id].lines[pos])
    ensures IsPath(longer) && path <= longer
    ensures Last(longer) == Moved(Last(path), id, Claiming(0, pos + 1, Inserting))
  {
    var s := Last(path);
    var call := s.calls[id];
    QuietHoldsNothing(s, id, call.order, call.lines[pos].sku);
    var taking := Moved(s, id, Claiming(0, pos, Taking));
    ExtendPath(path, id, Insert, taking);
    QuietHoldsNothing(taking, id, call.order, call.lines[pos].sku);
    var next := Moved(taking, id, Claiming(0, pos + 1, Inserting));
    ExtendPath(path + [taking], id, Take, next);
    longer := path + [taking] + [next];
  }

  lemma {:induction false} TakesLines(path: seq<State>, id: CallId, pos: nat, target: nat) returns (longer: seq<State>)
    requires IsPath(path) && AtStart(Last(path), id, pos) && pos <= target <= |Last(path).calls[id].lines|
    requires forall j :: pos <= j < target ==> Secured(Last(path), Last(path).calls[id].order, Last(path).calls[id].lines[j])
    ensures IsPath(longer) && path <= longer
    ensures Last(longer) == Moved(Last(path), id, Claiming(0, target, Inserting))
    decreases target - pos
  {
    if pos == target {
      longer := path;
      assert Last(path).calls[id := Last(path).calls[id]] == Last(path).calls;
    } else {
      var next := TakesLine(path, id, pos);
      longer := TakesLines(next, id, pos + 1, target);
    }
  }

  function Committed(s: State, id: CallId): State
    requires id in s.calls
  {
    var call := s.calls[id];
    State(
      Charged(s.stock, Basket(call.lines)),
      Held(s.reservations, call.order, Basket(call.lines)),
      s.calls[id := call.(pc := Done(Reserved), committed := true)])
  }

  /** A transaction that meets no other, on a basket that can be filled, commits. */
  lemma PathToCommit(path: seq<State>, id: CallId) returns (longer: seq<State>)
    requires IsPath(path) && AtStart(Last(path), id, 0) && FillableFrom(Last(path), id, 0)
    ensures IsPath(longer) && path <= longer && Last(longer) == Committed(Last(path), id)
  {
    var s := Last(path);
    var count := |s.calls[id].lines|;
    var taken := TakesLines(path, id, 0, count);
    SameCommit(s, Last(taken), id, Claiming(0, count, Inserting));
    assert CommitStep(Last(taken), id, false, Committed(s, id));
    ExtendPath(taken, id, Commit(false), Committed(s, id));
    longer := taken + [Committed(s, id)];
  }

  /** What it takes for a claim to be refused at one of its lines. */
  ghost predicate RefusedAtLine(s: State, id: CallId, j: nat, cause: Refusal)
  {
    && AtStart(s, id, 0) && j < |s.calls[id].lines|
    && (forall i :: 0 <= i < j ==> Secured(s, s.calls[id].order, s.calls[id].lines[i]))
    && var line := s.calls[id].lines[j];
    if cause == UnknownProduct then line.sku !in s.stock
    else line.sku in s.stock && !CanTake(s.stock, line) && line.sku !in HeldBy(s.reservations, s.calls[id].order)
  }

  /** A transaction that meets no other is refused at the first line that cannot be taken. */
  lemma PathToRefusal(path: seq<State>, id: CallId, j: nat, cause: Refusal) returns (longer: seq<State>)
    requires IsPath(path) && RefusedAtLine(Last(path), id, j, cause)
    ensures IsPath(longer) && path <= longer && |path| < |longer|
    ensures Last(longer) == Moved(Last(path), id, Describing(cause))
    ensures Refuses(longer[|longer| - 2], id, Last(longer), cause)
  {
    var s := Last(path);
    var call := s.calls[id];
    var taken := TakesLines(path, id, 0, j);
    var t := Last(taken);
    QuietHoldsNothing(t, id, call.order, call.lines[j].sku);
    if cause == UnknownProduct {
      ExtendPath(taken, id, Insert, Moved(t, id, Describing(cause)));
      longer := taken + [Moved(t, id, Describing(cause))];
    } else {
      var taking := Moved(t, id, Claiming(0, j, Taking));
      ExtendPath(taken, id, Insert, taking);
      ExtendPath(taken + [taking], id, Take, Moved(taking, id, Describing(cause)));
      longer := taken + [taking] + [Moved(taking, id, Describing(cause))];
    }
    assert Last(longer) == Moved(s, id, Describing(cause));
  }

  lemma SameCommit(s: State, next: State, id: CallId, pc: Pc)
    requires id in s.calls && next.stock == s.stock && next.reservations == s.reservations
    requires next.calls == s.calls[id := s.calls[id].(pc := pc)]
    ensures Committed(next, id) == Committed(s, id)
  {
  }

  // ----- two baskets under one order id

  ghost predicate BothCommit(run: seq<State>, order: OrderId, first: seq<Line>, second: seq<Line>)
  {
    IsRun(run) && exists a, b :: a != b && CommitsIn(run, a, order, first) && CommitsIn(run, b, order, second)
  }

  ghost predicate CommitsIn(run: seq<State>, id: CallId, order: OrderId, lines: seq<Line>)
    requires run != []
  {
    var calls := run[|run| - 1].calls;
    id in calls && calls[id].order == order && calls[id].lines == lines && calls[id].committed
  }

  /** The documented gap, exactly: one order id can hold two baskets if and only if they are disjoint. */
  lemma OrderIdSharedExactlyWhenDisjoint(order: OrderId, first: seq<Line>, second: seq<Line>)
    requires IsCanonical(first) && IsCanonical(second)
    ensures (exists run :: BothCommit(run, order, first, second)) <==> Basket(first).Keys !! Basket(second).Keys
  {
    if run :| BothCommit(run, order, first, second) {
      var a, b :| a != b && CommitsIn(run, a, order, first) && CommitsIn(run, b, order, second);
      CommitsForOneOrderAreDisjoint(run, |run| - 1, a, b);
    }
    if Basket(first).Keys !! Basket(second).Keys {
      var run := BothCommitRun(order, first, second);
    }
  }

  function Enough(first: seq<Line>, second: seq<Line>): Stock
  {
    map sku | sku in Basket(first).Keys + Basket(second).Keys ::
      StockRow(Quantity(Basket(first), sku) + Quantity(Basket(second), sku), 0)
  }

  function Started(order: OrderId, lines: seq<Line>): Call { Call(order, lines, Finding(0), false) }

  function Opened(order: OrderId, lines: seq<Line>): Call { Call(order, lines, Claiming(0, 0, Inserting), false) }

  lemma EnoughIsEmptyStock(first: seq<Line>, second: seq<Line>)
    requires IsCanonical(first) && IsCanonical(second)
    ensures Init(State(Enough(first, second), map[], map[]))
  {
    forall sku | sku in Enough(first, second) ensures Enough(first, second)[sku].onHand >= 0 {
      if sku in Basket(first) { var i := LineOf(first, sku); }
      if sku in Basket(second) { var i := LineOf(second, sku); }
    }
  }

  /** Both calls read before either commits; then they commit one after the other. */
  lemma BothOpen(order: OrderId, first: seq<Line>, second: seq<Line>) returns (run: seq<State>)
    requires IsCanonical(first) && IsCanonical(second)
    ensures IsRun(run)
    ensures run[|run| - 1]
         == State(Enough(first, second), map[], map[0 := Opened(order, first), 1 := Opened(order, second)])
  {
    var stock := Enough(first, second);
    var s0 := State(stock, map[], map[]);
    var s1 := State(stock, map[], map[0 := Started(order, first)]);
    var s2 := State(stock, map[], map[0 := Started(order, first), 1 := Started(order, second)]);
    var s3 := State(stock, map[], map[0 := Opened(order, first), 1 := Started(order, second)]);
    var s4 := State(stock, map[], map[0 := Opened(order, first), 1 := Opened(order, second)]);
    EnoughIsEmptyStock(first, second);
    Extend([s0], 0, Start(order, first), s1);
    Extend([s0] + [s1], 1, Start(order, second), s2);
    Extend([s0] + [s1] + [s2], 0, Find, s3);
    Extend([s0] + [s1] + [s2] + [s3], 1, Find, s4);
    run := [s0] + [s1] + [s2] + [s3] + [s4];
  }

  lemma BothCommitRun(order: OrderId, first: seq<Line>, second: seq<Line>) returns (run: seq<State>)
    requires IsCanonical(first) && IsCanonical(second) && Basket(first).Keys !! Basket(second).Keys
    ensures BothCommit(run, order, first, second)
  {
    var both := BothOpen(order, first, second);
    FillableFirst(both[|both| - 1], 0, first, second);
    var half := PathToCommit([Last(both)], 0);
    FillableSecond(order, first, second, Last(half));
    var path := PathToCommit(half, 1);
    RunThenPath(both, path, 0, {});
    run := both + path[1..];
    assert CommitsIn(run, 0, order, first) && CommitsIn(run, 1, order, second);
  }

  lemma FillableFirst(s: State, id: CallId, first: seq<Line>, second: seq<Line>)
    requires IsCanonical(first) && IsCanonical(second) && Basket(first).Keys !! Basket(second).Keys
    requires s.stock == Enough(first, second) && s.reservations == map[]
    requires id in s.calls && s.calls[id].lines == first
    ensures FillableFrom(s, id, 0)
  {
    forall j | 0 <= j < |first| ensures Secured(s, s.calls[id].order, first[j]) { BasketLine(first, j); }
  }

  lemma FillableSecond(order: OrderId, first: seq<Line>, second: seq<Line>, s: State)
    requires IsCanonical(first) && IsCanonical(second) && Basket(first).Keys !! Basket(second).Keys
    requires s.stock == Charged(Enough(first, second), Basket(first))
    requires s.reservations == Held(map[], order, Basket(first))
    requires 1 in s.calls && s.calls[1] == Opened(order, second)
    ensures FillableFrom(s, 1, 0)
  {
    forall j | 0 <= j < |second| ensures Secured(s, order, second[j]) { BasketLine(second, j); }
  }

  // ----- what overturns a refusal

  /** A step that adds to none but these products. */
  ghost predicate AddsOnlyTo(s: State, s': State, added: set<Sku>)
  {
    forall sku :: sku in s'.stock && sku !in added ==> sku in s.stock && s'.stock[sku].onHand <= s.stock[sku].onHand
  }

  /** Only these products are ever added to after step m. */
  ghost predicate AddsOnly(run: seq<State>, m: nat, added: set<Sku>)
  {
    forall i :: m < i < |run| ==> AddsOnlyTo(run[i - 1], run[i], added)
  }

  lemma ExtendAdding(run: seq<State>, m: nat, added: set<Sku>, s': State)
    requires run != [] && AddsOnly(run, m, added) && (m < |run| ==> AddsOnlyTo(Last(run), s', added))
    ensures AddsOnly(run + [s'], m, added)
  {
  }

  /**
   * In this run a call for the basket is refused at step m, afterwards only products of
   * `added` are added to, every call for the order asks for this one basket, and in the
   * end the order holds it.
   */
  ghost predicate Overturned(
    run: seq<State>, m: nat, id: CallId, cause: Refusal, order: OrderId, lines: seq<Line>, added: set<Sku>)
  {
    && IsRun(run) && RefusesAt(run, m, id, cause)
    && run[m].calls[id].order == order && run[m].calls[id].lines == lines
    && AddsOnly(run, m, added) && OneBasket(Last(run), order)
    && HeldBy(Last(run).reservations, order) == Basket(lines)
  }

  lemma AddedElsewhere(run: seq<State>, m: nat, added: set<Sku>, skus: set<Sku>)
    requires AddsOnly(run, m, added) && added !! skus && run != []
    ensures NoRestockSince(run, m, |run| - 1, skus)
  {
    forall i | m < i <= |run| - 1 ensures NoRestockOf(run[i - 1], run[i], skus) {
      assert AddsOnlyTo(run[i - 1], run[i], added);
    }
  }

  /**
   * A refusal, for either cause, can be overturned by adding to these products if and only
   * if one of them is in the basket.
   */
  lemma RefusalOverturnedExactly(order: OrderId, lines: seq<Line>, cause: Refusal, added: set<Sku>)
    requires IsCanonical(lines)
    ensures (exists run, m, id :: Overturned(run, m, id, cause, order, lines, added)) <==> !(added !! Basket(lines).Keys)
  {
    if run, m, id :| Overturned(run, m, id, cause, order, lines, added) {
      if added !! Basket(lines).Keys {
        AddedElsewhere(run, m, added, Basket(lines).Keys);
        RefusalIsFinal(run, m, |run| - 1, id, cause);
        BasketLine(lines, 0);
        assert false;
      }
    }
    if !(added !! Basket(lines).Keys) {
      var sku :| sku in added && sku in Basket(lines);
      var j := LineOf(lines, sku);
      var run, m := OverturnedRun(order, lines, j, cause, added);
    }
  }

  /** Everything the basket asks for, but for one line: its product is unknown, or there is none of it. */
  function AllBut(lines: seq<Line>, missing: Sku, cause: Refusal): Stock
  {
    map sku | sku in Basket(lines) && (cause == UnknownProduct ==> sku != missing) ::
      StockRow(if sku == missing then 0 else Basket(lines)[sku], 0)
  }

  function Refusing(order: OrderId, lines: seq<Line>, cause: Refusal): Call
  {
    Started(order, lines).(pc := Describing(cause))
  }

  function Refuted(order: OrderId, lines: seq<Line>, cause: Refusal): Call
  {
    Started(order, lines).(pc := Done(Refused(cause)))
  }

  lemma AllButIsEmptyStock(lines: seq<Line>, missing: Sku, cause: Refusal)
    requires IsCanonical(lines)
    ensures Init(State(AllBut(lines, missing, cause), map[], map[]))
  {
    forall sku | sku in AllBut(lines, missing, cause) ensures AllBut(lines, missing, cause)[sku].onHand >= 0 {
      var i := LineOf(lines, sku);
    }
  }

  /** What the stock has of each line of the basket. */
  lemma AllButLine(lines: seq<Line>, j: nat, cause: Refusal, i: nat)
    requires IsCanonical(lines) && i < |lines| && j < |lines|
    ensures var stock := AllBut(lines, lines[j].sku, cause);
            if i != j then lines[i].sku in stock && stock[lines[i].sku] == StockRow(lines[i].quantity, 0)
            else if cause == UnknownProduct then lines[i].sku !in stock
            else lines[i].sku in stock && stock[lines[i].sku] == StockRow(0, 0)
  {
    BasketLine(lines, i);
    if i != j { LinesDiffer(lines, i, j); }
  }

  lemma SecuredBy(s: State, order: OrderId, line: Line)
    requires s.reservations == map[] && line.sku in s.stock && s.stock[line.sku] == StockRow(line.quantity, 0)
    ensures Secured(s, order, line)
  {
  }

  lemma RefusedThere(s: State, id: CallId, order: OrderId, lines: seq<Line>, j: nat, cause: Refusal)
    requires IsCanonical(lines) && j < |lines| && s.stock == AllBut(lines, lines[j].sku, cause) && s.reservations == map[]
    requires id in s.calls && s.calls[id] == Opened(order, lines) && Quiet(s, id)
    ensures RefusedAtLine(s, id, j, cause)
  {
    AllButLine(lines, j, cause, j);
    forall i | 0 <= i < j ensures Secured(s, order, lines[i]) {
      AllButLine(lines, j, cause, i);
      SecuredBy(s, order, lines[i]);
    }
    LineLacks(s, order, lines[j], cause);
  }

  lemma LineLacks(s: State, order: OrderId, line: Line, cause: Refusal)
    requires s.reservations == map[] && line.quantity > 0
    requires if cause == UnknownProduct then line.sku !in s.stock
             else line.sku in s.stock && s.stock[line.sku] == StockRow(0, 0)
    ensures cause != UnknownProduct ==> !CanTake(s.stock, line) && line.sku !in HeldBy(s.reservations, order)
  {
  }

  /** A call reads that nothing is held, and opens its transaction. */
  lemma Reads(s: State, id: CallId, order: OrderId, lines: seq<Line>) returns (path: seq<State>)
    requires s.reservations == map[] && id in s.calls && s.calls[id] == Started(order, lines)
    ensures IsPath(path) && |path| == 2 && path[0] == s
    ensures Last(path) == s.(calls := s.calls[id := Opened(order, lines)])
  {
    var reading := s.(calls := s.calls[id := Opened(order, lines)]);
    assert HeldBy(s.reservations, order) == map[];
    assert reading == Moved(s, id, AfterFind(map[], s.calls[id]));
    ExtendPath([s], id, Find, reading);
    path := [s] + [reading];
  }

  /** A call that has read nothing goes on to be refused at the missing product. */
  lemma ReadsAndIsRefused(s: State, id: CallId, order: OrderId, lines: seq<Line>, j: nat, cause: Refusal)
    returns (path: seq<State>)
    requires s.reservations == map[] && s.calls == map[id := Started(order, lines)]
    requires RefusedAtLine(s.(calls := map[id := Opened(order, lines)]), id, j, cause)
    ensures IsPath(path) && |path| > 2 && path[0] == s
    ensures Last(path) == s.(calls := map[id := Refusing(order, lines, cause)])
    ensures Refuses(path[|path| - 2], id, Last(path), cause)
  {
    path := Reads(s, id, order, lines);
    assert Last(path) == s.(calls := map[id := Opened(order, lines)]);
    path := IsRefused(path, id, order, lines, j, cause);
  }

  lemma IsRefused(before: seq<State>, id: CallId, order: OrderId, lines: seq<Line>, j: nat, cause: Refusal)
    returns (path: seq<State>)
    requires IsPath(before) && |before| == 2 && RefusedAtLine(Last(before), id, j, cause)
    requires Last(before).calls == map[id := Opened(order, lines)]
    ensures IsPath(path) && |path| > 2 && path[0] == before[0]
    ensures Last(path) == Last(before).(calls := map[id := Refusing(order, lines, cause)])
    ensures Refuses(path[|path| - 2], id, Last(path), cause)
  {
    path := PathToRefusal(before, id, j, cause);
    var moved := Moved(Last(before), id, Describing(cause));
    assert moved.calls == map[id := Refusing(order, lines, cause)];
  }

  /** With all but one line in stock, a call is refused at that line. */
  lemma RefusalPath(s: State, id: CallId, order: OrderId, lines: seq<Line>, j: nat, cause: Refusal)
    returns (path: seq<State>)
    requires IsCanonical(lines) && j < |lines| && s.stock == AllBut(lines, lines[j].sku, cause) && s.reservations == map[]
    requires s.calls == map[id := Started(order, lines)]
    ensures IsPath(path) && |path| > 2 && path[0] == s
    ensures Last(path) == s.(calls := map[id := Refusing(order, lines, cause)])
    ensures Refuses(path[|path| - 2], id, Last(path), cause)
  {
    RefusedThere(s.(calls := map[id := Opened(order, lines)]), id, order, lines, j, cause);
    path := ReadsAndIsRefused(s, id, order, lines, j, cause);
  }

  /** A call starts, reads, claims, and is refused at the missing product. */
  lemma RefusedRun(order: OrderId, lines: seq<Line>, j: nat, cause: Refusal) returns (run: seq<State>)
    requires IsCanonical(lines) && j < |lines|
    ensures IsRun(run) && RefusesAt(run, |run| - 1, 0, cause)
    ensures Last(run) == State(AllBut(lines, lines[j].sku, cause), map[], map[0 := Refusing(order, lines, cause)])
  {
    var s0 := State(AllBut(lines, lines[j].sku, cause), map[], map[]);
    var s1 := s0.(calls := map[0 := Started(order, lines)]);
    AllButIsEmptyStock(lines, lines[j].sku, cause);
    Extend([s0], 0, Start(order, lines), s1);
    var before := [s0] + [s1];
    var path := RefusalPath(s1, 0, order, lines, j, cause);
    assert Last(before) == s1;
    RunThenPath(before, path, 0, {});
    run := before + path[1..];
    assert run[|run| - 2] == path[|path| - 2];
  }

  /** The refusal is reported, the missing product is added, and a repeat of the call reads. */
  lemma AddedAfterwards(order: OrderId, lines: seq<Line>, j: nat, cause: Refusal, added: set<Sku>)
    returns (run: seq<State>, m: nat)
    requires IsCanonical(lines) && j < |lines| && lines[j].sku in added
    ensures IsRun(run) && RefusesAt(run, m, 0, cause) && run[m].calls[0] == Refusing(order, lines, cause)
    ensures AddsOnly(run, m, added)
    ensures Last(run) == State(
              AllBut(lines, lines[j].sku, cause)[lines[j].sku := StockRow(lines[j].quantity, 0)], map[],
              map[0 := Refuted(order, lines, cause), 1 := Started(order, lines)])
  {
    run := RefusedRun(order, lines, j, cause);
    m := |run| - 1;
    var s := Last(run);
    var told := State(s.stock, map[], map[0 := Refuted(order, lines, cause)]);
    var filled := told.(stock := s.stock[lines[j].sku := StockRow(lines[j].quantity, 0)]);
    var again := filled.(calls := map[0 := Refuted(order, lines, cause), 1 := Started(order, lines)]);
    assert CallStep(s, 0, Describe(true), told);
    Extend(run, 0, Describe(true), told);
    Extend(run + [told], 0, SetOnHand(lines[j].sku, lines[j].quantity), filled);
    Extend(run + [told] + [filled], 1, Start(order, lines), again);
    ExtendAdding(run, m, added, told);
    ExtendAdding(run + [told], m, added, filled);
    ExtendAdding(run + [told] + [filled], m, added, again);
    run := run + [told] + [filled] + [again];
  }

  lemma OverturnedRun(order: OrderId, lines: seq<Line>, j: nat, cause: Refusal, added: set<Sku>)
    returns (run: seq<State>, m: nat)
    requires IsCanonical(lines) && j < |lines| && lines[j].sku in added
    ensures Overturned(run, m, 0, cause, order, lines, added)
  {
    var before;
    before, m := AddedAfterwards(order, lines, j, cause, added);
    var s := Last(before);
    var opening := Reads(s, 1, order, lines);
    FilledUp(Last(opening), 1, order, lines, j, cause);
    var path := PathToCommit(opening, 1);
    assert path[0] == opening[0];
    RunThenPath(before, path, 0, {});
    run := before + path[1..];
    PathAddsNothing(before, path, m, added);
    HeldIsBasket(order, lines);
  }

  lemma FilledUp(s: State, id: CallId, order: OrderId, lines: seq<Line>, j: nat, cause: Refusal)
    requires IsCanonical(lines) && j < |lines| && s.reservations == map[]
    requires s.stock == AllBut(lines, lines[j].sku, cause)[lines[j].sku := StockRow(lines[j].quantity, 0)]
    requires id in s.calls && s.calls[id] == Opened(order, lines)
    ensures FillableFrom(s, id, 0)
  {
    forall i | 0 <= i < |lines| ensures Secured(s, order, lines[i]) {
      BasketLine(lines, i);
      if i != j { LinesDiffer(lines, i, j); }
    }
  }

  lemma HeldIsBasket(order: OrderId, lines: seq<Line>)
    ensures HeldBy(Held(map[], order, Basket(lines)), order) == Basket(lines)
  {
    assert map[] + Basket(lines) == Basket(lines);
  }

  lemma PathAddsNothing(run: seq<State>, path: seq<State>, m: nat, added: set<Sku>)
    requires IsRun(run) && IsPath(path) && path[0] == Last(run) && AddsOnly(run, m, added)
    ensures AddsOnly(run + path[1..], m, added)
  {
    var all := run + path[1..];
    forall i | m < i < |all| ensures AddsOnlyTo(all[i - 1], all[i], added) {
      if i >= |run| {
        assert all[i] == path[i - |run| + 1] && all[i - 1] == path[i - |run|];
        assert SomeCallStepsAt(path, i - |run| + 1);
        CallStepKeepsOnHand(all[i - 1], all[i], all[i].stock.Keys);
      } else {
        assert AddsOnlyTo(run[i - 1], run[i], added);
      }
    }
  }
}
