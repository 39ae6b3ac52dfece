/**
 * The store as one request runs it: the claim transaction line by line, the report that a
 * refusal turns into, and the use case that reads before it claims.
 */
module ReservationStore {
  import opened Collections
  import opened Skus
  import opened Baskets
  import opened StockTables
  import opened Canonical

  datatype ClaimError =
    | UnknownProductSku(sku: Sku)
    | InsufficientStock(sku: Sku)
    | AlreadyClaimed

  datatype Shortfall = Shortfall(sku: Sku, requested: int, available: int)

  datatype ClaimReport =
    | Claimed
    | UnknownProducts(skus: seq<Sku>)
    | Short(shortfalls: seq<Shortfall>)
    | Plain(error: ClaimError)

  datatype Tables = Tables(stock: Stock, reservations: Reservations)

  /** Why a line cannot be claimed, read off the tables before the transaction. */
  function LineError(tables: Tables, order: OrderId, line: Line): Option<ClaimError>
  {
    if line.sku !in tables.stock then Some(UnknownProductSku(line.sku))
    else if line.sku in HeldBy(tables.reservations, order) then Some(AlreadyClaimed)
    else if !CanTake(tables.stock, line) then Some(InsufficientStock(line.sku))
    else None
  }

  ghost predicate FirstError(tables: Tables, order: OrderId, lines: seq<Line>, error: ClaimError)
  {
    exists i :: 0 <= i < |lines| && LineError(tables, order, lines[i]) == Some(error)
                && forall j :: 0 <= j < i ==> LineError(tables, order, lines[j]) == None
  }

  function Unknown(stock: Stock, lines: seq<Line>): seq<Sku>
  {
    if lines == [] then []
    else
      var last := lines[|lines| - 1];
      Unknown(stock, lines[..|lines| - 1]) + if last.sku in stock then [] else [last.sku]
  }

  function Shortfalls(stock: Stock, lines: seq<Line>): seq<Shortfall>
  {
    if lines == [] then []
    else
      var last := lines[|lines| - 1];
      Shortfalls(stock, lines[..|lines| - 1]) +
      if last.sku in stock && stock[last.sku].Free() < last.quantity
      then [Shortfall(last.sku, last.quantity, stock[last.sku].Free())] else []
  }

  lemma {:induction false} UnknownAreExact(stock: Stock, lines: seq<Line>)
    requires StrictlySorted(lines)
    ensures forall sku :: sku in Unknown(stock, lines) <==> sku in Basket(lines) && sku !in stock
    ensures forall i, j :: 0 <= i < j < |Unknown(stock, lines)| ==> Before(Unknown(stock, lines)[i], Unknown(stock, lines)[j])
  {
    if lines != [] {
      var front, last := lines[..|lines| - 1], lines[|lines| - 1];
      UnknownAreExact(stock, front);
      forall sku | sku in Unknown(stock, front) ensures Before(sku, last.sku) {
        var i := LineOf(front, sku);
      }
    }
  }

  lemma {:induction false} ShortfallsAreExact(stock: Stock, lines: seq<Line>)
    requires StrictlySorted(lines)
    ensures forall s :: s in Shortfalls(stock, lines) <==>
              s.sku in Basket(lines) && s.sku in stock && s.requested == Basket(lines)[s.sku]
              && s.available == stock[s.sku].Free() < s.requested
    ensures forall i, j :: 0 <= i < j < |Shortfalls(stock, lines)| ==>
              Before(Shortfalls(stock, lines)[i].sku, Shortfalls(stock, lines)[j].sku)
  {
    if lines != [] {
      var front, last := lines[..|lines| - 1], lines[|lines| - 1];
      ShortfallsAreExact(stock, front);
      forall s | s in Shortfalls(stock, front) ensures Before(s.sku, last.sku) {
        var i := LineOf(front, s.sku);
      }
      forall sku | sku in Basket(front) ensures sku != last.sku {
        var i := LineOf(front, sku);
        BeforeAsymmetric(sku, last.sku);
      }
    }
  }

  /** The whole claim, by one rule: every product is stocked and has enough left. */
  ghost predicate ClaimRule(before: Tables, order: OrderId, lines: seq<Line>, report: ClaimReport, after: Tables)
  {
    if forall i :: 0 <= i < |lines| ==> CanTake(before.stock, lines[i]) then
      report == Claimed && after == Tables(
        Charged(before.stock, Basket(lines)), Held(before.reservations, order, Basket(lines)))
    else
      && after == before
      && (if exists i :: 0 <= i < |lines| && lines[i].sku !in before.stock
          then report == UnknownProducts(Unknown(before.stock, lines)) && report.skus != []
          else report == Short(Shortfalls(before.stock, lines)) && report.shortfalls != [])
  }

  /** The foreign key: only products that are stocked are reserved. */
  ghost predicate ForeignKeyOk(tables: Tables)
  {
    forall order, sku :: sku in HeldBy(tables.reservations, order) ==> sku in tables.stock
  }

  /**
   * What a report says is so, and is all there is to say: exactly the products that are not
   * stocked, or, when all of them are, exactly the lines that cannot be filled, each with
   * what is free.
   */
  ghost predicate ReportTrue(stock: Stock, lines: seq<Line>, report: ClaimReport)
  {
    match report
    case UnknownProducts(skus) =>
      && skus != [] && (forall sku :: sku in skus <==> sku in Basket(lines) && sku !in stock)
      && (forall i, j :: 0 <= i < j < |skus| ==> Before(skus[i], skus[j]))
    case Short(shortfalls) =>
      && shortfalls != [] && (forall sku :: sku in Basket(lines) ==> sku in stock)
      && (forall s :: s in shortfalls <==>
            s.sku in Basket(lines) && s.sku in stock && s.requested == Basket(lines)[s.sku]
            && s.available == stock[s.sku].Free() < s.requested)
      && (forall i, j :: 0 <= i < j < |shortfalls| ==> Before(shortfalls[i].sku, shortfalls[j].sku))
    case _ => false
  }

  /** A basket that may rightly be refused: some line cannot be taken, and it is not held in full. */
  ghost predicate RightlyRefused(tables: Tables, order: OrderId, lines: seq<Line>, report: ClaimReport)
  {
    && (exists i :: 0 <= i < |lines| && !CanTake(tables.stock, lines[i]))
    && !(Basket(lines).Items <= HeldBy(tables.reservations, order).Items)
    && ReportTrue(tables.stock, lines, report)
  }

  class Store {
    var tables: Tables

    ghost predicate Valid()
      reads this
    {
      ForeignKeyOk(tables)
    }

    constructor (stock: Stock)
      ensures Valid() && tables == Tables(stock, map[])
    {
      tables := Tables(stock, map[]);
    }

    /** The rows of an order in canonical order, or nothing when it holds none. */
    method Find(order: OrderId) returns (found: Option<seq<Line>>)
      ensures found == None <==> HeldBy(tables.reservations, order) == map[]
      ensures found.Some? ==> StrictlySorted(found.value) && Basket(found.value) == HeldBy(tables.reservations, order)
    {
      var lines := Listed(HeldBy(tables.reservations, order));
      if lines == [] {
        found := None;
      } else {
        BasketLine(lines, 0);
        found := Some(lines);
      }
    }

    /** The transaction. Its writes stay its own until the commit, so leaving early undoes them. */
    method ClaimLines(order: OrderId, lines: seq<Line>) returns (error: Option<ClaimError>)
      requires IsCanonical(lines)
      modifies this
      ensures error.None? ==>
                && (forall i :: 0 <= i < |lines| ==> LineError(old(tables), order, lines[i]) == None)
                && tables == Tables(Charged(old(tables).stock, Basket(lines)),
                                    Held(old(tables).reservations, order, Basket(lines)))
      ensures error.Some? ==> tables == old(tables) && FirstError(tables, order, lines, error.value)
    {
      var transaction := tables;
      for i := 0 to |lines|
        invariant tables == old(tables)
        invariant forall j :: 0 <= j < i ==> LineError(tables, order, lines[j]) == None
        invariant transaction == InProgress(tables, order, lines[..i])
      {
        NextInProgress(tables, order, lines, i);
        transaction, error := ClaimLine(transaction, order, lines[i]);
        if error.Some? {
          return;
        }
      }
      assert lines[..|lines|] == lines;
      tables := transaction;
      error := None;
    }

    method ClaimLine(transaction: Tables, order: OrderId, line: Line) returns (next: Tables, error: Option<ClaimError>)
      ensures error == LineError(transaction, order, line)
      ensures next == if error.Some? then transaction
                      else Tables(Taken(transaction.stock, line), Inserted(transaction.reservations, order, line))
    {
      next := transaction;
      if line.sku !in next.stock {
        return next, Some(UnknownProductSku(line.sku));
      }
      if line.sku in HeldBy(next.reservations, order) {
        return next, Some(AlreadyClaimed);
      }
      if next.stock[line.sku].Free() < line.quantity {
        return next, Some(InsufficientStock(line.sku));
      }
      next := Tables(Taken(next.stock, line), Inserted(next.reservations, order, line));
      error := None;
    }

    /** Free units per requested product; a product that is missing is not stocked at all. */
    method Availability(lines: seq<Line>) returns (available: map<Sku, int>)
      ensures available.Keys == Basket(lines).Keys * tables.stock.Keys
      ensures forall sku :: sku in available ==> available[sku] == tables.stock[sku].Free()
    {
      available := map[];
      for i := 0 to |lines|
        invariant available.Keys == Basket(lines[..i]).Keys * tables.stock.Keys
        invariant forall sku :: sku in available ==> available[sku] == tables.stock[sku].Free()
      {
        assert lines[..i + 1][..i] == lines[..i];
        if lines[i].sku in tables.stock {
          available := available[lines[i].sku := tables.stock[lines[i].sku].Free()];
        }
      }
      assert lines[..|lines|] == lines;
    }

    /** Turns the first line that tripped a claim into the whole picture. */
    method DescribeFailure(error: ClaimError, lines: seq<Line>) returns (report: ClaimReport)
      requires StrictlySorted(lines)
      ensures report == if error == AlreadyClaimed then Plain(error)
                        else if Unknown(tables.stock, lines) != [] then UnknownProducts(Unknown(tables.stock, lines))
                        else if Shortfalls(tables.stock, lines) != [] then Short(Shortfalls(tables.stock, lines))
                        else Plain(error)
    {
      if error == AlreadyClaimed {
        return Plain(error);
      }
      var available := Availability(lines);
      var unknown: seq<Sku>, shortfalls: seq<Shortfall> := [], [];
      for i := 0 to |lines|
        invariant unknown == Unknown(tables.stock, lines[..i])
      {
        assert lines[..i + 1][..i] == lines[..i];
        BasketKeys(lines, lines[i].sku);
        if lines[i].sku !in available {
          unknown := unknown + [lines[i].sku];
        }
      }
      assert lines[..|lines|] == lines;
      if unknown != [] {
        return UnknownProducts(unknown);
      }
      UnknownAreExact(tables.stock, lines);
      shortfalls := ShortLines(lines, available);
      report := if shortfalls == [] then Plain(error) else Short(shortfalls);
    }

    /** The lines that ask for more than is free, when every product is stocked. */
    method ShortLines(lines: seq<Line>, available: map<Sku, int>) returns (shortfalls: seq<Shortfall>)
      requires available.Keys == Basket(lines).Keys <= tables.stock.Keys
      requires forall sku :: sku in available ==> available[sku] == tables.stock[sku].Free()
      ensures shortfalls == Shortfalls(tables.stock, lines)
    {
      shortfalls := [];
      for i := 0 to |lines|
        invariant shortfalls == Shortfalls(tables.stock, lines[..i])
      {
        assert lines[..i + 1][..i] == lines[..i];
        BasketKeys(lines, lines[i].sku);
        var free := available[lines[i].sku];
        if free < lines[i].quantity {
          shortfalls := shortfalls + [Shortfall(lines[i].sku, lines[i].quantity, free)];
        }
      }
      assert lines[..|lines|] == lines;
    }

    /**
     * Run with nobody else between the claim and its report. An order that holds nothing
     * gets the simple rule; an order that holds some of the lines may instead be told
     * that it was claimed already, and nothing changes.
     */
    method Claim(order: OrderId, lines: seq<Line>) returns (report: ClaimReport)
      requires Valid() && IsCanonical(lines)
      modifies this
      ensures Valid()
      ensures report != Claimed && report != Plain(AlreadyClaimed) ==> RightlyRefused(tables, order, lines, report)
      ensures HeldBy(old(tables).reservations, order) == map[] ==>
                ClaimRule(old(tables), order, lines, report, tables)
      ensures report != Claimed ==> tables == old(tables)
      ensures report == Claimed ==>
                Basket(lines).Items <= HeldBy(tables.reservations, order).Items && Grown(old(tables), tables)
      ensures report == Plain(AlreadyClaimed) ==> HeldBy(tables.reservations, order) != map[]
      ensures report.Plain? ==> report.error == AlreadyClaimed
    {
      var error := ClaimLines(order, lines);
      if error.None? {
        report := Claimed;
        ClaimedGrows(old(tables), order, lines);
        ClaimedKeepsForeignKey(old(tables), order, lines);
      } else {
        report := DescribeFailure(error.value, lines);
        FailureIsDescribed(tables, order, lines, error.value);
        if report != Plain(AlreadyClaimed) { FailureIsRight(tables, order, lines, error.value, report); }
      }
    }
  }

  function InProgress(tables: Tables, order: OrderId, done: seq<Line>): Tables
  {
    if done == [] then tables
    else Tables(Charged(tables.stock, Basket(done)), Held(tables.reservations, order, Basket(done)))
  }

  lemma NextInProgress(tables: Tables, order: OrderId, lines: seq<Line>, i: nat)
    requires StrictlySorted(lines) && i < |lines|
    ensures var transaction := InProgress(tables, order, lines[..i]);
            && LineError(transaction, order, lines[i]) == LineError(tables, order, lines[i])
            && (lines[i].sku in tables.stock ==>
                  InProgress(tables, order, lines[..i + 1])
                  == Tables(Taken(transaction.stock, lines[i]), Inserted(transaction.reservations, order, lines[i])))
  {
    assert lines[..i + 1][..i] == lines[..i];
    var done := Basket(lines[..i]);
    if lines[i].sku in done {
      var j := LineOf(lines[..i], lines[i].sku);
      LinesDiffer(lines, i, j);
    }
    if lines[i].sku in tables.stock { NextLine(tables.stock, tables.reservations, order, done, lines[i]); }
    if i == 0 {
      assert Charged(tables.stock, map[]) == tables.stock;
      assert HeldBy(tables.reservations, order) + map[] == HeldBy(tables.reservations, order);
    }
  }

  lemma ClaimedGrows(before: Tables, order: OrderId, lines: seq<Line>)
    requires IsCanonical(lines) && forall i :: 0 <= i < |lines| ==> LineError(before, order, lines[i]) == None
    ensures var after := Tables(Charged(before.stock, Basket(lines)), Held(before.reservations, order, Basket(lines)));
            && Grown(before, after)
            && Basket(lines).Items <= HeldBy(after.reservations, order).Items
            && HeldBy(after.reservations, order) != map[]
  {
    var held, basket := HeldBy(before.reservations, order), Basket(lines);
    BasketLine(lines, 0);
    forall sku | sku in basket ensures sku !in held {
      var i := LineOf(lines, sku);
      assert LineError(before, order, lines[i]) == None;
    }
    AddedItems(held, basket);
  }

  lemma AddedItems(held: map<Sku, int>, basket: map<Sku, int>)
    requires held.Keys !! basket.Keys
    ensures held.Items <= (held + basket).Items && basket.Items <= (held + basket).Items
  {
    forall item | item in held.Items ensures item in (held + basket).Items { assert (held + basket)[item.0] == item.1; }
    forall item | item in basket.Items ensures item in (held + basket).Items { assert (held + basket)[item.0] == item.1; }
  }

  lemma SomeUnknown(stock: Stock, lines: seq<Line>)
    requires StrictlySorted(lines)
    ensures (exists i :: 0 <= i < |lines| && lines[i].sku !in stock) <==> Unknown(stock, lines) != []
  {
    UnknownAreExact(stock, lines);
    if Unknown(stock, lines) != [] {
      assert Unknown(stock, lines)[0] in Unknown(stock, lines);
      var j := LineOf(lines, Unknown(stock, lines)[0]);
    }
    if j :| 0 <= j < |lines| && lines[j].sku !in stock {
      BasketLine(lines, j);
    }
  }

  lemma SomeShort(stock: Stock, lines: seq<Line>, i: nat)
    requires StrictlySorted(lines) && i < |lines| && lines[i].sku in stock && !CanTake(stock, lines[i])
    ensures Shortfalls(stock, lines) != []
  {
    BasketLine(lines, i);
    ShortfallsAreExact(stock, lines);
    var s := Shortfall(lines[i].sku, lines[i].quantity, stock[lines[i].sku].Free());
    assert s in Shortfalls(stock, lines);
  }

  /** A refusal leaves something to report, unless the order turned out to hold rows. */
  lemma FailureIsDescribed(tables: Tables, order: OrderId, lines: seq<Line>, error: ClaimError)
    requires IsCanonical(lines) && FirstError(tables, order, lines, error)
    ensures error == AlreadyClaimed ==> HeldBy(tables.reservations, order) != map[]
    ensures error != AlreadyClaimed ==> exists i :: 0 <= i < |lines| && !CanTake(tables.stock, lines[i])
    ensures error != AlreadyClaimed && Unknown(tables.stock, lines) == [] ==> Shortfalls(tables.stock, lines) != []
    ensures (exists i :: 0 <= i < |lines| && lines[i].sku !in tables.stock) <==> Unknown(tables.stock, lines) != []
  {
    var i :| 0 <= i < |lines| && LineError(tables, order, lines[i]) == Some(error);
    SomeUnknown(tables.stock, lines);
    if error != AlreadyClaimed && lines[i].sku in tables.stock { SomeShort(tables.stock, lines, i); }
  }

  lemma ClaimedKeepsForeignKey(before: Tables, order: OrderId, lines: seq<Line>)
    requires ForeignKeyOk(before) && IsCanonical(lines)
    requires forall i :: 0 <= i < |lines| ==> LineError(before, order, lines[i]) == None
    ensures ForeignKeyOk(Tables(Charged(before.stock, Basket(lines)), Held(before.reservations, order, Basket(lines))))
  {
    forall sku | sku in Basket(lines) ensures sku in before.stock {
      var i := LineOf(lines, sku);
      assert LineError(before, order, lines[i]) == None;
    }
    HeldKeepsForeignKey(before, order, Basket(lines));
  }

  lemma HeldKeepsForeignKey(before: Tables, order: OrderId, basket: map<Sku, int>)
    requires ForeignKeyOk(before) && forall sku :: sku in basket ==> sku in before.stock
    ensures ForeignKeyOk(Tables(Charged(before.stock, basket), Held(before.reservations, order, basket)))
  {
    var after := Tables(Charged(before.stock, basket), Held(before.reservations, order, basket));
    forall other, sku | sku in HeldBy(after.reservations, other) ensures sku in after.stock {
      assert sku in HeldBy(before.reservations, other) || sku in basket;
    }
  }

  /** The line that tripped a claim is not held, so the basket is not held in full. */
  lemma FailureIsRight(tables: Tables, order: OrderId, lines: seq<Line>, error: ClaimError, report: ClaimReport)
    requires ForeignKeyOk(tables) && IsCanonical(lines) && FirstError(tables, order, lines, error) && error != AlreadyClaimed
    requires report == if Unknown(tables.stock, lines) != [] then UnknownProducts(Unknown(tables.stock, lines))
                       else Short(Shortfalls(tables.stock, lines))
    ensures RightlyRefused(tables, order, lines, report)
  {
    var i :| 0 <= i < |lines| && LineError(tables, order, lines[i]) == Some(error);
    BasketLine(lines, i);
    assert lines[i].sku !in HeldBy(tables.reservations, order);
    assert (lines[i].sku, lines[i].quantity) in Basket(lines).Items;
    FailureIsDescribed(tables, order, lines, error);
    UnknownAreExact(tables.stock, lines);
    ShortfallsAreExact(tables.stock, lines);
    if Unknown(tables.stock, lines) == [] {
      forall sku | sku in Basket(lines) ensures sku in tables.stock { assert sku !in Unknown(tables.stock, lines); }
    }
  }

  /** Rows are never deleted: whatever an order holds it goes on holding. */
  ghost predicate Grown(before: Tables, after: Tables)
  {
    forall order :: HeldBy(before.reservations, order).Items <= HeldBy(after.reservations, order).Items
  }

  lemma GrownTransitive(a: Tables, b: Tables, c: Tables)
    requires Grown(a, b) && Grown(b, c)
    ensures Grown(a, c)
  {
  }

  lemma GrownKeepsSome(a: Tables, b: Tables, order: OrderId)
    requires Grown(a, b) && HeldBy(a.reservations, order) != map[]
    ensures HeldBy(b.reservations, order) != map[]
  {
    var sku :| sku in HeldBy(a.reservations, order);
    assert (sku, HeldBy(a.reservations, order)[sku]) in HeldBy(b.reservations, order).Items;
  }

  // ----- the use case

  datatype ReserveResult =
    | Confirmed
    | InvalidRequest(violations: seq<Violation>, omitted: nat)
    | IdempotencyConflict(held: seq<Line>, requested: seq<Line>)
    | Refused(report: ClaimReport)
    | GaveUp

  class ReserveStock {
    const store: Store

    constructor (store: Store)
      ensures this.store == store
    {
      this.store := store;
    }

    /**
     * Whatever other requests commit between two statements of this one. The body does
     * nothing; a caller may rely on no more than the contract, which is any growth, and
     * none when the request is alone.
     */
    method OthersCommit(alone: bool)
      requires store.Valid()
      modifies store
      ensures store.Valid() && Grown(old(store.tables), store.tables)
      ensures alone ==> store.tables == old(store.tables)
    {
    }

    /**
     * What is answered is so at the moment it is answered, whatever others commit
     * meanwhile, and a request that is alone is answered by one rule.
     */
    method Execute(order: string, lines: seq<RawLine>, isUuid: string -> bool, alone: bool) returns (result: ReserveResult)
      requires store.Valid()
      modifies store
      ensures store.Valid() && Grown(old(store.tables), store.tables)
      ensures result.InvalidRequest? <==> !Acceptable(Trim(order), Cleaned(lines), isUuid)
      ensures result.InvalidRequest? ==> store.tables == old(store.tables)
      ensures !result.InvalidRequest? ==> AnswerTrue(store.tables, Trim(order), Canonicals(Cleaned(lines)), result)
      ensures !result.InvalidRequest? && HeldBy(old(store.tables).reservations, Trim(order)) != map[] ==>
                && store.tables == old(store.tables)
                && (result == Confirmed <==> HeldBy(old(store.tables).reservations, Trim(order)) == Sums(Cleaned(lines)))
      ensures !result.InvalidRequest? && alone ==>
                AloneRule(old(store.tables), Trim(order), Sums(Cleaned(lines)), result, store.tables)
    {
      var outcome := Canonicalize(order, lines, isUuid);
      if outcome.Invalid? {
        return InvalidRequest(outcome.violations, outcome.omitted);
      }
      CanonicalsCarrySums(Cleaned(lines));
      result := ReadThenClaim(outcome.order, outcome.lines, alone);
    }

    method ReadThenClaim(order: OrderId, lines: seq<Line>, alone: bool) returns (result: ReserveResult)
      requires store.Valid() && IsCanonical(lines)
      modifies store
      ensures store.Valid() && Grown(old(store.tables), store.tables)
      ensures AnswerTrue(store.tables, order, lines, result)
      ensures HeldBy(old(store.tables).reservations, order) != map[] ==>
                && store.tables == old(store.tables)
                && (result == Confirmed <==> HeldBy(old(store.tables).reservations, order) == Basket(lines))
      ensures alone ==> AloneRule(old(store.tables), order, Basket(lines), result, store.tables)
    {
      for pass := 0 to CLAIM_ATTEMPTS
        invariant store.Valid() && Grown(old(store.tables), store.tables)
        invariant pass > 0 ==> pass < CLAIM_ATTEMPTS && HeldBy(store.tables.reservations, order) != map[]
        invariant HeldBy(old(store.tables).reservations, order) != map[] || alone ==>
                    pass == 0 && store.tables == old(store.tables)
      {
        var found := store.Find(order);
        if found.Some? {
          SortedListingUnique(found.value, lines);
          return if found.value == lines then Confirmed else IdempotencyConflict(found.value, lines);
        }
        ghost var read := store.tables;
        OthersCommit(alone);
        GrownTransitive(old(store.tables), read, store.tables);
        ghost var before := store.tables;
        var report := store.Claim(order, lines);
        assert Grown(before, store.tables);
        GrownTransitive(old(store.tables), before, store.tables);
        if report != Plain(AlreadyClaimed) {
          if alone { ClaimedAlone(before, order, lines, report, store.tables); }
          return if report == Claimed then Confirmed else Refused(report);
        }
        ghost var claimed := store.tables;
        OthersCommit(alone);
        GrownTransitive(old(store.tables), claimed, store.tables);
        GrownKeepsSome(claimed, store.tables, order);
      }
      result := GaveUp;
    }
  }

  /** What each answer says about the tables as they are when it is given. */
  ghost predicate AnswerTrue(tables: Tables, order: OrderId, lines: seq<Line>, result: ReserveResult)
  {
    var held := HeldBy(tables.reservations, order);
    match result
    case Confirmed => Basket(lines).Items <= held.Items
    case IdempotencyConflict(stored, requested) =>
      held != map[] && held != Basket(lines) && requested == lines && StrictlySorted(stored) && Basket(stored) == held
    case Refused(report) => RightlyRefused(tables, order, lines, report)
    case _ => false
  }

  /**
   * The rule for a request that is alone. An order that holds rows is confirmed when they
   * are the basket, and in conflict otherwise. One that holds none gets the whole basket
   * when every product has enough free, and otherwise is refused; nothing else changes.
   */
  ghost predicate AloneRule(before: Tables, order: OrderId, basket: map<Sku, int>, result: ReserveResult, after: Tables)
  {
    var held := HeldBy(before.reservations, order);
    if held != map[] then
      after == before && (if held == basket then result == Confirmed else result.IdempotencyConflict?)
    else if forall sku :: sku in basket ==> sku in before.stock && before.stock[sku].Free() >= basket[sku] then
      && result == Confirmed && HeldBy(after.reservations, order) == basket
      && (forall other :: other != order ==> HeldBy(after.reservations, other) == HeldBy(before.reservations, other))
      && after.stock.Keys == before.stock.Keys
      && (forall sku :: sku in before.stock ==>
            && after.stock[sku].onHand == before.stock[sku].onHand
            && after.stock[sku].reserved == before.stock[sku].reserved + Quantity(basket, sku))
    else after == before && result.Refused?
  }

  /** The claim's rule over lines is the rule over products. */
  lemma ClaimedAlone(before: Tables, order: OrderId, lines: seq<Line>, report: ClaimReport, after: Tables)
    requires IsCanonical(lines) && HeldBy(before.reservations, order) == map[]
    requires ClaimRule(before, order, lines, report, after)
    ensures AloneRule(before, order, Basket(lines), if report == Claimed then Confirmed else Refused(report), after)
  {
    FillableByProduct(before.stock, lines);
    assert map[] + Basket(lines) == Basket(lines);
  }

  lemma FillableByProduct(stock: Stock, lines: seq<Line>)
    requires IsCanonical(lines)
    ensures (forall i :: 0 <= i < |lines| ==> CanTake(stock, lines[i])) <==>
            (forall sku :: sku in Basket(lines) ==> sku in stock && stock[sku].Free() >= Basket(lines)[sku])
  {
    if forall i :: 0 <= i < |lines| ==> CanTake(stock, lines[i]) {
      forall sku | sku in Basket(lines) ensures sku in stock && stock[sku].Free() >= Basket(lines)[sku] {
        var i := LineOf(lines, sku);
      }
    }
    if forall sku :: sku in Basket(lines) ==> sku in stock && stock[sku].Free() >= Basket(lines)[sku] {
      forall i | 0 <= i < |lines| ensures CanTake(stock, lines[i]) { BasketLine(lines, i); }
    }
  }
}
