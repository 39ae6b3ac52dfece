/**
 * Canonicalize: one form for every way of asking for the same basket.
 *
 * The method walks the lines once, as the service does, with 32-bit quantities. What it
 * returns is pinned down by two independent definitions: the per-product sums of the
 * request, and a list kept sorted by merging one line at a time.
 */
module Canonical {
  import opened Collections
  import opened Skus
  import opened Baskets
  import opened StockTables

  newtype int32 = x: int | -0x8000_0000 <= x < 0x8000_0000

  const MAX_LINE_QUANTITY: int32 := 10_000
  const MAX_LINES := 200
  const MAX_REPORTED_VIOLATIONS := 20

  datatype RawLine = RawLine(productSku: string, quantity: int32)

  datatype Violation =
    | BadOrderId
    | NoLines
    | TooManyLines(count: nat)
    | BlankSku(index: nat)
    | QuantityOutOfRange(index: nat, quantity: int)
    | TotalTooLarge(index: nat, sku: Sku)

  datatype Outcome =
    | Canonicalized(order: string, lines: seq<Line>)
    | Invalid(violations: seq<Violation>, omitted: nat)

  /** A line as it is compared and summed: its product code trimmed. */
  function Clean(line: RawLine): Line { Line(Trim(line.productSku), line.quantity as int) }

  function Cleaned(lines: seq<RawLine>): seq<Line> { Mapped(Clean, lines) }

  // ----- what is asked for

  function Plus(sums: map<Sku, int>, line: Line): map<Sku, int>
  {
    sums[line.sku := Quantity(sums, line.sku) + line.quantity]
  }

  /** The quantity asked for per product, over all lines. */
  function Sums(lines: seq<Line>): map<Sku, int>
  {
    if lines == [] then map[] else Plus(Sums(lines[..|lines| - 1]), lines[|lines| - 1])
  }

  predicate LineValid(line: Line)
  {
    line.sku != "" && 0 < line.quantity <= MAX_LINE_QUANTITY as int
  }

  predicate AllValid(lines: seq<Line>)
  {
    forall i :: 0 <= i < |lines| ==> LineValid(lines[i])
  }

  predicate Bounded(sums: map<Sku, int>)
  {
    forall sku :: sku in sums ==> sums[sku] <= MAX_LINE_QUANTITY as int
  }

  predicate Acceptable(order: string, lines: seq<Line>, isUuid: string -> bool)
  {
    isUuid(order) && 1 <= |lines| <= MAX_LINES && AllValid(lines) && Bounded(Sums(lines))
  }

  // ----- what is wrong

  predicate Fits(sums: map<Sku, int>, line: Line)
  {
    LineValid(line) && Quantity(sums, line.sku) + line.quantity <= MAX_LINE_QUANTITY as int
  }

  /** The quantities gathered from the lines that raised no complaint. */
  function Gathered(lines: seq<Line>): map<Sku, int>
  {
    if lines == [] then map[]
    else
      GatheredWith(Gathered(lines[..|lines| - 1]), lines[|lines| - 1])
  }

  function GatheredWith(before: map<Sku, int>, line: Line): map<Sku, int>
  {
    if Fits(before, line) then Plus(before, line) else before
  }

  function LineViolation(sums: map<Sku, int>, line: Line, index: nat): seq<Violation>
  {
    if line.sku == "" then [BlankSku(index)]
    else if !LineValid(line) then [QuantityOutOfRange(index, line.quantity)]
    else if !Fits(sums, line) then [TotalTooLarge(index, line.sku)]
    else []
  }

  function LineViolations(lines: seq<Line>): seq<Violation>
  {
    if lines == [] then []
    else
      var last := |lines| - 1;
      LineViolations(lines[..last]) + LineViolation(Gathered(lines[..last]), lines[last], last)
  }

  /** What is wrong with a request as a whole. */
  function HeaderViolations(order: string, count: nat, isUuid: string -> bool): seq<Violation>
  {
    (if isUuid(order) then [] else [BadOrderId])
    + (if count == 0 then [NoLines] else [])
    + (if count > MAX_LINES then [TooManyLines(count)] else [])
  }

  /** Past the cap the request is refused whole, without walking its lines. */
  function RequestViolations(order: string, lines: seq<Line>, isUuid: string -> bool): seq<Violation>
  {
    if |lines| > MAX_LINES then HeaderViolations(order, |lines|, isUuid)
    else HeaderViolations(order, |lines|, isUuid) + LineViolations(lines)
  }

  lemma {:induction false} NoComplaintMeansBounded(lines: seq<Line>)
    requires LineViolations(lines) == []
    ensures Gathered(lines) == Sums(lines) && AllValid(lines) && Bounded(Sums(lines))
  {
    if lines != [] {
      var front, last := lines[..|lines| - 1], lines[|lines| - 1];
      NoComplaintMeansBounded(front);
      assert Fits(Gathered(front), last);
      forall i | 0 <= i < |lines| ensures LineValid(lines[i]) {
        assert i < |front| ==> LineValid(front[i]);
      }
    }
  }

  lemma {:induction false} BoundedMeansNoComplaint(lines: seq<Line>)
    requires AllValid(lines) && Bounded(Sums(lines))
    ensures LineViolations(lines) == []
  {
    if lines != [] {
      var front, last := lines[..|lines| - 1], lines[|lines| - 1];
      assert LineValid(last);
      assert AllValid(front);
      BoundedBefore(Sums(front), last);
      BoundedMeansNoComplaint(front);
      NoComplaintMeansBounded(front);
    }
  }

  lemma BoundedBefore(sums: map<Sku, int>, line: Line)
    requires line.quantity > 0 && Bounded(Plus(sums, line))
    ensures Bounded(sums) && Quantity(sums, line.sku) + line.quantity <= MAX_LINE_QUANTITY as int
  {
    var after := Plus(sums, line);
    assert line.sku in after;
    forall k | k in sums ensures sums[k] <= MAX_LINE_QUANTITY as int { assert k in after; }
  }

  lemma AcceptableMeansNoViolation(order: string, lines: seq<Line>, isUuid: string -> bool)
    ensures Acceptable(order, lines, isUuid) <==> RequestViolations(order, lines, isUuid) == []
  {
    if LineViolations(lines) == [] { NoComplaintMeansBounded(lines); }
    else if AllValid(lines) && Bounded(Sums(lines)) { BoundedMeansNoComplaint(lines); }
  }

  // ----- the canonical list, one line at a time

  /** Adds a line to a sorted list, summing it into the line for the same product. */
  function Merge(sorted: seq<Line>, line: Line): seq<Line>
  {
    if sorted == [] then [line]
    else if line.sku == sorted[0].sku then [Line(line.sku, sorted[0].quantity + line.quantity)] + sorted[1..]
    else if Before(line.sku, sorted[0].sku) then [line] + sorted
    else [sorted[0]] + Merge(sorted[1..], line)
  }

  function Canonicals(lines: seq<Line>): seq<Line>
  {
    if lines == [] then [] else Merge(Canonicals(lines[..|lines| - 1]), lines[|lines| - 1])
  }

  lemma {:induction false} MergeSkus(sorted: seq<Line>, line: Line, i: nat)
    requires i < |Merge(sorted, line)|
    ensures Merge(sorted, line)[i].sku == line.sku || exists j :: 0 <= j < |sorted| && sorted[j].sku == Merge(sorted, line)[i].sku
  {
    if sorted != [] && i > 0 && line.sku != sorted[0].sku && !Before(line.sku, sorted[0].sku) {
      MergeSkus(sorted[1..], line, i - 1);
      if j :| 0 <= j < |sorted[1..]| && sorted[1..][j].sku == Merge(sorted[1..], line)[i - 1].sku {
        assert sorted[j + 1].sku == Merge(sorted, line)[i].sku;
      }
    } else if sorted != [] && i > 0 && line.sku != sorted[0].sku {
      assert sorted[i - 1].sku == Merge(sorted, line)[i].sku;
    } else if sorted != [] {
      assert i > 0 ==> sorted[i].sku == Merge(sorted, line)[i].sku;
    }
  }

  lemma {:induction false} MergeKeepsSorted(sorted: seq<Line>, line: Line)
    requires StrictlySorted(sorted)
    ensures StrictlySorted(Merge(sorted, line))
  {
    if sorted != [] {
      var head, tail := sorted[0], sorted[1..];
      if line.sku == head.sku {
      } else if Before(line.sku, head.sku) {
        var merged := [line] + sorted;
        forall j | 0 < j < |merged| ensures Before(line.sku, merged[j].sku) {
          if j > 1 { BeforeTransitive(line.sku, head.sku, sorted[j - 1].sku); }
        }
      } else {
        BeforeTotal(line.sku, head.sku);
        MergeKeepsSorted(tail, line);
        var merged := Merge(tail, line);
        forall j | 0 <= j < |merged| ensures Before(head.sku, merged[j].sku) { MergeSkus(tail, line, j); }
      }
    }
  }

  lemma {:induction false} BasketOfCons(head: Line, tail: seq<Line>)
    requires StrictlySorted([head] + tail)
    ensures Basket([head] + tail) == Basket(tail)[head.sku := head.quantity]
  {
    var all := [head] + tail;
    if tail != [] {
      var front, last := tail[..|tail| - 1], tail[|tail| - 1];
      assert all[..|all| - 1] == [head] + front;
      assert Before(all[0].sku, all[|all| - 1].sku);
      BeforeAsymmetric(head.sku, last.sku);
      BasketOfCons(head, front);
    }
  }

  lemma {:induction false} MergeAddsToBasket(sorted: seq<Line>, line: Line)
    requires StrictlySorted(sorted)
    ensures Basket(Merge(sorted, line)) == Plus(Basket(sorted), line)
  {
    MergeKeepsSorted(sorted, line);
    if sorted != [] {
      var head, tail := sorted[0], sorted[1..];
      assert sorted == [head] + tail;
      if line.sku == head.sku {
        MergeIntoHead(head, tail, line);
      } else if Before(line.sku, head.sku) {
        BasketOfCons(line, sorted);
        FirstIsLeast(sorted, line.sku);
      } else {
        MergeAddsToBasket(tail, line);
        MergeBehindHead(head, tail, line);
      }
    }
  }

  lemma MergeIntoHead(head: Line, tail: seq<Line>, line: Line)
    requires StrictlySorted([head] + tail) && line.sku == head.sku
    ensures Basket([Line(line.sku, head.quantity + line.quantity)] + tail) == Plus(Basket([head] + tail), line)
  {
    var summed := Line(line.sku, head.quantity + line.quantity);
    var before, after := [head] + tail, [summed] + tail;
    forall i, j | 0 <= i < j < |after| ensures Before(after[i].sku, after[j].sku) {
      assert after[i].sku == before[i].sku && after[j].sku == before[j].sku;
    }
    BasketOfCons(head, tail);
    BasketOfCons(summed, tail);
  }

  lemma MergeBehindHead(head: Line, tail: seq<Line>, line: Line)
    requires StrictlySorted([head] + tail) && StrictlySorted([head] + Merge(tail, line)) && line.sku != head.sku
    requires Basket(Merge(tail, line)) == Plus(Basket(tail), line)
    ensures Basket([head] + Merge(tail, line)) == Plus(Basket([head] + tail), line)
  {
    BasketOfCons(head, tail);
    BasketOfCons(head, Merge(tail, line));
    PlusBeside(Basket(tail), line, head.sku, head.quantity);
  }

  lemma PlusBeside(sums: map<Sku, int>, line: Line, other: Sku, held: int)
    requires line.sku != other
    ensures Plus(sums, line)[other := held] == Plus(sums[other := held], line)
  {
  }

  lemma FirstIsLeast(sorted: seq<Line>, sku: Sku)
    requires StrictlySorted(sorted) && sorted != [] && Before(sku, sorted[0].sku)
    ensures sku !in Basket(sorted)
  {
    if sku in Basket(sorted) {
      var i := LineOf(sorted, sku);
      if i > 0 { BeforeTransitive(sku, sorted[0].sku, sku); }
      BeforeIrreflexive(sku);
    }
  }

  /** The merged list is sorted and carries exactly the sums of the request. */
  lemma {:induction false} CanonicalsCarrySums(lines: seq<Line>)
    ensures StrictlySorted(Canonicals(lines)) && Basket(Canonicals(lines)) == Sums(lines)
  {
    if lines != [] {
      var front, last := lines[..|lines| - 1], lines[|lines| - 1];
      CanonicalsCarrySums(front);
      MergeKeepsSorted(Canonicals(front), last);
      MergeAddsToBasket(Canonicals(front), last);
    }
  }

  // ----- one form for every wording

  lemma {:induction false} SumsWithout(lines: seq<Line>, k: nat)
    requires k < |lines|
    ensures Sums(lines) == Plus(Sums(lines[..k] + lines[k + 1..]), lines[k])
  {
    var last := |lines| - 1;
    var front, rest := lines[..last], lines[..k] + lines[k + 1..];
    if k == last {
      assert rest == front;
    } else {
      SumsWithout(front, k);
      var inner := front[..k] + front[k + 1..];
      assert rest == inner + [lines[last]];
      assert rest[..|rest| - 1] == inner;
      PlusCommutes(Sums(inner), lines[k], lines[last]);
    }
  }

  lemma PlusCommutes(sums: map<Sku, int>, a: Line, b: Line)
    ensures Plus(Plus(sums, a), b) == Plus(Plus(sums, b), a)
  {
    if a.sku == b.sku {
      assert Plus(Plus(sums, a), b) == sums[a.sku := Quantity(sums, a.sku) + a.quantity + b.quantity];
    } else {
      PlusBeside(sums, b, a.sku, Quantity(sums, a.sku) + a.quantity);
    }
  }

  lemma {:induction false} SumsIgnoreOrder(a: seq<Line>, b: seq<Line>)
    requires multiset(a) == multiset(b)
    ensures Sums(a) == Sums(b)
    decreases |a|
  {
    if a == [] {
      assert |multiset(b)| == 0;
    } else {
      var last := |a| - 1;
      assert a[last] in multiset(b);
      var k :| 0 <= k < |b| && b[k] == a[last];
      var rest := b[..k] + b[k + 1..];
      DropOne(b, k);
      assert a == a[..last] + [a[last]];
      SumsIgnoreOrder(a[..last], rest);
      SumsWithout(b, k);
    }
  }

  /** Requests that differ only in the order of their lines have one verdict and one canonical list. */
  lemma CanonicalIgnoresOrder(order: string, first: seq<RawLine>, second: seq<RawLine>, isUuid: string -> bool)
    requires multiset(first) == multiset(second)
    ensures Acceptable(order, Cleaned(first), isUuid) <==> Acceptable(order, Cleaned(second), isUuid)
    ensures Canonicals(Cleaned(first)) == Canonicals(Cleaned(second))
  {
    MappedIgnoresOrder(Clean, first, second);
    OrderDoesNotMatter(order, Cleaned(first), Cleaned(second), isUuid);
  }

  lemma OrderDoesNotMatter(order: string, a: seq<Line>, b: seq<Line>, isUuid: string -> bool)
    requires multiset(a) == multiset(b)
    ensures Acceptable(order, a, isUuid) <==> Acceptable(order, b, isUuid)
    ensures Canonicals(a) == Canonicals(b)
  {
    SumsIgnoreOrder(a, b);
    CanonicalsCarrySums(a);
    CanonicalsCarrySums(b);
    SortedListingUnique(Canonicals(a), Canonicals(b));
    assert |a| == |multiset(a)| == |multiset(b)| == |b|;
    assert forall i :: 0 <= i < |a| ==> a[i] in multiset(b);
    assert forall i :: 0 <= i < |b| ==> b[i] in multiset(a);
  }

  // ----- what the accepted form promises

  lemma {:induction false} SumsPositive(lines: seq<Line>)
    requires AllValid(lines)
    ensures forall sku :: sku in Sums(lines) ==> sku != "" && Sums(lines)[sku] > 0
  {
    if lines != [] {
      assert LineValid(lines[|lines| - 1]);
      SumsPositive(lines[..|lines| - 1]);
    }
  }

  lemma AcceptedIsCanonical(lines: seq<Line>)
    requires lines != [] && AllValid(lines)
    ensures IsCanonical(Canonicals(lines))
  {
    var c := Canonicals(lines);
    CanonicalsCarrySums(lines);
    SumsPositive(lines);
    assert lines[|lines| - 1].sku in Sums(lines);
    forall i | 0 <= i < |c| ensures c[i].quantity > 0 { BasketLine(c, i); }
  }

  lemma {:induction false} MergeLength(sorted: seq<Line>, line: Line)
    ensures |Merge(sorted, line)| <= |sorted| + 1
  {
    if sorted != [] { MergeLength(sorted[1..], line); }
  }

  lemma {:induction false} CanonicalsLength(lines: seq<Line>)
    ensures |Canonicals(lines)| <= |lines|
  {
    if lines != [] {
      CanonicalsLength(lines[..|lines| - 1]);
      MergeLength(Canonicals(lines[..|lines| - 1]), lines[|lines| - 1]);
    }
  }

  lemma {:induction false} SortedSumsAreTheBasket(lines: seq<Line>)
    requires StrictlySorted(lines)
    ensures Sums(lines) == Basket(lines)
  {
    if lines != [] {
      FrontBasket(lines);
      SortedSumsAreTheBasket(lines[..|lines| - 1]);
    }
  }

  /** A canonical list is accepted again and comes back unchanged. */
  lemma CanonicalIsFixedPoint(order: string, lines: seq<Line>, isUuid: string -> bool)
    requires Acceptable(order, lines, isUuid)
    ensures Acceptable(order, Canonicals(lines), isUuid)
    ensures Canonicals(Canonicals(lines)) == Canonicals(lines)
  {
    var c := Canonicals(lines);
    CanonicalsCarrySums(lines);
    AcceptedIsCanonical(lines);
    CanonicalsLength(lines);
    SumsPositive(lines);
    SortedSumsAreTheBasket(c);
    CanonicalsCarrySums(c);
    SortedListingUnique(Canonicals(c), c);
    forall i | 0 <= i < |c| ensures LineValid(c[i]) { BasketLine(c, i); }
  }

  lemma {:induction false} SumsComeFromLines(lines: seq<Line>, sku: Sku)
    requires sku in Sums(lines)
    ensures exists i :: 0 <= i < |lines| && lines[i].sku == sku
  {
    var last := |lines| - 1;
    if lines[last].sku != sku {
      SumsComeFromLines(lines[..last], sku);
      var i :| 0 <= i < last && lines[..last][i].sku == sku;
      assert lines[i].sku == sku;
    }
  }

  /** Sending the canonical lines back as a request says exactly the same thing. */
  lemma CanonicalSurvivesResending(request: seq<RawLine>, again: seq<RawLine>)
    requires |again| == |Canonicals(Cleaned(request))|
    requires forall i :: 0 <= i < |again| ==>
               var line := Canonicals(Cleaned(request))[i];
               again[i].productSku == line.sku && again[i].quantity as int == line.quantity
    ensures Cleaned(again) == Canonicals(Cleaned(request))
  {
    var c := Canonicals(Cleaned(request));
    CanonicalsCarrySums(Cleaned(request));
    forall i | 0 <= i < |again| ensures Cleaned(again)[i] == c[i] {
      BasketLine(c, i);
      SumsComeFromLines(Cleaned(request), c[i].sku);
      var j :| 0 <= j < |request| && Cleaned(request)[j].sku == c[i].sku;
      TrimIdempotent(request[j].productSku);
    }
  }

  // ----- the walk over the request

  /** What was wrong with a request: the first violations, and how many more there were. */
  class ViolationReport {
    var violations: seq<Violation>
    var omitted: nat

    ghost predicate Holds(all: seq<Violation>)
      reads this
    {
      Reported(all) == Invalid(violations, omitted)
    }

    constructor ()
      ensures Holds([])
    {
      violations, omitted := [], 0;
    }

    method Add(violation: Violation, ghost all: seq<Violation>)
      requires Holds(all)
      modifies this
      ensures Holds(all + [violation])
    {
      if |violations| >= MAX_REPORTED_VIOLATIONS {
        omitted := omitted + 1;
        assert (all + [violation])[..MAX_REPORTED_VIOLATIONS] == all[..MAX_REPORTED_VIOLATIONS];
      } else {
        violations := violations + [violation];
      }
    }
  }

  /** The report keeps the first violations and counts the rest. */
  function Reported(all: seq<Violation>): Outcome
  {
    if |all| < MAX_REPORTED_VIOLATIONS then Invalid(all, 0)
    else Invalid(all[..MAX_REPORTED_VIOLATIONS], |all| - MAX_REPORTED_VIOLATIONS)
  }

  ghost predicate SameQuantities(quantities: map<Sku, int32>, gathered: map<Sku, int>)
  {
    && quantities.Keys == gathered.Keys
    && forall sku :: sku in quantities ==> 0 < quantities[sku] <= MAX_LINE_QUANTITY && quantities[sku] as int == gathered[sku]
  }

  /** One turn of the loop: a line is complained about, or added to its product's quantity. */
  method CheckLine(
    report: ViolationReport, quantities: map<Sku, int32>, productSku: Sku, quantity: int32, index: nat,
    ghost gathered: map<Sku, int>, ghost all: seq<Violation>)
    returns (next: map<Sku, int32>)
    requires report.Holds(all) && SameQuantities(quantities, gathered)
    modifies report
    ensures report.Holds(all + LineViolation(gathered, Line(productSku, quantity as int), index))
    ensures SameQuantities(next, GatheredWith(gathered, Line(productSku, quantity as int)))
  {
    next := quantities;
    if productSku == "" {
      report.Add(BlankSku(index), all);
    } else if quantity <= 0 || quantity > MAX_LINE_QUANTITY {
      report.Add(QuantityOutOfRange(index, quantity as int), all);
    } else {
      var sofar := if productSku in quantities then quantities[productSku] else 0;
      if sofar > MAX_LINE_QUANTITY - quantity {
        report.Add(TotalTooLarge(index, productSku), all);
      } else {
        next := quantities[productSku := sofar + quantity];
        assert all + [] == all;
      }
    }
  }

  method Walk(report: ViolationReport, lines: seq<RawLine>, ghost before: seq<Violation>)
    returns (quantities: map<Sku, int32>)
    requires report.Holds(before)
    modifies report
    ensures report.Holds(before + LineViolations(Cleaned(lines)))
    ensures SameQuantities(quantities, Gathered(Cleaned(lines)))
  {
    ghost var cleaned := Cleaned(lines);
    ghost var all := before;
    quantities := map[];
    for index := 0 to |lines|
      invariant all == before + LineViolations(cleaned[..index])
      invariant report.Holds(all)
      invariant SameQuantities(quantities, Gathered(cleaned[..index]))
    {
      var productSku := Trim(lines[index].productSku);
      ghost var line := Line(productSku, lines[index].quantity as int);
      NextLineViolation(before, cleaned, index, line);
      ghost var gathered := Gathered(cleaned[..index]);
      quantities := CheckLine(report, quantities, productSku, lines[index].quantity, index, gathered, all);
      all := all + LineViolation(gathered, line, index);
    }
    assert cleaned[..|lines|] == cleaned;
  }

  lemma NextLineViolation(before: seq<Violation>, lines: seq<Line>, index: nat, line: Line)
    requires index < |lines| && lines[index] == line
    ensures before + LineViolations(lines[..index + 1])
         == before + LineViolations(lines[..index]) + LineViolation(Gathered(lines[..index]), line, index)
    ensures Gathered(lines[..index + 1]) == GatheredWith(Gathered(lines[..index]), line)
  {
    assert lines[..index + 1][..index] == lines[..index];
  }

  /** The start of the report: what is wrong with the request as a whole. */
  method CheckRequest(report: ViolationReport, order: string, count: nat, isUuid: string -> bool)
    returns (ghost all: seq<Violation>)
    requires report.Holds([])
    modifies report
    ensures report.Holds(all)
    ensures all == HeaderViolations(order, count, isUuid)
  {
    all := [];
    if !isUuid(order) {
      report.Add(BadOrderId, all);
      all := all + [BadOrderId];
    }
    if count == 0 {
      report.Add(NoLines, all);
      all := all + [NoLines];
    }
    if count > MAX_LINES {
      report.Add(TooManyLines(count), all);
      all := all + [TooManyLines(count)];
    }
  }

  method Canonicalize(order: string, lines: seq<RawLine>, isUuid: string -> bool) returns (outcome: Outcome)
    ensures outcome.Canonicalized? <==> Acceptable(Trim(order), Cleaned(lines), isUuid)
    ensures outcome.Canonicalized? ==> outcome == Canonicalized(Trim(order), Canonicals(Cleaned(lines)))
    ensures outcome.Canonicalized? ==> IsCanonical(outcome.lines)
    ensures outcome.Invalid? ==> outcome == Reported(RequestViolations(Trim(order), Cleaned(lines), isUuid))
  {
    outcome := Reduce(Trim(order), lines, isUuid);
  }

  /** Canonicalize after the order id has been trimmed. */
  method Reduce(order: string, lines: seq<RawLine>, isUuid: string -> bool) returns (outcome: Outcome)
    ensures Verdict(order, Cleaned(lines), isUuid, outcome)
  {
    ghost var cleaned := Cleaned(lines);
    var report := new ViolationReport();
    ghost var all := CheckRequest(report, order, |lines|, isUuid);
    var quantities := map[];
    if |lines| <= MAX_LINES {
      quantities := Walk(report, lines, all);
      all := all + LineViolations(cleaned);
    }
    assert all == RequestViolations(order, cleaned, isUuid);
    NothingReported(all);
    if |report.violations| > 0 {
      outcome := Invalid(report.violations, report.omitted);
      ReportIsVerdict(order, cleaned, isUuid, all, outcome);
    } else {
      var canonical := Listed(map sku | sku in quantities :: quantities[sku] as int);
      ListingIsVerdict(order, cleaned, isUuid, all, quantities, canonical);
      outcome := Canonicalized(order, canonical);
    }
  }

  lemma NothingReported(all: seq<Violation>)
    ensures Reported(all).violations == [] <==> all == []
  {
  }

  ghost predicate Verdict(order: string, lines: seq<Line>, isUuid: string -> bool, outcome: Outcome)
  {
    && (outcome.Canonicalized? <==> Acceptable(order, lines, isUuid))
    && (outcome.Canonicalized? ==> outcome == Canonicalized(order, Canonicals(lines)) && IsCanonical(outcome.lines))
    && (outcome.Invalid? ==> outcome == Reported(RequestViolations(order, lines, isUuid)))
  }

  lemma ReportIsVerdict(order: string, lines: seq<Line>, isUuid: string -> bool, all: seq<Violation>, outcome: Outcome)
    requires all == RequestViolations(order, lines, isUuid) && outcome == Reported(all) && all != []
    ensures Verdict(order, lines, isUuid, outcome)
  {
    AcceptableMeansNoViolation(order, lines, isUuid);
  }

  lemma ListingIsVerdict(
    order: string, lines: seq<Line>, isUuid: string -> bool, all: seq<Violation>,
    quantities: map<Sku, int32>, canonical: seq<Line>)
    requires all == RequestViolations(order, lines, isUuid) == [] && SameQuantities(quantities, Gathered(lines))
    requires StrictlySorted(canonical) && Basket(canonical) == map sku | sku in quantities :: quantities[sku] as int
    ensures Verdict(order, lines, isUuid, Canonicalized(order, canonical))
  {
    AcceptableMeansNoViolation(order, lines, isUuid);
    ListingIsCanonical(lines, quantities, canonical);
  }

  lemma ListingIsCanonical(lines: seq<Line>, quantities: map<Sku, int32>, canonical: seq<Line>)
    requires lines != [] && LineViolations(lines) == [] && SameQuantities(quantities, Gathered(lines))
    requires StrictlySorted(canonical) && Basket(canonical) == map sku | sku in quantities :: quantities[sku] as int
    ensures canonical == Canonicals(lines) && IsCanonical(canonical)
  {
    NoComplaintMeansBounded(lines);
    AcceptedIsCanonical(lines);
    CanonicalsCarrySums(lines);
    assert Basket(canonical) == Sums(lines);
    SortedListingUnique(canonical, Canonicals(lines));
  }

  /** The entries of a map, taken in whatever order it yields them, as one sorted list. */
  method Listed(quantities: map<Sku, int>) returns (canonical: seq<Line>)
    ensures StrictlySorted(canonical) && Basket(canonical) == quantities
  {
    canonical := [];
    var left := quantities.Keys;
    while left != {}
      invariant left <= quantities.Keys && StrictlySorted(canonical)
      invariant Basket(canonical) == quantities - left
      decreases |left|
    {
      var sku :| sku in left;
      MergeKeepsSorted(canonical, Line(sku, quantities[sku]));
      MergeAddsToBasket(canonical, Line(sku, quantities[sku]));
      canonical := Merge(canonical, Line(sku, quantities[sku]));
      left := left - {sku};
    }
    assert quantities - {} == quantities;
  }
}
