/**
 * The two inventory tables and what the statements of a claim do to them.
 * Reservations are kept per order: `reservations[order][sku]` is the quantity of the
 * row whose primary key is (order, sku).
 */
module StockTables {
  import opened Collections
  import opened Skus
  import opened Baskets

  type OrderId = string

  /** How often the use case reads and claims before it gives up. */
  const CLAIM_ATTEMPTS := 2

  datatype StockRow = StockRow(onHand: int, reserved: int) {
    function Free(): int { onHand - reserved }
  }

  type Stock = map<Sku, StockRow>
  type Reservations = map<OrderId, map<Sku, int>>

  function HeldBy(reservations: Reservations, order: OrderId): map<Sku, int>
  {
    if order in reservations then reservations[order] else map[]
  }

  function Quantity(basket: map<Sku, int>, sku: Sku): int
  {
    if sku in basket then basket[sku] else 0
  }

  /** The sum of all reservation quantities for one sku, over every order. */
  ghost function HeldOf(reservations: Reservations, sku: Sku): int
  {
    Total(map order | order in reservations :: Quantity(reservations[order], sku))
  }

  /** The WHERE clause of the stock update. */
  predicate CanTake(stock: Stock, line: Line)
  {
    line.sku in stock && stock[line.sku].Free() >= line.quantity
  }

  /** The stock update, for a product that exists. */
  function Taken(stock: Stock, line: Line): Stock
    requires line.sku in stock
  {
    stock[line.sku := stock[line.sku].(reserved := stock[line.sku].reserved + line.quantity)]
  }

  /** The reservation insert, for a key that is free. */
  function Inserted(reservations: Reservations, order: OrderId, line: Line): Reservations
  {
    reservations[order := HeldBy(reservations, order)[line.sku := line.quantity]]
  }

  /** All stock updates of one basket together. */
  function Charged(stock: Stock, basket: map<Sku, int>): Stock
  {
    map sku | sku in stock :: stock[sku].(reserved := stock[sku].reserved + Quantity(basket, sku))
  }

  /** All reservation inserts of one basket together. */
  function Held(reservations: Reservations, order: OrderId, basket: map<Sku, int>): Reservations
  {
    reservations[order := HeldBy(reservations, order) + basket]
  }

  /**
   * Conservation: every unit marked as reserved is accounted for by a reservation row,
   * and no product is promised beyond what is in the warehouse.
   */
  ghost predicate Conserved(stock: Stock, reservations: Reservations)
  {
    && (forall sku :: sku in stock ==>
          0 <= stock[sku].reserved <= stock[sku].onHand && stock[sku].reserved == HeldOf(reservations, sku))
    && (forall order, sku :: order in reservations && sku in reservations[order] ==>
          sku in stock && reservations[order][sku] > 0)
  }

  lemma HeldOfUpdate(reservations: Reservations, order: OrderId, held: map<Sku, int>, sku: Sku)
    ensures HeldOf(reservations[order := held], sku)
         == HeldOf(reservations, sku) - Quantity(HeldBy(reservations, order), sku) + Quantity(held, sku)
  {
    var before := map o | o in reservations :: Quantity(reservations[o], sku);
    var next := reservations[order := held];
    var after := map o | o in next :: Quantity(next[o], sku);
    assert after == before[order := Quantity(held, sku)];
    TotalUpdate(before, order, Quantity(held, sku));
  }

  /** Committing a whole basket whose lines all passed their statements keeps conservation. */
  lemma CommitConserves(stock: Stock, reservations: Reservations, order: OrderId, basket: map<Sku, int>)
    requires Conserved(stock, reservations)
    requires basket.Keys !! HeldBy(reservations, order).Keys
    requires forall sku :: sku in basket ==> basket[sku] > 0 && sku in stock && stock[sku].Free() >= basket[sku]
    ensures Conserved(Charged(stock, basket), Held(reservations, order, basket))
  {
    var held := HeldBy(reservations, order) + basket;
    forall sku | sku in stock
      ensures var row := Charged(stock, basket)[sku];
              0 <= row.reserved <= row.onHand && row.reserved == HeldOf(Held(reservations, order, basket), sku)
    {
      HeldOfUpdate(reservations, order, held, sku);
    }
  }

  /** One more line's statements extend the effect of the lines before it. */
  lemma NextLine(stock: Stock, reservations: Reservations, order: OrderId, done: map<Sku, int>, line: Line)
    requires line.sku in stock && line.sku !in done
    ensures Taken(Charged(stock, done), line) == Charged(stock, done[line.sku := line.quantity])
    ensures Inserted(Held(reservations, order, done), order, line)
         == Held(reservations, order, done[line.sku := line.quantity])
  {
    assert HeldBy(reservations, order) + done[line.sku := line.quantity]
        == (HeldBy(reservations, order) + done)[line.sku := line.quantity];
  }
}
