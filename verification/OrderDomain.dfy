/**
 * The order aggregate: items, a total that is checked against 64-bit overflow before
 * every operation, and the status machine.
 */
module OrderDomain {
  import opened Collections
  import opened Skus

  newtype int64 = x: int | -0x8000_0000_0000_0000 <= x < 0x8000_0000_0000_0000

  const MAX_INT64: int64 := 0x7FFF_FFFF_FFFF_FFFF

  /** Nanoseconds; the zero time is what an unset clock reads. */
  type Time = int

  const ZERO_TIME: Time := 0

  datatype Money = Money(amountInCents: int64, currency: string)

  datatype OrderItem = OrderItem(productSku: Sku, quantity: int64, unitPrice: Money)

  datatype Status = Pending | Accepted | Rejected | Shipped | Cancelled

  datatype DomainError = InvalidItem | InvalidMoney | InvalidOrder | InvalidTransition

  datatype Result<+T> = Ok(value: T) | Err(error: DomainError)

  /** Parses an address; an email is valid when it is its own address. */
  type AddressParser = string -> Option<string>

  predicate CurrencySupported(currency: string) { currency == "EUR" || currency == "USD" }

  predicate ItemValid(item: OrderItem)
  {
    Trim(item.productSku) != "" && item.quantity > 0 && item.unitPrice.amountInCents >= 0
    && CurrencySupported(item.unitPrice.currency)
  }

  function NewOrderItem(productSku: string, quantity: int64, unitPrice: Money): Result<OrderItem>
  {
    var item := OrderItem(Trim(productSku), quantity, unitPrice);
    if ItemValid(item) then Ok(item)
    else Err(if Trim(item.productSku) == "" || quantity <= 0 then InvalidItem else InvalidMoney)
  }

  /** An item is built exactly from a product code that is not blank, a positive quantity and a price, with the code trimmed. */
  lemma NewItemMeans(productSku: string, quantity: int64, unitPrice: Money)
    ensures var item := NewOrderItem(productSku, quantity, unitPrice);
            && (item.Ok? <==> Trim(productSku) != "" && quantity > 0 && unitPrice.amountInCents >= 0
                              && CurrencySupported(unitPrice.currency))
            && (item.Ok? ==> item.value == OrderItem(Trim(productSku), quantity, unitPrice) && IsTrimmed(item.value.productSku))
            && (item == Err(InvalidItem) <==> Trim(productSku) == "" || quantity <= 0)
  {
    TrimIdempotent(productSku);
  }

  predicate CanTransition(from: Status, to: Status)
  {
    match from
    case Pending => to == Accepted || to == Rejected || to == Cancelled
    case Accepted => to == Shipped || to == Cancelled
    case _ => false
  }

  // ----- the total

  function LineAmount(item: OrderItem): int { item.unitPrice.amountInCents as int * item.quantity as int }

  /** The exact total, in unbounded arithmetic. */
  function TrueTotal(items: seq<OrderItem>): int { Sum(Mapped(LineAmount, items)) }

  predicate SameCurrency(items: seq<OrderItem>)
  {
    forall i :: 0 <= i < |items| ==> items[i].unitPrice.currency == items[0].unitPrice.currency
  }

  predicate ItemsValid(items: seq<OrderItem>)
  {
    forall i :: 0 <= i < |items| ==> ItemValid(items[i])
  }

  /** When a total exists, whatever the order of the items. */
  predicate Totalled(items: seq<OrderItem>)
  {
    items != [] && ItemsValid(items) && SameCurrency(items) && TrueTotal(items) <= MAX_INT64 as int
  }

  lemma DivisionGuard(amount: int, quantity: int, bound: int)
    requires amount >= 0 && quantity > 0 && bound >= 0
    ensures amount <= bound / quantity <==> amount * quantity <= bound
  {
    var d := bound / quantity;
    assert bound == d * quantity + bound % quantity;
    if amount <= d {
      ScaleUp(amount, d, quantity);
    } else {
      ScaleUp(d + 1, amount, quantity);
      assert (d + 1) * quantity == d * quantity + quantity;
    }
  }

  lemma ScaleUp(a: int, b: int, factor: int)
    requires a <= b && factor > 0
    ensures a * factor <= b * factor
  {
    assert (b - a) * factor >= 0;
    assert b * factor == a * factor + (b - a) * factor;
  }

  lemma LineAmountNonNegative(item: OrderItem)
    requires ItemValid(item)
    ensures LineAmount(item) >= 0
  {
    ScaleUp(0, item.unitPrice.amountInCents as int, item.quantity as int);
  }

  lemma TotalStep(items: seq<OrderItem>, i: nat)
    requires i < |items|
    ensures TrueTotal(items[..i + 1]) == TrueTotal(items[..i]) + LineAmount(items[i])
  {
    var all := Mapped(LineAmount, items[..i + 1]);
    assert all[..i] == Mapped(LineAmount, items[..i]);
  }

  /** Totals only grow along the items, so an overflow on the way is an overflow of the whole. */
  lemma {:induction false} PrefixTotal(items: seq<OrderItem>, i: nat)
    requires i <= |items| && forall j :: i <= j < |items| ==> ItemValid(items[j])
    ensures TrueTotal(items[..i]) <= TrueTotal(items)
    decreases |items| - i
  {
    if i < |items| {
      TotalStep(items, i);
      LineAmountNonNegative(items[i]);
      PrefixTotal(items, i + 1);
    } else {
      assert items[..i] == items;
    }
  }

  lemma OverflowIsFinal(items: seq<OrderItem>, i: nat)
    requires i < |items| && TrueTotal(items[..i]) + LineAmount(items[i]) > MAX_INT64 as int
    ensures !Totalled(items)
  {
    if ItemsValid(items) {
      TotalStep(items, i);
      PrefixTotal(items, i + 1);
    }
  }

  ghost predicate TotalSoFar(items: seq<OrderItem>, i: nat, amount: int64)
  {
    i <= |items| && amount >= 0 && amount as int == TrueTotal(items[..i])
  }

  /** One line added to a running total, or nothing if either operation would overflow. */
  method AddLine(items: seq<OrderItem>, i: nat, amount: int64) returns (sum: Option<int64>)
    requires i < |items| && ItemValid(items[i]) && TotalSoFar(items, i, amount)
    ensures sum.Some? ==> TotalSoFar(items, i + 1, sum.value)
    ensures sum.None? ==> !Totalled(items)
  {
    var item := items[i];
    LineAmountNonNegative(item);
    DivisionGuard(item.unitPrice.amountInCents as int, item.quantity as int, MAX_INT64 as int);
    TotalStep(items, i);
    if item.unitPrice.amountInCents > MAX_INT64 / item.quantity {
      OverflowIsFinal(items, i);
      return None;
    }
    var line := item.unitPrice.amountInCents * item.quantity;
    if amount > MAX_INT64 - line {
      OverflowIsFinal(items, i);
      return None;
    }
    sum := Some(amount + line);
  }

  lemma NothingTotalled(items: seq<OrderItem>)
    ensures TotalSoFar(items, 0, 0)
  {
  }

  ghost predicate Uniform(items: seq<OrderItem>, i: nat, currency: string)
  {
    i <= |items| && forall j :: 0 <= j < i ==> ItemValid(items[j]) && items[j].unitPrice.currency == currency
  }

  lemma AllTotalled(items: seq<OrderItem>, currency: string, amount: int64)
    requires items != [] && Uniform(items, |items|, currency) && TotalSoFar(items, |items|, amount)
    ensures Totalled(items) && amount as int == TrueTotal(items) && currency == items[0].unitPrice.currency
  {
    assert items[..|items|] == items;
  }

  /** The loop: every multiplication and addition is guarded first, so none of them can overflow. */
  method CalculateTotal(items: seq<OrderItem>) returns (total: Result<Money>)
    ensures total.Ok? <==> Totalled(items)
    ensures total.Ok? ==>
              total.value.amountInCents as int == TrueTotal(items) && total.value.currency == items[0].unitPrice.currency
  {
    if |items| == 0 {
      return Err(InvalidOrder);
    }
    var currency := items[0].unitPrice.currency;
    var amount: int64 := 0;
    NothingTotalled(items);
    for i := 0 to |items|
      invariant Uniform(items, i, currency) && TotalSoFar(items, i, amount)
    {
      if !ItemValid(items[i]) {
        return Err(InvalidItem);
      }
      if items[i].unitPrice.currency != currency {
        return Err(InvalidMoney);
      }
      assert Uniform(items, i + 1, currency);
      var sum := AddLine(items, i, amount);
      if sum.None? {
        return Err(InvalidMoney);
      }
      amount := sum.value;
    }
    AllTotalled(items, currency, amount);
    total := Ok(Money(amount, currency));
  }

  /** The total does not depend on the order of the items. */
  lemma TotalIgnoresOrder(a: seq<OrderItem>, b: seq<OrderItem>)
    requires multiset(a) == multiset(b)
    ensures TrueTotal(a) == TrueTotal(b) && (Totalled(a) <==> Totalled(b))
  {
    MappedIgnoresOrder(LineAmount, a, b);
    SumIgnoresOrder(Mapped(LineAmount, a), Mapped(LineAmount, b));
    assert |a| == |multiset(a)| == |multiset(b)| == |b|;
    assert forall i :: 0 <= i < |a| ==> a[i] in multiset(b);
    assert forall i :: 0 <= i < |b| ==> b[i] in multiset(a);
    if a != [] {
      assert a[0] in multiset(b) && b[0] in multiset(a);
    }
  }

  // ----- the aggregate

  /** The fields of an order at one moment. */
  datatype OrderData = OrderData(
    id: string, customerId: string, email: string, status: Status, key: string,
    items: seq<OrderItem>, total: Money, createdAt: Time, updatedAt: Time)

  predicate EmailValid(email: string, parse: AddressParser)
  {
    Trim(email) == email && email != "" && parse(email) == Some(email)
  }

  predicate OrderValid(order: OrderData, parse: AddressParser)
  {
    && Trim(order.id) != "" && Trim(order.customerId) != "" && EmailValid(order.email, parse) && Trim(order.key) != ""
    && order.createdAt != ZERO_TIME && order.updatedAt != ZERO_TIME && order.createdAt <= order.updatedAt
    && Totalled(order.items)
    && order.total.amountInCents as int == TrueTotal(order.items)
    && order.total.currency == order.items[0].unitPrice.currency
  }

  class Order {
    const id: string
    const customerId: string
    const email: string
    const key: string
    const items: seq<OrderItem>
    const total: Money
    const createdAt: Time
    var status: Status
    var updatedAt: Time

    function Data(): OrderData
      reads this
    {
      OrderData(id, customerId, email, status, key, items, total, createdAt, updatedAt)
    }

    constructor (data: OrderData)
      ensures Data() == data
    {
      id, customerId, email, key := data.id, data.customerId, data.email, data.key;
      items, total, createdAt := data.items, data.total, data.createdAt;
      status, updatedAt := data.status, data.updatedAt;
    }

    /** A refused transition leaves the order as it was. */
    method TransitionTo(next: Status, now: Time) returns (error: Option<DomainError>)
      modifies this
      ensures error.None? <==> CanTransition(old(status), next) && now != ZERO_TIME && now >= old(updatedAt)
      ensures error.None? ==> Data() == old(Data()).(status := next, updatedAt := now)
      ensures error.Some? ==> Data() == old(Data())
    {
      if !CanTransition(status, next) {
        return Some(InvalidTransition);
      }
      if now == ZERO_TIME || now < updatedAt {
        return Some(InvalidOrder);
      }
      status := next;
      updatedAt := now;
      error := None;
    }

    method Accept(now: Time) returns (error: Option<DomainError>)
      modifies this
      ensures error.None? <==> old(status) == Pending && now != ZERO_TIME && now >= old(updatedAt)
      ensures Data() == if error.None? then old(Data()).(status := Accepted, updatedAt := now) else old(Data())
    {
      error := TransitionTo(Accepted, now);
    }

    method Reject(now: Time) returns (error: Option<DomainError>)
      modifies this
      ensures error.None? <==> old(status) == Pending && now != ZERO_TIME && now >= old(updatedAt)
      ensures Data() == if error.None? then old(Data()).(status := Rejected, updatedAt := now) else old(Data())
    {
      error := TransitionTo(Rejected, now);
    }
  }

  /** Checks the fields of an order, its stored total against its items included. */
  method Validated(data: OrderData, parse: AddressParser) returns (valid: bool)
    ensures valid <==> OrderValid(data, parse)
  {
    if Trim(data.id) == "" || Trim(data.customerId) == "" || !EmailValid(data.email, parse) || Trim(data.key) == "" {
      return false;
    }
    if data.createdAt == ZERO_TIME || data.updatedAt == ZERO_TIME || data.updatedAt < data.createdAt {
      return false;
    }
    var total := CalculateTotal(data.items);
    valid := total == Ok(data.total);
  }

  /** A new order is pending, trimmed, and carries the exact total of its items. */
  method NewOrder(
    id: string, customerId: string, email: string, key: string, items: seq<OrderItem>, now: Time, parse: AddressParser)
    returns (data: Result<OrderData>)
    ensures data.Ok? ==>
              && OrderValid(data.value, parse) && data.value.status == Pending && data.value.items == items
              && data.value.id == Trim(id) && data.value.customerId == Trim(customerId) && data.value.email == Trim(email)
              && data.value.key == key && data.value.createdAt == data.value.updatedAt == now
    ensures data.Ok? <==>
              && Totalled(items) && now != ZERO_TIME && Trim(Trim(id)) != "" && Trim(Trim(customerId)) != ""
              && EmailValid(Trim(email), parse) && Trim(key) != ""
  {
    var total := CalculateTotal(items);
    if total.Err? {
      return Err(total.error);
    }
    var order := OrderData(Trim(id), Trim(customerId), Trim(email), Pending, key, items, total.value, now, now);
    var valid := Validated(order, parse);
    data := if valid then Ok(order) else Err(InvalidOrder);
  }
}
