/**
 * Canonical baskets: strictly sorted lines, and the map they denote. Two sorted line
 * lists are the same list exactly when they denote the same map, which is what lets a
 * stored basket be compared with a requested one.
 */
module Baskets {
  import opened Skus

  datatype Line = Line(sku: Sku, quantity: int)

  predicate StrictlySorted(lines: seq<Line>)
  {
    forall i, j :: 0 <= i < j < |lines| ==> Before(lines[i].sku, lines[j].sku)
  }

  /** What Canonicalize promises its callers: sorted, not empty, positive quantities. */
  predicate IsCanonical(lines: seq<Line>)
  {
    lines != [] && StrictlySorted(lines) && forall i :: 0 <= i < |lines| ==> lines[i].quantity > 0
  }

  function Basket(lines: seq<Line>): map<Sku, int>
  {
    if lines == [] then map[]
    else
      var last := lines[|lines| - 1];
      Basket(lines[..|lines| - 1])[last.sku := last.quantity]
  }

  lemma {:induction false} BasketKeys(lines: seq<Line>, sku: Sku)
    ensures sku in Basket(lines) <==> exists i :: 0 <= i < |lines| && lines[i].sku == sku
  {
    if lines != [] {
      var front := lines[..|lines| - 1];
      BasketKeys(front, sku);
      if exists i :: 0 <= i < |front| && front[i].sku == sku {
        var i :| 0 <= i < |front| && front[i].sku == sku;
        assert lines[i].sku == sku;
      }
      if exists i :: 0 <= i < |lines| && lines[i].sku == sku {
        var i :| 0 <= i < |lines| && lines[i].sku == sku;
        assert i < |front| ==> front[i].sku == sku;
      }
    }
  }

  lemma {:induction false} BasketLine(lines: seq<Line>, i: nat)
    requires i < |lines| && StrictlySorted(lines)
    ensures lines[i].sku in Basket(lines) && Basket(lines)[lines[i].sku] == lines[i].quantity
  {
    if i < |lines| - 1 {
      BasketLine(lines[..|lines| - 1], i);
      BeforeAsymmetric(lines[i].sku, lines[|lines| - 1].sku);
    }
  }

  /** The line of a sorted list that carries a sku of its basket. */
  lemma LineOf(lines: seq<Line>, sku: Sku) returns (i: nat)
    requires sku in Basket(lines) && StrictlySorted(lines)
    ensures i < |lines| && lines[i].sku == sku && lines[i].quantity == Basket(lines)[sku]
  {
    BasketKeys(lines, sku);
    i :| 0 <= i < |lines| && lines[i].sku == sku;
    BasketLine(lines, i);
  }

  lemma LinesDiffer(lines: seq<Line>, i: nat, j: nat)
    requires i < |lines| && j < |lines| && i != j && StrictlySorted(lines)
    ensures lines[i].sku != lines[j].sku
  {
    if i < j { BeforeAsymmetric(lines[i].sku, lines[j].sku); }
    else { BeforeAsymmetric(lines[j].sku, lines[i].sku); }
  }

  lemma {:induction false} LastIsGreatest(lines: seq<Line>, sku: Sku)
    requires StrictlySorted(lines) && sku in Basket(lines)
    ensures sku == lines[|lines| - 1].sku || Before(sku, lines[|lines| - 1].sku)
  {
    var i := LineOf(lines, sku);
  }

  lemma FrontBasket(lines: seq<Line>)
    requires lines != [] && StrictlySorted(lines)
    ensures Basket(lines[..|lines| - 1]) == Basket(lines) - {lines[|lines| - 1].sku}
  {
    var front, last := lines[..|lines| - 1], lines[|lines| - 1];
    if last.sku in Basket(front) {
      var i := LineOf(front, last.sku);
      LinesDiffer(lines, i, |lines| - 1);
    }
    Unbind(Basket(front), last.sku, last.quantity);
  }

  lemma Unbind<K, V>(m: map<K, V>, k: K, v: V)
    requires k !in m
    ensures m[k := v] - {k} == m
  {
  }

  /** slices.Equal on canonical lines decides equality of baskets. */
  lemma {:induction false} SortedListingUnique(first: seq<Line>, second: seq<Line>)
    requires StrictlySorted(first) && StrictlySorted(second)
    ensures Basket(first) == Basket(second) <==> first == second
    decreases |first|
  {
    if Basket(first) == Basket(second) {
      if first == [] {
        if second != [] { BasketLine(second, 0); }
      } else {
        BasketLine(first, |first| - 1);
        var i := LineOf(second, first[|first| - 1].sku);
        BasketLine(second, |second| - 1);
        LastIsGreatest(second, first[|first| - 1].sku);
        LastIsGreatest(first, second[|second| - 1].sku);
        if first[|first| - 1].sku != second[|second| - 1].sku {
          BeforeAsymmetric(first[|first| - 1].sku, second[|second| - 1].sku);
        }
        FrontBasket(first);
        FrontBasket(second);
        SortedListingUnique(first[..|first| - 1], second[..|second| - 1]);
        assert first == first[..|first| - 1] + [first[|first| - 1]];
        assert second == second[..|second| - 1] + [second[|second| - 1]];
      }
    }
  }
}
