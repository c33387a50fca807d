/** What an order is worth in the currency it locks; shared by both accounting models. */
module Amounts {
  import opened Types

  function Value(price: real, quantity: real): real {
    price * quantity
  }

  /** What a quantity locks: its value for a BUY, itself for a SELL. */
  function Worth(side: Side, price: real, quantity: real): real {
    if side == BUY then Value(price, quantity) else quantity
  }

  lemma WorthOf(side: Side, price: real, quantity: real)
    requires price > 0.0 && quantity >= 0.0
    ensures Worth(side, price, quantity) >= 0.0 && Worth(side, price, 0.0) == 0.0
  {
  }

  lemma WorthLess(side: Side, price: real, a: real, b: real)
    ensures Worth(side, price, a - b) == Worth(side, price, a) - Worth(side, price, b)
  {
    assert price * (a - b) == price * a - price * b;
  }

  lemma Values(locked: real, price: real, quantity: real)
    requires price > 0.0 && quantity > 0.0
    ensures Value(price, quantity) >= 0.0
    ensures price <= locked ==> Value(price, quantity) <= Value(locked, quantity)
  {
    if price <= locked {
      assert (locked - price) * quantity >= 0.0;
      assert (locked - price) * quantity == locked * quantity - price * quantity;
    }
  }

  lemma ValuePositive(price: real, quantity: real)
    requires price > 0.0 && quantity > 0.0
    ensures Value(price, quantity) > 0.0
  {
  }
}
