/** Amounts are written with eight decimals, rounded half up. What that does to
    the lock of a resting BUY that fills in parts and is then cancelled: it is
    locked and settled at the price as given, and unlocked by the columns of its
    row, which hold price and quantities with eight decimals. */
module Rounding {
  /** One unit is the eighth decimal. */
  const UNITS := 100000000.0
  const HALF := 50000000

  /** Rounding to eight decimals, in units; halves go away from zero. */
  function Fixed(x: real): int {
    if x >= 0.0 then (x * UNITS + 0.5).Floor else -((-x * UNITS + 0.5).Floor)
  }

  /** What a column of eight decimals holds of a number. */
  function Stored(x: real): real {
    Fixed(x) as real / UNITS
  }

  function Amount(price: real, quantity: real): real {
    price * quantity
  }

  function Quantity(fills: seq<real>): real {
    if fills == [] then 0.0 else Quantity(fills[1..]) + fills[0]
  }

  /** The filled quantity of the row after these fills. */
  function Filled(fills: seq<real>): real {
    if fills == [] then 0.0 else Filled(fills[1..]) + Stored(fills[0])
  }

  /** What settling fill after fill at one price takes from the lock. */
  function Settled(price: real, fills: seq<real>): int {
    if fills == [] then 0 else Settled(price, fills[1..]) + Fixed(Amount(price, fills[0]))
  }

  /** What the row still has to fill; a row with nothing left is closed. */
  function RowLeft(quantity: real, fills: seq<real>): real {
    var left := Stored(quantity) - Filled(fills);
    if left > 0.0 then left else 0.0
  }

  /** Units still locked after locking an order, settling its fills at its own
      limit and unlocking the remainder. */
  function Drift(price: real, quantity: real, fills: seq<real>): int {
    Fixed(Amount(price, quantity)) - Settled(price, fills) - Fixed(Amount(Stored(price), RowLeft(quantity, fills)))
  }

  /** A number with at most eight decimals. */
  predicate Whole(x: real) {
    (x * UNITS).Floor as real == x * UNITS
  }

  function In(x: real): int {
    (x * UNITS).Floor
  }

  /** A possible history: fills of any size, together at most the quantity. */
  ghost predicate Fills(quantity: real, fills: seq<real>) {
    && Quantity(fills) <= quantity
    && forall i :: 0 <= i < |fills| ==> fills[i] >= 0.0
  }

  /** The row has as much left to fill as the order. */
  predicate RowAgrees(quantity: real, fills: seq<real>) {
    RowLeft(quantity, fills) == quantity - Quantity(fills)
  }

  /** Half a unit for each amount written, in whole units. */
  ghost predicate Bounded(price: real, quantity: real, fills: seq<real>) {
    -((|fills| + 1) / 2) <= Drift(price, quantity, fills) <= (|fills| + 1) / 2
  }

  // ---------- amounts ----------

  lemma ZeroAmount(price: real)
    ensures Amount(price, 0.0) == 0.0
  {
  }

  lemma Distribute(a: real, b: real, c: real)
    ensures Amount(a + b, c) == Amount(a, c) + Amount(b, c)
  {
  }

  lemma Swap(a: real, b: real)
    ensures Amount(a, b) == Amount(b, a)
  {
  }

  lemma Positive(a: real, b: real)
    requires a > 0.0 && b > 0.0
    ensures Amount(a, b) > 0.0
  {
  }

  lemma FixedError(x: real)
    requires x >= 0.0
    ensures -0.5 < Fixed(x) as real - x * UNITS <= 0.5
  {
  }

  lemma StoredNonNegative(x: real)
    requires x >= 0.0
    ensures Stored(x) >= 0.0
  {
  }

  lemma NonNegative(price: real, quantity: real)
    requires price >= 0.0 && quantity >= 0.0
    ensures Amount(price, quantity) >= 0.0
  {
  }

  /** What settling takes is off by at most half a unit for each fill. */
  lemma {:induction false} SettledError(price: real, fills: seq<real>)
    requires price >= 0.0 && forall i :: 0 <= i < |fills| ==> fills[i] >= 0.0
    ensures Quantity(fills) >= 0.0
    ensures var error := Settled(price, fills) as real - Amount(price, Quantity(fills)) * UNITS;
            -0.5 * |fills| as real <= error <= 0.5 * |fills| as real
  {
    hide Fixed, Amount;
    if fills == [] {
      ZeroAmount(price);
    } else {
      var done := Quantity(fills[1..]);
      SettledError(price, fills[1..]);
      Swap(price, done + fills[0]);
      Swap(price, done);
      Swap(price, fills[0]);
      Distribute(done, fills[0], price);
      NonNegative(price, fills[0]);
      FixedError(Amount(price, fills[0]));
      assert |fills| as real == |fills[1..]| as real + 1.0;
    }
  }

  /** Drift is what the row's remainder leaves of the order's, but for rounding. */
  lemma DriftError(price: real, quantity: real, fills: seq<real>)
    requires price >= 0.0 && Stored(price) == price && Fills(quantity, fills)
    ensures var gap := (Amount(price, quantity - Quantity(fills)) - Amount(price, RowLeft(quantity, fills))) * UNITS;
            -0.5 * |fills| as real - 1.0 < Drift(price, quantity, fills) as real - gap < 0.5 * |fills| as real + 1.0
  {
    hide Amount, Fixed, Settled, Stored, Filled, Quantity;
    var done, left := Quantity(fills), quantity - Quantity(fills);
    SettledError(price, fills);
    Swap(price, done + left);
    Swap(price, done);
    Swap(price, left);
    Distribute(done, left, price);
    assert done + left == quantity;
    NonNegative(price, quantity);
    NonNegative(price, RowLeft(quantity, fills));
    FixedError(Amount(price, quantity));
    FixedError(Amount(price, RowLeft(quantity, fills)));
  }

  // ---------- when the drift is bounded ----------

  /** However the quantity is split: a price of at most eight decimals, and a row
      that has as much left as its order, keep the drift within half a unit for
      each amount written. */
  lemma DriftBound(price: real, quantity: real, fills: seq<real>)
    requires price >= 0.0 && Whole(price) && Fills(quantity, fills) && RowAgrees(quantity, fills)
    ensures Bounded(price, quantity, fills)
  {
    hide Drift, Whole, Amount, Stored;
    WholeKept(price);
    DriftError(price, quantity, fills);
    var (drift, k) := (Drift(price, quantity, fills), |fills|);
    assert -(k + 2) as real < 2.0 * drift as real < (k + 2) as real;
    assert -(k + 2) < 2 * drift < k + 2;
  }

  /** A number multiplied far enough exceeds any bound. */
  lemma Exceeds(gap: real, bound: real) returns (n: nat)
    requires gap > 0.0 && bound > 0.0
    ensures n > 0 && Amount(n as real, gap) > bound
  {
    hide Amount;
    var q := bound / gap;
    assert q > 0.0;
    n := q.Floor + 1;
    Quotient(bound, gap);
    Distribute(q, n as real - q, gap);
    Positive(n as real - q, gap);
    assert q + (n as real - q) == n as real;
  }

  lemma Quotient(bound: real, gap: real)
    requires gap > 0.0
    ensures Amount(bound / gap, gap) == bound
  {
  }

  /** A row that disagrees with its order about what is left drifts beyond any
      bound at some price of at most eight decimals. */
  lemma DriftUnbounded(quantity: real, fills: seq<real>, bound: nat) returns (price: nat)
    requires Fills(quantity, fills) && !RowAgrees(quantity, fills)
    ensures Whole(price as real)
    ensures bound < Drift(price as real, quantity, fills) || Drift(price as real, quantity, fills) + bound < 0
  {
    hide Drift, Amount, Stored, Whole, RowLeft, Quantity;
    var left, row := quantity - Quantity(fills), RowLeft(quantity, fills);
    var room := (bound + |fills| + 1) as real;
    var gap := if left > row then left - row else row - left;
    price := Exceeds(gap, room / UNITS);
    WholeNumber(price);
    DriftError(price as real, quantity, fills);
    if left > row {
      Split(price as real, row, gap);
    } else {
      Split(price as real, left, gap);
    }
    assert Amount(price as real, gap) * UNITS > room;
  }

  lemma Split(price: real, a: real, b: real)
    ensures Amount(price, a + b) == Amount(price, a) + Amount(price, b)
  {
    Swap(price, a + b);
    Swap(price, a);
    Swap(price, b);
    Distribute(a, b, price);
  }

  /** An order and its fills stay within the bound at every price of at most
      eight decimals exactly when the row has as much left as the order. */
  lemma HistoryExactly(quantity: real, fills: seq<real>)
    requires Fills(quantity, fills)
    ensures (forall price :: price >= 0.0 && Whole(price) ==> Bounded(price, quantity, fills))
            <==> RowAgrees(quantity, fills)
  {
    hide Drift, Whole, RowAgrees;
    if RowAgrees(quantity, fills) {
      forall price | price >= 0.0 && Whole(price) ensures Bounded(price, quantity, fills) {
        DriftBound(price, quantity, fills);
      }
    } else {
      var price := DriftUnbounded(quantity, fills, (|fills| + 1) / 2);
      assert price as real >= 0.0 && !Bounded(price as real, quantity, fills);
    }
  }

  lemma WholeNumber(n: nat)
    ensures Whole(n as real) && Stored(n as real) == n as real
  {
    OneUnit(n * 100000000);
    assert (n * 100000000) as real / UNITS == n as real;
    WholeKept(n as real);
  }

  lemma StoredWhole(x: real)
    requires x >= 0.0
    ensures Stored(x) == x <==> Whole(x)
  {
    if Whole(x) {
      WholeKept(x);
    }
    assert Stored(x) == x ==> x * UNITS == Fixed(x) as real;
  }

  /** A price keeps every order whose row agrees with it within the bound
      exactly when it has at most eight decimals. */
  lemma WholePriceExactly(price: real)
    requires price >= 0.0
    ensures (forall quantity, fills ::
             Fills(quantity, fills) && RowAgrees(quantity, fills) ==> Bounded(price, quantity, fills))
            <==> Whole(price)
  {
    hide Drift, Whole, RowAgrees;
    if Whole(price) {
      forall quantity, fills | Fills(quantity, fills) && RowAgrees(quantity, fills)
        ensures Bounded(price, quantity, fills)
      {
        DriftBound(price, quantity, fills);
      }
    } else {
      StoredWhole(price);
      var n := PriceStrays(price);
      assert Fills(n as real, []) && !Bounded(price, n as real, []);
    }
  }

  /** A price that its column does not hold makes some unfilled order go astray. */
  lemma PriceStrays(price: real) returns (n: nat)
    requires price >= 0.0 && Stored(price) != price
    ensures RowAgrees(n as real, []) && Quantity([]) <= n as real && Drift(price, n as real, []) != 0
  {
    hide Amount, Fixed;
    StoredNonNegative(price);
    var stored := Stored(price);
    var gap := if price > stored then price - stored else stored - price;
    n := Exceeds(gap, 2.0 / UNITS);
    WholeNumber(n);
    Swap(n as real, gap);
    Distribute(if price > stored then stored else price, gap, n as real);
    NonNegative(price, n as real);
    NonNegative(stored, n as real);
    FixedError(Amount(price, n as real));
    FixedError(Amount(stored, n as real));
  }

  /** An unfilled order stays within the bound at every such price exactly when
      its quantity has at most eight decimals. */
  lemma WholeQuantityExactly(quantity: real)
    requires quantity >= 0.0
    ensures (forall price :: price >= 0.0 && Whole(price) ==> Bounded(price, quantity, [])) <==> Whole(quantity)
  {
    hide Drift, Whole, Stored;
    StoredNonNegative(quantity);
    StoredWhole(quantity);
    HistoryExactly(quantity, []);
  }

  // ---------- whole units ----------

  /** Fills of at most eight decimals, as they are when every order has them. */
  ghost predicate WholeFills(fills: seq<real>) {
    forall i :: 0 <= i < |fills| ==> Whole(fills[i])
  }

  /** Largest and smallest drift after so many whole fills. */
  function Most(k: nat): int {
    (HALF + (k + 1) * (HALF - 1)) / 100000000
  }

  function Least(k: nat): int {
    -((k + 1) / 2)
  }

  /** A product of whole numbers has sixteen decimals; it is rounded off by half up. */
  function HalfUp(n: int): int {
    (n + HALF) / 100000000
  }

  lemma HalfUpError(n: int)
    ensures -(HALF - 1) <= HalfUp(n) * 100000000 - n <= HALF
  {
  }

  lemma WholeKept(x: real)
    requires Whole(x) && x >= 0.0
    ensures Stored(x) == x && Fixed(x) == In(x) && x == In(x) as real / UNITS && In(x) >= 0
  {
    var n := In(x);
    assert n as real == x * UNITS;
    assert (n as real + 0.5).Floor == n;
    assert Fixed(x) == n;
    hide Fixed, In, Whole;
    assert n as real / UNITS == x;
  }

  lemma FixedAmount(x: real, y: real)
    requires Whole(x) && Whole(y) && x >= 0.0 && y >= 0.0
    ensures Fixed(Amount(x, y)) == HalfUp(In(x) * In(y))
  {
    WholeKept(x);
    WholeKept(y);
    var n := In(x) * In(y);
    Product(x, y, In(x), In(y));
    assert x * y * UNITS == n as real / UNITS;
    assert n >= 0 && x * y >= 0.0;
    assert (n as real / UNITS + 0.5).Floor == HalfUp(n);
  }

  lemma Product(x: real, y: real, a: int, b: int)
    requires x == a as real / UNITS && y == b as real / UNITS && a >= 0 && b >= 0
    ensures x * y * UNITS == (a * b) as real / UNITS && a * b >= 0 && x * y >= 0.0
  {
    assert (a * b) as real == a as real * b as real;
    assert x * UNITS == a as real && y * UNITS == b as real;
    assert x * y * UNITS * UNITS == (x * UNITS) * (y * UNITS);
  }

  lemma WholeSum(x: real, y: real)
    requires Whole(x) && Whole(y)
    ensures Whole(x + y) && In(x + y) == In(x) + In(y) && Whole(x - y) && In(x - y) == In(x) - In(y)
  {
    var a, b := In(x), In(y);
    InIs(x + y, a + b);
    InIs(x - y, a - b);
  }

  lemma InIs(x: real, n: int)
    requires x * UNITS == n as real
    ensures Whole(x) && In(x) == n
  {
  }

  lemma {:induction false} WholeSettled(price: real, fills: seq<real>)
    requires Whole(price) && price >= 0.0 && forall i :: 0 <= i < |fills| ==> fills[i] >= 0.0 && Whole(fills[i])
    ensures Quantity(fills) >= 0.0 && Whole(Quantity(fills)) && Filled(fills) == Quantity(fills)
    ensures -(HALF - 1) * |fills| <= Settled(price, fills) * 100000000
            - In(price) * In(Quantity(fills)) <= HALF * |fills|
  {
    hide Fixed, Amount, HalfUp, Stored, Whole, In;
    if fills == [] {
      assert Whole(0.0) && In(0.0) == 0 by { NothingWhole(); }
    } else {
      WholeSettled(price, fills[1..]);
      var done := Quantity(fills[1..]);
      FixedAmount(price, fills[0]);
      WholeKept(fills[0]);
      WholeSum(done, fills[0]);
      HalfUpError(In(price) * In(fills[0]));
      assert In(price) * (In(done) + In(fills[0])) == In(price) * In(done) + In(price) * In(fills[0]);
    }
  }

  lemma NothingWhole()
    ensures Whole(0.0) && In(0.0) == 0 && Fixed(0.0) == 0
  {
  }

  /** With at most eight decimals throughout, the row always agrees, and the
      upper end is a little lower for many fills. */
  lemma WholeHistory(price: real, quantity: real, fills: seq<real>)
    requires price >= 0.0 && Whole(price) && Whole(quantity) && Fills(quantity, fills) && WholeFills(fills)
    ensures RowAgrees(quantity, fills) && Least(|fills|) <= Drift(price, quantity, fills) <= Most(|fills|)
    ensures |fills| < HALF ==> Most(|fills|) == (|fills| + 1) / 2
  {
    hide Amount, Fixed, Settled, HalfUp, Whole, In, Stored, Quantity, Filled;
    WholeSettled(price, fills);
    var done, left := Quantity(fills), quantity - Quantity(fills);
    WholeSum(quantity, done);
    WholeKept(price);
    WholeKept(quantity);
    assert RowLeft(quantity, fills) == left;
    FixedAmount(price, quantity);
    FixedAmount(price, left);
    HalfUpError(In(price) * In(quantity));
    HalfUpError(In(price) * In(left));
    assert In(price) * In(quantity) == In(price) * In(done) + In(price) * In(left) by {
      assert In(quantity) == In(done) + In(left);
    }
    Whole4(Fixed(Amount(price, quantity)), Settled(price, fills), Fixed(Amount(price, left)), |fills|,
           In(price) * In(quantity), In(price) * In(done), In(price) * In(left));
  }

  /** Rounding errors of all amounts together. */
  lemma Whole4(a: int, b: int, c: int, k: nat, all: int, done: int, left: int)
    requires all == done + left
    requires -(HALF - 1) <= a * 100000000 - all <= HALF && -(HALF - 1) <= c * 100000000 - left <= HALF
    requires -(HALF - 1) * k <= b * 100000000 - done <= HALF * k
    ensures Least(k) <= a - b - c <= Most(k)
  {
  }

  // ---------- the bounds are attained ----------

  /** `k` fills of one unit each. */
  function Units(k: nat): seq<real> {
    if k == 0 then [] else [1.0 / UNITS] + Units(k - 1)
  }

  lemma OneUnit(n: nat)
    ensures Whole(n as real / UNITS) && In(n as real / UNITS) == n
  {
    assert n as real / UNITS * UNITS == n as real;
  }

  lemma {:induction false} UnitsSettle(price: real, k: nat)
    requires Whole(price) && price >= 0.0
    ensures |Units(k)| == k && Quantity(Units(k)) == k as real / UNITS
    ensures Settled(price, Units(k)) == k * HalfUp(In(price))
    ensures forall i :: 0 <= i < k ==> Units(k)[i] == 1.0 / UNITS
  {
    hide Fixed, Amount, HalfUp, Whole, In;
    if k > 0 {
      UnitsSettle(price, k - 1);
      assert Units(k)[1..] == Units(k - 1);
      OneUnit(1);
      FixedAmount(price, 1.0 / UNITS);
      assert In(price) * In(1.0 / UNITS) == In(price);
    }
  }

  /** `k` single units filled of `k + 1`. */
  lemma UnitsDrift(price: real, k: nat)
    requires Whole(price) && price >= 0.0
    ensures Fills((k + 1) as real / UNITS, Units(k)) && Whole((k + 1) as real / UNITS)
    ensures Drift(price, (k + 1) as real / UNITS, Units(k)) == HalfUp(In(price) * (k + 1)) - (k + 1) * HalfUp(In(price))
  {
    hide Fixed, Amount, HalfUp, Whole, In, Stored;
    UnitsSettle(price, k);
    OneUnit(k + 1);
    OneUnit(1);
    WholeSettled(price, Units(k));
    WholeKept((k + 1) as real / UNITS);
    WholeKept(price);
    var left := (k + 1) as real / UNITS - k as real / UNITS;
    assert left == 1.0 / UNITS;
    FixedAmount(price, (k + 1) as real / UNITS);
    FixedAmount(price, 1.0 / UNITS);
    assert In(price) * In(1.0 / UNITS) == In(price);
  }

  /** Both bounds are attained, for every number of fills: at a price of one half
      every unit rounds up, at the price just below it every unit rounds down. */
  lemma DriftAttained(k: nat)
    ensures var quantity := (k + 1) as real / UNITS;
            && Fills(quantity, Units(k)) && WholeFills(Units(k)) && Whole(quantity) && |Units(k)| == k
            && Whole(0.5) && Drift(0.5, quantity, Units(k)) == Least(k)
            && Whole(0.49999999) && Drift(0.49999999, quantity, Units(k)) == Most(k)
  {
    hide Fixed, Amount, Stored, HalfUp, Units, Drift, Quantity, Fills;
    OneUnit(HALF);
    OneUnit(HALF - 1);
    assert HALF as real / UNITS == 0.5 && (HALF - 1) as real / UNITS == 0.49999999;
    UnitsSettle(0.5, k);
    UnitsDrift(0.5, k);
    UnitsDrift(0.49999999, k);
    Halves(k);
  }

  lemma Halves(k: nat)
    ensures HalfUp(HALF * (k + 1)) - (k + 1) * HalfUp(HALF) == Least(k)
    ensures HalfUp((HALF - 1) * (k + 1)) - (k + 1) * HalfUp(HALF - 1) == Most(k)
  {
    assert HalfUp(HALF) == 1 && HalfUp(HALF - 1) == 0;
    assert HalfUp(HALF * (k + 1)) == (k + 2) / 2;
  }

  // ---------- concrete drifts ----------

  /** A price of half a unit: 500 units are locked for a thousand coins, and a
      thousand unlocked. */
  lemma SubUnitPrice()
    ensures !Whole(0.000000005) && Whole(1000.0) && Fills(1000.0, [])
    ensures Drift(0.000000005, 1000.0, []) == -500
  {
    WholeNumber(1000);
    assert Fixed(Amount(0.000000005, 1000.0)) == 500;
    assert Fixed(0.000000005) == 1;
    assert Fixed(Amount(Stored(0.000000005), 1000.0)) == 1000;
    assert Quantity([]) <= 1000.0;
  }

  /** Price and quantity are whole, but the one fill, against another user's
      order of 0.000000014, is not: its row is filled by 0.00000001, and the
      cancel takes 400000 units more than are still locked. */
  lemma UnevenFill()
    ensures Whole(1000000.0) && Whole(1.0) && Fills(1.0, [0.000000014]) && !RowAgrees(1.0, [0.000000014])
    ensures Drift(1000000.0, 1.0, [0.000000014]) == -400000
  {
    WholeNumber(1000000);
    WholeNumber(1);
    var fill := 0.000000014;
    assert [fill][1..] == [];
    assert Quantity([]) == 0.0 && Quantity([fill]) == fill;
    assert Fixed(fill) == 1 && Stored(fill) == 0.00000001;
    assert Filled([]) == 0.0 && Filled([fill]) == 0.00000001;
    assert Settled(1000000.0, []) == 0 && Fixed(Amount(1000000.0, fill)) == 1400000;
    assert RowLeft(1.0, [fill]) == 0.99999999;
    assert Fixed(Amount(1000000.0, 1.0)) == 100000000000000;
    assert Fixed(Amount(1000000.0, 0.99999999)) == 99999999000000;
  }
}
