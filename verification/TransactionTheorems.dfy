/** When each transaction of the backend succeeds, and the rows it leaves. */
module TransactionTheorems {
  import opened Amounts
  import opened Types
  import opened Backend
  import opened BackendTheorems

  /** What an order of this side and size costs to lock: price times quantity of
      the quote currency for a BUY, the quantity itself for a SELL. */
  function Cost(o: OrderRow, quantity: real): real {
    if o.side == BUY then o.price * quantity else quantity
  }

  function Payer(o: OrderRow): Key {
    Key(o.userId, if o.side == BUY then o.symbol.quote else o.symbol.base)
  }

  /** Everything but these two tables, and in them everything but one row each,
      is as it was. */
  ghost predicate OnlyRows(db: Db, d: Db, key: Key, id: string) {
    && d.ledger == db.ledger && d.trades == db.trades && d.deposits == db.deposits
    && d.accounts.Keys == db.accounts.Keys && d.orders.Keys == db.orders.Keys + {id}
    && (forall k :: k in db.accounts && k != key ==> d.accounts[k] == db.accounts[k])
    && forall i :: i in db.orders && i != id ==> d.orders[i] == db.orders[i]
  }

  /** An order is placed exactly when its id is new, price and quantity are
      positive and the user has enough available; its cost is then locked and
      its row is open and unfilled. */
  lemma PlacedExactly(db: Db, id: string, row: OrderRow)
    requires AllAllowed(db.accounts)
    ensures PlaceOrder(db, id, row).Some? <==>
              && id !in db.orders && row.price > 0.0 && row.quantity > 0.0
              && Payer(row) in db.accounts && db.accounts[Payer(row)].available >= Cost(row, row.quantity)
    ensures PlaceOrder(db, id, row).Some? ==>
              var (d, key) := (PlaceOrder(db, id, row).value, Payer(row));
              && OnlyRows(db, d, key, id)
              && d.accounts[key].available == db.accounts[key].available - Cost(row, row.quantity)
              && d.accounts[key].locked == db.accounts[key].locked + Cost(row, row.quantity)
              && d.orders[id] == OrderRow(row.userId, row.symbol, row.side, row.price, row.quantity, 0.0, OPEN)
  {
    if Payer(row) in db.accounts {
      assert db.accounts[Payer(row)].Allowed();
    }
    if row.price > 0.0 && row.quantity > 0.0 {
      ValuePositive(row.price, row.quantity);
    }
  }

  /** Where locks are backed, a user's cancel succeeds exactly for an own order
      that is not closed; what is left of it is unlocked and its row closed. */
  lemma CancelledExactly(db: Db, userId: string, id: string)
    requires Backed(db) && AllAllowed(db.accounts)
    requires forall i :: i in db.orders ==> Payer(db.orders[i]) in db.accounts
    ensures Cancel(db, userId, id).Some? <==>
              && id in db.orders && db.orders[id].userId == userId
              && db.orders[id].status != FILLED && db.orders[id].status != CANCELLED
    ensures Cancel(db, userId, id).Some? ==>
              var (d, o) := (Cancel(db, userId, id).value, db.orders[id]);
              var (key, left) := (Payer(o), o.quantity - o.filledQuantity);
              && OnlyRows(db, d, key, id)
              && d.accounts[key].available == db.accounts[key].available + Cost(o, left)
              && d.accounts[key].locked == db.accounts[key].locked - Cost(o, left)
              && d.orders[id] == o.(status := CANCELLED)
  {
    hide Backed, Worth, Cost;
    if id in db.orders && IsOpenOrPending(db.orders[id]) {
      LockCovers(db, id);
      CostIsWorth(db.orders[id], LeftOf(db.orders[id]));
      NothingCosts(db.orders[id]);
    }
  }

  predicate IsOpenOrPending(o: OrderRow) {
    o.status != FILLED && o.status != CANCELLED
  }

  /** A backed account holds at least what its open order still costs. */
  lemma LockCovers(db: Db, id: string)
    requires Backed(db) && AllAllowed(db.accounts) && id in db.orders && IsOpenOrPending(db.orders[id])
    requires Payer(db.orders[id]) in db.accounts
    ensures var (o, a) := (db.orders[id], db.accounts[Payer(db.orders[id])]);
            a.Allowed() && o.quantity - o.filledQuantity >= 0.0
            && 0.0 <= Cost(o, o.quantity - o.filledQuantity) <= a.locked
  {
    hide Committed, Improvement, Worth;
    var (o, key) := (db.orders[id], Payer(db.orders[id]));
    assert RowOk(o) && db.accounts[key].Allowed();
    ClaimWithin(db.orders, id, key);
    ImprovementNonNegative(db.trades, db.orders, key);
    ClaimNonNegative(o, key);
    CostIsWorth(o, o.quantity - o.filledQuantity);
  }

  lemma CostIsWorth(o: OrderRow, quantity: real)
    ensures Cost(o, quantity) == Worth(o.side, o.price, quantity)
  {
  }

  lemma NothingCosts(o: OrderRow)
    ensures Cost(o, 0.0) == 0.0
  {
  }

  /** A deposit succeeds exactly when the account exists and would not go below
      zero; it becomes available and leaves one deposit row. */
  lemma DepositedExactly(db: Db, userId: string, currency: string, amount: real)
    requires AllAllowed(db.accounts)
    ensures var key := Key(userId, currency);
            DepositFaucet(db, userId, currency, amount).Some? <==>
              key in db.accounts && db.accounts[key].available + amount >= 0.0
    ensures DepositFaucet(db, userId, currency, amount).Some? ==>
              var (d, key) := (DepositFaucet(db, userId, currency, amount).value, Key(userId, currency));
              && d.accounts == db.accounts[key := AccountRow(db.accounts[key].available + amount,
                                                             db.accounts[key].locked)]
              && d.orders == db.orders && d.trades == db.trades
              && d.deposits == db.deposits + [FaucetRow(userId, currency, amount)]
  {
    if Key(userId, currency) in db.accounts {
      assert db.accounts[Key(userId, currency)].Allowed();
    }
  }

  /** Each account after a trade at this cost. */
  ghost predicate Moved(accounts: map<Key, AccountRow>, accounts': map<Key, AccountRow>, t: TradeRow, cost: real) {
    && accounts'.Keys == accounts.Keys
    && forall k :: k in accounts ==>
         && accounts'[k].locked == accounts[k].locked
              - (if k == Key(t.buyerId, t.symbol.quote) then cost else 0.0)
              - (if k == Key(t.sellerId, t.symbol.base) then t.quantity else 0.0)
         && accounts'[k].available == accounts[k].available
              + (if k == Key(t.sellerId, t.symbol.quote) then cost else 0.0)
              + (if k == Key(t.buyerId, t.symbol.base) then t.quantity else 0.0)
  }

  /** The rows after a settlement at this cost. */
  ghost predicate SettledRows(db: Db, d: Db, t: TradeRow, cost: real) {
    && d.trades == db.trades + [t] && d.deposits == db.deposits
    && d.orders.Keys == db.orders.Keys && Moved(db.accounts, d.accounts, t, cost)
    && forall i :: i in db.orders ==>
         var (o, o') := (db.orders[i], d.orders[i]);
         if i == t.buyOrderId || i == t.sellOrderId then
           && o' == o.(filledQuantity := o.filledQuantity + t.quantity, status := o'.status)
           && o'.status == (if o'.filledQuantity >= o.quantity then FILLED else PARTIALLY_FILLED)
         else o' == o
  }

  /** A settlement moves the price times the quantity out of
      the buyer's lock to the seller, and the quantity out of the seller's lock
      to the buyer; it records the trade and fills both rows by the quantity. */
  lemma SettledExactly(db: Db, t: TradeRow)
    requires SettleTrade(db, t).Some? && t.buyOrderId != t.sellOrderId
    ensures t.buyOrderId in db.orders && t.sellOrderId in db.orders && HasAccounts(db.accounts, t)
    ensures SettledRows(db, SettleTrade(db, t).value, t, t.price * t.quantity)
  {
    SettledFor(db, t, t.price * t.quantity);
  }

  lemma SettledFor(db: Db, t: TradeRow, cost: real)
    requires SettleTrade(db, t).Some? && t.buyOrderId != t.sellOrderId && cost == Value(t.price, t.quantity)
    ensures t.buyOrderId in db.orders && t.sellOrderId in db.orders && HasAccounts(db.accounts, t)
    ensures SettledRows(db, SettleTrade(db, t).value, t, cost)
  {
    hide Entries, Value, Movements, Moved;
    MovedBy(db.accounts, t, cost);
  }

  lemma ShiftedBy(accounts: map<Key, AccountRow>, key: Key, available: real, locked: real)
    requires Shift(accounts, key, available, locked).Some?
    ensures var a := Shift(accounts, key, available, locked).value;
            && a.Keys == accounts.Keys
            && forall k :: k in accounts ==>
                 && a[k].available == accounts[k].available + (if k == key then available else 0.0)
                 && a[k].locked == accounts[k].locked + (if k == key then locked else 0.0)
  {
  }

  lemma MovedBy(accounts: map<Key, AccountRow>, t: TradeRow, cost: real)
    requires Movements(accounts, t).Some? && cost == Value(t.price, t.quantity)
    ensures Moved(accounts, Movements(accounts, t).value, t, cost)
  {
    hide Value, Shift;
    var a1 := Shift(accounts, Key(t.buyerId, t.symbol.quote), 0.0, -cost).value;
    var a2 := Shift(a1, Key(t.sellerId, t.symbol.quote), cost, 0.0).value;
    var a3 := Shift(a2, Key(t.sellerId, t.symbol.base), 0.0, -t.quantity).value;
    ShiftedBy(accounts, Key(t.buyerId, t.symbol.quote), 0.0, -cost);
    ShiftedBy(a1, Key(t.sellerId, t.symbol.quote), cost, 0.0);
    ShiftedBy(a2, Key(t.sellerId, t.symbol.base), 0.0, -t.quantity);
    ShiftedBy(a3, Key(t.buyerId, t.symbol.base), t.quantity, 0.0);
  }
}
