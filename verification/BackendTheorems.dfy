/** What every run of backend transactions keeps. */
module BackendTheorems {
  import opened Amounts
  import opened Types
  import opened Backend

  // ---------- accounts against the journal ----------

  function Signed(e: LedgerEntry): real {
    if e.entryType == CREDIT then e.amount else -e.amount
  }

  /** Credits less debits of one account. */
  function Net(ledger: seq<LedgerEntry>, key: Key): real {
    if ledger == [] then 0.0
    else Net(ledger[..|ledger| - 1], key) + if ledger[|ledger| - 1].account == key then Signed(ledger[|ledger| - 1])
        else 0.0
  }

  /** Credits less debits of one currency. */
  function NetOf(ledger: seq<LedgerEntry>, currency: string): real {
    if ledger == [] then 0.0
    else NetOf(ledger[..|ledger| - 1], currency)
         + if ledger[|ledger| - 1].account.currency == currency then Signed(ledger[|ledger| - 1]) else 0.0
  }

  function Deposited(deposits: seq<FaucetRow>, currency: string): real {
    if deposits == [] then 0.0
    else Deposited(deposits[..|deposits| - 1], currency)
         + if deposits[|deposits| - 1].currency == currency then deposits[|deposits| - 1].amount else 0.0
  }

  /** Every account holds its opening balance plus credits less debits, and per
      currency credits exceed debits by exactly the faucet deposits. */
  ghost predicate Balanced(db: Db, opening: map<Key, real>) {
    && db.accounts.Keys == opening.Keys
    && (forall k :: k in db.accounts ==> db.accounts[k].Total() == opening[k] + Net(db.ledger, k))
    && forall c :: NetOf(db.ledger, c) == Deposited(db.deposits, c)
  }

  ghost predicate AllAllowed(accounts: map<Key, AccountRow>) {
    forall k :: k in accounts ==> accounts[k].Allowed()
  }

  lemma ShiftTotals(accounts: map<Key, AccountRow>, key: Key, available: real, locked: real)
    requires Shift(accounts, key, available, locked).Some?
    ensures var a := Shift(accounts, key, available, locked).value;
            && a.Keys == accounts.Keys && (AllAllowed(accounts) ==> AllAllowed(a))
            && forall k :: k in accounts ==>
                 a[k].Total() == accounts[k].Total() + if k == key then available + locked else 0.0
  {
  }

  lemma NetAppend(ledger: seq<LedgerEntry>, e: LedgerEntry)
    ensures forall k :: Net(ledger + [e], k) == Net(ledger, k) + if e.account == k then Signed(e) else 0.0
    ensures forall c :: NetOf(ledger + [e], c) == NetOf(ledger, c) + if e.account.currency == c then Signed(e) else 0.0
  {
    assert (ledger + [e])[..|ledger|] == ledger;
  }

  /** The four rows of a trade move each account by what the balances move, and
      cancel out within each currency. */
  lemma NetEntries(ledger: seq<LedgerEntry>, t: TradeRow, txId: nat)
    ensures var l, usd := ledger + Entries(t, txId), Value(t.price, t.quantity);
            && (forall c :: NetOf(l, c) == NetOf(ledger, c))
            && forall k :: Net(l, k) == Net(ledger, k)
                 - (if k == Key(t.buyerId, t.symbol.quote) then usd else 0.0)
                 + (if k == Key(t.sellerId, t.symbol.quote) then usd else 0.0)
                 - (if k == Key(t.sellerId, t.symbol.base) then t.quantity else 0.0)
                 + (if k == Key(t.buyerId, t.symbol.base) then t.quantity else 0.0)
  {
    hide Value, Net, NetOf;
    var e := Entries(t, txId);
    var l1 := ledger + [e[0]];
    var l2 := l1 + [e[1]];
    var l3 := l2 + [e[2]];
    NetAppend(ledger, e[0]);
    NetAppend(l1, e[1]);
    NetAppend(l2, e[2]);
    NetAppend(l3, e[3]);
    assert ledger + e == l3 + [e[3]];
  }

  lemma MovementTotals(accounts: map<Key, AccountRow>, t: TradeRow)
    requires Movements(accounts, t).Some?
    ensures var a, usd := Movements(accounts, t).value, Value(t.price, t.quantity);
            && a.Keys == accounts.Keys && (AllAllowed(accounts) ==> AllAllowed(a))
            && forall k :: k in accounts ==>
                 a[k].Total() == accounts[k].Total()
                   - (if k == Key(t.buyerId, t.symbol.quote) then usd else 0.0)
                   + (if k == Key(t.sellerId, t.symbol.quote) then usd else 0.0)
                   - (if k == Key(t.sellerId, t.symbol.base) then t.quantity else 0.0)
                   + (if k == Key(t.buyerId, t.symbol.base) then t.quantity else 0.0)
  {
    hide Value, Shift, AllAllowed;
    var usd := Value(t.price, t.quantity);
    var a1 := Shift(accounts, Key(t.buyerId, t.symbol.quote), 0.0, -usd).value;
    var a2 := Shift(a1, Key(t.sellerId, t.symbol.quote), usd, 0.0).value;
    var a3 := Shift(a2, Key(t.sellerId, t.symbol.base), 0.0, -t.quantity).value;
    ShiftTotals(accounts, Key(t.buyerId, t.symbol.quote), 0.0, -usd);
    ShiftTotals(a1, Key(t.sellerId, t.symbol.quote), usd, 0.0);
    ShiftTotals(a2, Key(t.sellerId, t.symbol.base), 0.0, -t.quantity);
    ShiftTotals(a3, Key(t.buyerId, t.symbol.base), t.quantity, 0.0);
  }

  /** Every transaction, successful or not, keeps accounts and journal in step. */
  lemma CommitKeepsBalanced(db: Db, tx: Transaction, opening: map<Key, real>)
    requires Balanced(db, opening) && AllAllowed(db.accounts)
    ensures Balanced(Commit(db, tx), opening) && AllAllowed(Commit(db, tx).accounts)
  {
    hide Value, Worth, Net, NetOf, Shift, Movements, AllAllowed;
    if Attempt(db, tx).Some? {
      match tx {
        case Place(id, row) =>
          var amount := Worth(row.side, row.price, row.quantity);
          ShiftTotals(db.accounts, Key(row.userId, CurrencyOf(row.symbol, row.side)), -amount, amount);
        case Settle(t) =>
          MovementTotals(db.accounts, t);
          NetEntries(db.ledger, t, |db.ledger|);
        case CancelOrder(userId, id) =>
          var o := db.orders[id];
          var amount := Worth(o.side, o.price, LeftOf(o));
          if LeftOf(o) > 0.0 {
            ShiftTotals(db.accounts, Key(userId, CurrencyOf(o.symbol, o.side)), amount, -amount);
          }
        case Deposit(userId, currency, amount) =>
          var (key, d) := (Key(userId, currency), FaucetRow(userId, currency, amount));
          ShiftTotals(db.accounts, key, amount, 0.0);
          NetAppend(db.ledger, LedgerEntry(|db.ledger|, key, amount, CREDIT));
          assert (db.deposits + [d])[..|db.deposits|] == db.deposits;
      }
    }
  }

  lemma {:induction false} RunKeepsBalanced(db: Db, txs: seq<Transaction>, opening: map<Key, real>)
    requires Balanced(db, opening) && AllAllowed(db.accounts)
    ensures Balanced(CommitAll(db, txs), opening) && AllAllowed(CommitAll(db, txs).accounts)
    decreases |txs|
  {
    if txs != [] {
      CommitKeepsBalanced(db, txs[0], opening);
      RunKeepsBalanced(Commit(db, txs[0]), txs[1..], opening);
    }
  }

  // ---------- locked balances against open orders ----------

  /** What an order row commits of one account. */
  function Claim(o: OrderRow, key: Key): real {
    if IsOpen(o) && Key(o.userId, CurrencyOf(o.symbol, o.side)) == key then Worth(o.side, o.price, LeftOf(o)) else 0.0
  }

  /** Commitments of one account over a set of orders. */
  ghost function Committed(orders: map<string, OrderRow>, ids: set<string>, key: Key): real {
    if ids == {} then 0.0
    else
      var id :| id in ids;
      Committed(orders, ids - {id}, key) + if id in orders then Claim(orders[id], key) else 0.0
  }

  /** Limit less trade price times quantity, over the BUY fills of one account. */
  function Improvement(trades: seq<TradeRow>, orders: map<string, OrderRow>, key: Key): real {
    if trades == [] then 0.0
    else
      var t := trades[|trades| - 1];
      Improvement(trades[..|trades| - 1], orders, key)
        + if t.buyOrderId in orders && Key(t.buyerId, t.symbol.quote) == key
          then Value(orders[t.buyOrderId].price, t.quantity) - Value(t.price, t.quantity) else 0.0
  }

  predicate RowOk(o: OrderRow) {
    o.price > 0.0 && 0.0 <= o.filledQuantity <= o.quantity && o.symbol.base != o.symbol.quote && o.status != PENDING
  }

  /** A trade as the engine makes it: between two open orders of the named users,
      for no more than either still wants, at a price within both limits. */
  ghost predicate Executable(db: Db, t: TradeRow) {
    && t.quantity > 0.0 && t.price > 0.0 && t.symbol.base != t.symbol.quote
    && t.buyOrderId in db.orders && t.sellOrderId in db.orders && t.buyOrderId != t.sellOrderId
    && var (buy, sell) := (db.orders[t.buyOrderId], db.orders[t.sellOrderId]);
    && buy.side == BUY && buy.userId == t.buyerId && buy.symbol == t.symbol && IsOpen(buy)
    && t.quantity <= LeftOf(buy) && t.price <= buy.price
    && sell.side == SELL && sell.userId == t.sellerId && sell.symbol == t.symbol && IsOpen(sell)
    && t.quantity <= LeftOf(sell) && sell.price <= t.price
  }

  ghost predicate Admitted(db: Db, tx: Transaction) {
    match tx
    case Settle(t) => Executable(db, t)
    case Place(_, row) => row.symbol.base != row.symbol.quote
    case _ => true
  }

  /** Order and trade rows are sound; a trade's price is within its BUY order's limit. */
  ghost predicate RowsOk(db: Db) {
    && (forall id :: id in db.orders ==> RowOk(db.orders[id]))
    && forall t :: t in db.trades ==>
         t.buyOrderId in db.orders && 0.0 < t.price <= db.orders[t.buyOrderId].price && t.quantity > 0.0
  }

  /** Every locked balance is what open orders commit plus the price
      improvements that were never given back. */
  ghost predicate Backed(db: Db) {
    && RowsOk(db)
    && forall k :: k in db.accounts ==>
         db.accounts[k].locked == Committed(db.orders, db.orders.Keys, k) + Improvement(db.trades, db.orders, k)
  }

  /** What is locked beyond that. */
  ghost function Surplus(db: Db, key: Key): real
    requires key in db.accounts
  {
    db.accounts[key].locked - Committed(db.orders, db.orders.Keys, key) - Improvement(db.trades, db.orders, key)
  }

  ghost predicate SameSurplus(db: Db, d: Db, key: Key) {
    d.accounts.Keys == db.accounts.Keys && (key in db.accounts ==> Surplus(d, key) == Surplus(db, key))
  }

  lemma BackedIf(db: Db)
    ensures Backed(db) <==> RowsOk(db) && forall k :: k in db.accounts ==> Surplus(db, k) == 0.0
  {
    hide Committed, Improvement;
    if RowsOk(db) && forall k :: k in db.accounts ==> Surplus(db, k) == 0.0 {
      forall k | k in db.accounts
        ensures db.accounts[k].locked == Committed(db.orders, db.orders.Keys, k) + Improvement(db.trades, db.orders, k)
      {
        assert Surplus(db, k) == 0.0;
      }
    }
  }

  lemma {:induction false} CommittedSplits(orders: map<string, OrderRow>, ids: set<string>, id: string, key: Key)
    requires id in ids
    ensures Committed(orders, ids, key)
         == Committed(orders, ids - {id}, key) + if id in orders then Claim(orders[id], key) else 0.0
    decreases |ids|
  {
    var picked :| picked in ids && Committed(orders, ids, key)
                    == Committed(orders, ids - {picked}, key) + if picked in orders then Claim(orders[picked], key)
                        else 0.0;
    if picked != id {
      CommittedSplits(orders, ids - {picked}, id, key);
      CommittedSplits(orders, ids - {id}, picked, key);
      assert ids - {picked} - {id} == ids - {id} - {picked};
    }
  }

  lemma {:induction false} CommittedAgrees(orders: map<string, OrderRow>, orders': map<string, OrderRow>,
                                           ids: set<string>, key: Key)
    requires forall id :: id in ids ==> id in orders && id in orders' && orders[id] == orders'[id]
    ensures Committed(orders, ids, key) == Committed(orders', ids, key)
    decreases |ids|
  {
    if ids != {} {
      var id :| id in ids;
      CommittedSplits(orders, ids, id, key);
      CommittedSplits(orders', ids, id, key);
      CommittedAgrees(orders, orders', ids - {id}, key);
    }
  }

  /** Writing one row changes the commitments by the difference of its claims. */
  lemma CommittedWrite(orders: map<string, OrderRow>, id: string, row: OrderRow, key: Key)
    ensures var orders' := orders[id := row];
            Committed(orders', orders'.Keys, key)
            == Committed(orders, orders.Keys, key) - (if id in orders then Claim(orders[id], key) else 0.0)
                + Claim(row, key)
  {
    hide Claim;
    var orders' := orders[id := row];
    var rest := orders.Keys - {id};
    assert orders'.Keys - {id} == rest;
    CommittedSplits(orders', orders'.Keys, id, key);
    CommittedAgrees(orders, orders', rest, key);
    if id in orders {
      CommittedSplits(orders, orders.Keys, id, key);
    } else {
      assert rest == orders.Keys;
    }
  }

  lemma {:induction false} CommittedNonNegative(orders: map<string, OrderRow>, ids: set<string>, key: Key)
    requires forall id :: id in orders ==> RowOk(orders[id])
    ensures Committed(orders, ids, key) >= 0.0
    decreases |ids|
  {
    if ids != {} {
      var id :| id in ids;
      CommittedSplits(orders, ids, id, key);
      CommittedNonNegative(orders, ids - {id}, key);
      if id in orders {
        ClaimNonNegative(orders[id], key);
      }
    }
  }

  lemma ClaimNonNegative(o: OrderRow, key: Key)
    requires RowOk(o)
    ensures Claim(o, key) >= 0.0
  {
    WorthOf(o.side, o.price, LeftOf(o));
  }

  /** An order commits no more than its account has committed in all. */
  lemma ClaimWithin(orders: map<string, OrderRow>, id: string, key: Key)
    requires id in orders && forall i :: i in orders ==> RowOk(orders[i])
    ensures Claim(orders[id], key) <= Committed(orders, orders.Keys, key)
  {
    CommittedSplits(orders, orders.Keys, id, key);
    CommittedNonNegative(orders, orders.Keys - {id}, key);
  }

  /** Prices of orders are never rewritten, so past improvements stay. */
  lemma {:induction false} ImprovementAgrees(trades: seq<TradeRow>, orders: map<string, OrderRow>,
                                             orders': map<string, OrderRow>, key: Key)
    requires forall t :: t in trades ==> t.buyOrderId in orders
    requires forall id :: id in orders ==> id in orders' && orders'[id].price == orders[id].price
    ensures Improvement(trades, orders', key) == Improvement(trades, orders, key)
  {
    if trades != [] {
      ImprovementAgrees(trades[..|trades| - 1], orders, orders', key);
    }
  }

  lemma {:induction false} ImprovementNonNegative(trades: seq<TradeRow>, orders: map<string, OrderRow>, key: Key)
    requires forall t :: t in trades ==>
               t.buyOrderId in orders && 0.0 < t.price <= orders[t.buyOrderId].price && t.quantity > 0.0
    ensures Improvement(trades, orders, key) >= 0.0
    ensures Improvement(trades, orders, key) == 0.0 <==>
              forall t :: t in trades && Key(t.buyerId, t.symbol.quote) == key ==> t.price == orders[t.buyOrderId].price
  {
    if trades != [] {
      var (rest, t) := (trades[..|trades| - 1], trades[|trades| - 1]);
      assert trades == rest + [t];
      ImprovementNonNegative(rest, orders, key);
      Gain(orders[t.buyOrderId].price, t.price, t.quantity);
    }
  }

  lemma Gain(limit: real, price: real, quantity: real)
    requires 0.0 < price <= limit && quantity > 0.0
    ensures Value(limit, quantity) - Value(price, quantity) >= 0.0
    ensures Value(limit, quantity) == Value(price, quantity) <==> price == limit
  {
    assert limit * quantity - price * quantity == (limit - price) * quantity;
    if price < limit {
      assert (limit - price) * quantity > 0.0;
    }
  }

  // ---------- every admitted transaction keeps it ----------

  lemma ShiftLocked(accounts: map<Key, AccountRow>, key: Key, available: real, locked: real)
    requires Shift(accounts, key, available, locked).Some?
    ensures var a := Shift(accounts, key, available, locked).value;
            && a.Keys == accounts.Keys
            && forall k :: k in accounts ==> a[k].locked == accounts[k].locked + if k == key then locked else 0.0
  {
  }

  lemma MovementLocked(accounts: map<Key, AccountRow>, t: TradeRow)
    requires Movements(accounts, t).Some?
    ensures var a := Movements(accounts, t).value;
            && a.Keys == accounts.Keys
            && forall k :: k in accounts ==>
                 a[k].locked == accounts[k].locked
                   - (if k == Key(t.buyerId, t.symbol.quote) then Value(t.price, t.quantity) else 0.0)
                   - (if k == Key(t.sellerId, t.symbol.base) then t.quantity else 0.0)
  {
    hide Value, Shift;
    var usd := Value(t.price, t.quantity);
    var a1 := Shift(accounts, Key(t.buyerId, t.symbol.quote), 0.0, -usd).value;
    var a2 := Shift(a1, Key(t.sellerId, t.symbol.quote), usd, 0.0).value;
    var a3 := Shift(a2, Key(t.sellerId, t.symbol.base), 0.0, -t.quantity).value;
    ShiftLocked(accounts, Key(t.buyerId, t.symbol.quote), 0.0, -usd);
    ShiftLocked(a1, Key(t.sellerId, t.symbol.quote), usd, 0.0);
    ShiftLocked(a2, Key(t.sellerId, t.symbol.base), 0.0, -t.quantity);
    ShiftLocked(a3, Key(t.buyerId, t.symbol.base), t.quantity, 0.0);
  }

  /** A fill lowers what an order claims by the worth of the fill. */
  lemma FillClaims(o: OrderRow, quantity: real, key: Key)
    requires RowOk(o) && IsOpen(o) && 0.0 < quantity <= LeftOf(o)
    ensures RowOk(Filled(o, quantity))
    ensures Claim(Filled(o, quantity), key)
         == Claim(o, key) - if key == Key(o.userId, CurrencyOf(o.symbol, o.side))
             then Worth(o.side, o.price, quantity) else 0.0
  {
    WorthLess(o.side, o.price, LeftOf(o), quantity);
    WorthOf(o.side, o.price, 0.0);
    hide Worth;
  }

  lemma SettleKeepsSurplus(db: Db, t: TradeRow, k: Key)
    requires RowsOk(db) && Executable(db, t) && SettleTrade(db, t).Some?
    ensures SameSurplus(db, SettleTrade(db, t).value, k)
  {
    hide Value, Movements, Claim, Committed, Entries;
    var (buy, sell) := (db.orders[t.buyOrderId], db.orders[t.sellOrderId]);
    var orders1 := FillRow(db.orders, t.buyOrderId, t.quantity);
    var orders2 := FillRow(orders1, t.sellOrderId, t.quantity);
    MovementLocked(db.accounts, t);
    CommittedWrite(db.orders, t.buyOrderId, Filled(buy, t.quantity), k);
    CommittedWrite(orders1, t.sellOrderId, Filled(sell, t.quantity), k);
    FillClaims(buy, t.quantity, k);
    FillClaims(sell, t.quantity, k);
    ImprovementAgrees(db.trades, db.orders, orders2, k);
    assert (db.trades + [t])[..|db.trades|] == db.trades;
  }

  lemma SettleRows(db: Db, t: TradeRow)
    requires RowsOk(db) && Executable(db, t) && SettleTrade(db, t).Some?
    ensures RowsOk(SettleTrade(db, t).value)
  {
    hide Value, Movements;
    FillClaims(db.orders[t.buyOrderId], t.quantity, Key("", ""));
    FillClaims(db.orders[t.sellOrderId], t.quantity, Key("", ""));
  }

  lemma PlaceKeepsSurplus(db: Db, id: string, row: OrderRow, k: Key)
    requires RowsOk(db) && Admitted(db, Place(id, row)) && PlaceOrder(db, id, row).Some?
    ensures RowsOk(PlaceOrder(db, id, row).value) && SameSurplus(db, PlaceOrder(db, id, row).value, k)
  {
    hide Worth, Shift, Improvement, Committed;
    var (d, amount) := (PlaceOrder(db, id, row).value, Worth(row.side, row.price, row.quantity));
    ShiftLocked(db.accounts, Key(row.userId, CurrencyOf(row.symbol, row.side)), -amount, amount);
    CommittedWrite(db.orders, id, d.orders[id], k);
    ImprovementAgrees(db.trades, db.orders, d.orders, k);
  }

  lemma CancelKeepsSurplus(db: Db, userId: string, id: string, k: Key)
    requires RowsOk(db) && Cancel(db, userId, id).Some?
    ensures RowsOk(Cancel(db, userId, id).value) && SameSurplus(db, Cancel(db, userId, id).value, k)
  {
    hide Worth, Shift, Improvement, Committed;
    var (d, o) := (Cancel(db, userId, id).value, db.orders[id]);
    var key, amount := Key(userId, CurrencyOf(o.symbol, o.side)), Worth(o.side, o.price, LeftOf(o));
    WorthOf(o.side, o.price, 0.0);
    if LeftOf(o) > 0.0 {
      ShiftLocked(db.accounts, key, amount, -amount);
    }
    CommittedWrite(db.orders, id, d.orders[id], k);
    ImprovementAgrees(db.trades, db.orders, d.orders, k);
  }

  /** The named orders of a trade, whether they are open or not. */
  ghost predicate Names(db: Db, t: TradeRow) {
    && t.quantity > 0.0 && 0.0 < t.price && t.symbol.base != t.symbol.quote
    && t.buyOrderId in db.orders && t.sellOrderId in db.orders && t.buyOrderId != t.sellOrderId
    && var (buy, sell) := (db.orders[t.buyOrderId], db.orders[t.sellOrderId]);
    && buy.side == BUY && buy.userId == t.buyerId && buy.symbol == t.symbol && t.price <= buy.price
    && sell.side == SELL && sell.userId == t.sellerId && sell.symbol == t.symbol
  }

  /** A closed order claims nothing, and an open one of its own account only. */
  lemma NoClaim(o: OrderRow, key: Key)
    ensures !IsOpen(o) || key != Key(o.userId, CurrencyOf(o.symbol, o.side)) ==> Claim(o, key) == 0.0
  {
  }

  /** Settling a trade of an order that is closed already takes from a lock that
      backs something else: if it succeeds at all, locks are no longer backed. */
  lemma SettlingClosedUnbacks(db: Db, t: TradeRow, id: string)
    requires Backed(db) && Names(db, t) && SettleTrade(db, t).Some?
    requires id in {t.buyOrderId, t.sellOrderId} && !IsOpen(db.orders[id]) && t.quantity <= LeftOf(db.orders[id])
    ensures !Backed(SettleTrade(db, t).value)
  {
    hide Value, Worth, Movements, Committed, Entries, Claim;
    var (d, o) := (SettleTrade(db, t).value, db.orders[id]);
    var (buy, sell) := (db.orders[t.buyOrderId], db.orders[t.sellOrderId]);
    var orders1 := FillRow(db.orders, t.buyOrderId, t.quantity);
    var key := Key(o.userId, CurrencyOf(o.symbol, o.side));
    MovementLocked(db.accounts, t);
    CommittedWrite(db.orders, t.buyOrderId, Filled(buy, t.quantity), key);
    CommittedWrite(orders1, t.sellOrderId, Filled(sell, t.quantity), key);
    ImprovementAgrees(db.trades, db.orders, d.orders, key);
    assert (db.trades + [t])[..|db.trades|] == db.trades;
    NoClaim(buy, key);
    NoClaim(sell, key);
    NoClaim(Filled(buy, t.quantity), key);
    NoClaim(Filled(sell, t.quantity), key);
    ClaimNonNegative(Filled(o, t.quantity), key);
    ValuePositive(buy.price, t.quantity);
  }

  /** No admitted transaction changes what is locked beyond the commitments and
      improvements, whatever that is. */
  lemma CommitKeepsSurplus(db: Db, tx: Transaction, k: Key)
    requires RowsOk(db) && Admitted(db, tx)
    ensures RowsOk(Commit(db, tx)) && SameSurplus(db, Commit(db, tx), k)
  {
    hide RowsOk, Surplus, PlaceOrder, SettleTrade, Cancel, DepositFaucet;
    if Attempt(db, tx).Some? {
      match tx {
        case Place(id, row) => PlaceKeepsSurplus(db, id, row, k);
        case Settle(t) =>
          SettleRows(db, t);
          SettleKeepsSurplus(db, t, k);
        case CancelOrder(userId, id) => CancelKeepsSurplus(db, userId, id, k);
        case Deposit(userId, currency, amount) => DepositKeepsSurplus(db, userId, currency, amount, k);
      }
    }
  }

  lemma DepositKeepsSurplus(db: Db, userId: string, currency: string, amount: real, k: Key)
    requires RowsOk(db) && DepositFaucet(db, userId, currency, amount).Some?
    ensures var d := DepositFaucet(db, userId, currency, amount).value; RowsOk(d) && SameSurplus(db, d, k)
  {
    hide Shift, Improvement, Committed;
    ShiftLocked(db.accounts, Key(userId, currency), amount, 0.0);
  }

  /** Locked balances stay backed over every admitted transaction. */
  lemma CommitKeepsBacked(db: Db, tx: Transaction)
    requires Backed(db) && Admitted(db, tx)
    ensures Backed(Commit(db, tx))
  {
    hide RowsOk, Surplus, Commit, Admitted;
    var d := Commit(db, tx);
    BackedIf(db);
    BackedIf(d);
    CommitKeepsSurplus(db, tx, Key("", ""));
    forall k | k in d.accounts ensures Surplus(d, k) == 0.0 {
      CommitKeepsSurplus(db, tx, k);
    }
  }

  ghost predicate AdmittedRun(db: Db, txs: seq<Transaction>)
    decreases |txs|
  {
    txs != [] ==> Admitted(db, txs[0]) && AdmittedRun(Commit(db, txs[0]), txs[1..])
  }

  /** Over every run: a user's locked balance is exactly what open orders commit
      plus the improvements, so it never falls below the commitments. */
  lemma {:induction false} RunKeepsBacked(db: Db, txs: seq<Transaction>, key: Key)
    requires Backed(db) && AdmittedRun(db, txs)
    ensures Backed(CommitAll(db, txs))
    ensures var d := CommitAll(db, txs);
            key in d.accounts ==> d.accounts[key].locked >= Committed(d.orders, d.orders.Keys, key) >= 0.0
    decreases |txs|
  {
    if txs == [] {
      ImprovementNonNegative(db.trades, db.orders, key);
      CommittedNonNegative(db.orders, db.orders.Keys, key);
    } else {
      CommitKeepsBacked(db, txs[0]);
      RunKeepsBacked(Commit(db, txs[0]), txs[1..], key);
    }
  }

  /** No lock is orphaned exactly when every BUY fill of the account traded at
      its order's own limit: settlement refunds no price improvement, although
      the trade lifecycle document says it does. */
  lemma OrphanedExactly(db: Db, key: Key)
    requires Backed(db) && key in db.accounts
    ensures db.accounts[key].locked == Committed(db.orders, db.orders.Keys, key) <==>
              forall t :: t in db.trades && Key(t.buyerId, t.symbol.quote) == key
                  ==> t.price == db.orders[t.buyOrderId].price
  {
    ImprovementNonNegative(db.trades, db.orders, key);
  }

  /** The constraints of the account table never reject a trade the engine made. */
  lemma SettlementSucceeds(db: Db, t: TradeRow)
    requires Backed(db) && AllAllowed(db.accounts) && Executable(db, t) && HasAccounts(db.accounts, t)
    ensures SettleTrade(db, t).Some?
  {
    var (buy, sell) := (db.orders[t.buyOrderId], db.orders[t.sellOrderId]);
    var payer, giver := Key(t.buyerId, t.symbol.quote), Key(t.sellerId, t.symbol.base);
    ClaimWithin(db.orders, t.buyOrderId, payer);
    ClaimWithin(db.orders, t.sellOrderId, giver);
    ImprovementNonNegative(db.trades, db.orders, payer);
    ImprovementNonNegative(db.trades, db.orders, giver);
    Enough(buy.price, t.price, LeftOf(buy), t.quantity);
    hide Committed, Improvement;
    assert db.accounts[payer].locked >= Value(t.price, t.quantity) >= 0.0;
    assert db.accounts[giver].locked >= t.quantity;
  }

  lemma Enough(limit: real, price: real, left: real, quantity: real)
    requires 0.0 < price <= limit && 0.0 < quantity <= left
    ensures Value(limit, left) >= Value(price, quantity) >= 0.0
  {
    assert limit * left - price * quantity == (limit - price) * left + price * (left - quantity);
    assert (limit - price) * left >= 0.0 && price * (left - quantity) >= 0.0;
  }

  // ---------- an orphaned lock ----------

  const PAIR := Pair("BTC", "USD")
  const BUYER := Key("alice", "USD")

  const EXAMPLE_START := Db(
    map[BUYER := AccountRow(100.0, 0.0), Key("alice", "BTC") := AccountRow(0.0, 0.0),
        Key("bob", "USD") := AccountRow(0.0, 0.0), Key("bob", "BTC") := AccountRow(1.0, 0.0)],
    [], map[], [], [])

  const EXAMPLE_RUN := [
    Place("s", OrderRow("bob", PAIR, SELL, 90.0, 1.0, 0.0, OPEN)),
    Place("b", OrderRow("alice", PAIR, BUY, 100.0, 1.0, 0.0, OPEN)),
    Settle(TradeRow(PAIR, 90.0, 1.0, "b", "s", "alice", "bob"))]

  /** A BUY at 100 filled at 90: nothing is open any more, yet 10 stay locked. */
  lemma OrphanExample()
    ensures var d := CommitAll(EXAMPLE_START, EXAMPLE_RUN);
            && BUYER in d.accounts && d.accounts[BUYER] == AccountRow(0.0, 10.0)
            && (forall id :: id in d.orders ==> d.orders[id].status == FILLED)
            && Committed(d.orders, d.orders.Keys, BUYER) == 0.0
  {
    var d1 := Commit(EXAMPLE_START, EXAMPLE_RUN[0]);
    var d2 := Commit(d1, EXAMPLE_RUN[1]);
    var d3 := Commit(d2, EXAMPLE_RUN[2]);
    assert d1.accounts[Key("bob", "BTC")] == AccountRow(0.0, 1.0);
    assert d2.accounts[BUYER] == AccountRow(0.0, 100.0);
    assert Value(90.0, 1.0) == 90.0;
    assert d3.accounts[BUYER] == AccountRow(0.0, 10.0);
    assert CommitAll(EXAMPLE_START, EXAMPLE_RUN) == d3 by {
      assert EXAMPLE_RUN[1..][0] == EXAMPLE_RUN[1] && EXAMPLE_RUN[1..][1..][0] == EXAMPLE_RUN[2];
      assert CommitAll(d2, EXAMPLE_RUN[1..][1..]) == CommitAll(d3, EXAMPLE_RUN[1..][1..][1..]);
    }
    NothingOpen(d3.orders, d3.orders.Keys, BUYER);
  }

  lemma {:induction false} NothingOpen(orders: map<string, OrderRow>, ids: set<string>, key: Key)
    requires forall id :: id in orders ==> !IsOpen(orders[id])
    ensures Committed(orders, ids, key) == 0.0
    decreases |ids|
  {
    if ids != {} {
      var id :| id in ids;
      CommittedSplits(orders, ids, id, key);
      NothingOpen(orders, ids - {id}, key);
    }
  }
}
