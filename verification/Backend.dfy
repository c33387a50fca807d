/** The backend's accounts, orders and journal: each service call is a
    transaction that commits as a whole or changes nothing. */
module Backend {
  import opened Amounts
  import opened Types

  /** A trading pair: the base currency is bought and sold for the quote currency. */
  datatype Pair = Pair(base: string, quote: string)

  datatype Key = Key(userId: string, currency: string)

  datatype AccountRow = AccountRow(available: real, locked: real) {
    function Total(): real { available + locked }

    /** The table's constraints. */
    predicate Allowed() { available >= 0.0 && locked >= 0.0 }
  }

  datatype EntryType = DEBIT | CREDIT

  datatype LedgerEntry = LedgerEntry(transactionId: nat, account: Key, amount: real, entryType: EntryType)

  datatype OrderRow = OrderRow(
    userId: string, symbol: Pair, side: Side, price: real, quantity: real, filledQuantity: real, status: OrderStatus)

  datatype TradeRow = TradeRow(
    symbol: Pair, price: real, quantity: real, buyOrderId: string, sellOrderId: string, buyerId: string,
        sellerId: string)

  datatype FaucetRow = FaucetRow(userId: string, currency: string, amount: real)

  datatype Db = Db(
    accounts: map<Key, AccountRow>, ledger: seq<LedgerEntry>, orders: map<string, OrderRow>,
    trades: seq<TradeRow>, deposits: seq<FaucetRow>)

  datatype Transaction =
    | Place(id: string, row: OrderRow)
    | Settle(trade: TradeRow)
    | CancelOrder(userId: string, id: string)
    | Deposit(userId: string, currency: string, amount: real)

  /** The currency an order locks. */
  function CurrencyOf(symbol: Pair, side: Side): string {
    if side == BUY then symbol.quote else symbol.base
  }

  function LeftOf(o: OrderRow): real {
    o.quantity - o.filledQuantity
  }

  predicate IsOpen(o: OrderRow) {
    o.status in {OPEN, PARTIALLY_FILLED}
  }

  // ---------- transactions ----------

  /** UPDATE of one account by two amounts; no row matches a missing key, and a
      row that violates a constraint fails the transaction. */
  function Shift(accounts: map<Key, AccountRow>, key: Key, available: real, locked: real): Option<map<Key,
      AccountRow>> {
    if key !in accounts then Some(accounts)
    else
      var row := AccountRow(accounts[key].available + available, accounts[key].locked + locked);
      if row.Allowed() then Some(accounts[key := row]) else None
  }

  /** Check the balance and move the order's worth from available to locked. */
  function LockFunds(db: Db, row: OrderRow): Option<Db> {
    var key := Key(row.userId, CurrencyOf(row.symbol, row.side));
    var amount := Worth(row.side, row.price, row.quantity);
    if key !in db.accounts || db.accounts[key].available < amount then None
    else
      var accounts := Shift(db.accounts, key, -amount, amount);
      if accounts.None? then None else Some(db.(accounts := accounts.value))
  }

  function UnlockFunds(db: Db, userId: string, symbol: Pair, side: Side, price: real, remaining: real): Option<Db> {
    var amount := Worth(side, price, remaining);
    var accounts := Shift(db.accounts, Key(userId, CurrencyOf(symbol, side)), amount, -amount);
    if accounts.None? then None else Some(db.(accounts := accounts.value))
  }

  /** Place a LIMIT order: lock its worth and insert its row. */
  function PlaceOrder(db: Db, id: string, row: OrderRow): Option<Db> {
    if id in db.orders || row.price <= 0.0 || row.quantity <= 0.0 then None
    else
      var locked := LockFunds(db, row);
      if locked.None? then None
      else Some(locked.value.(orders := db.orders[id := row.(filledQuantity := 0.0, status := OPEN)]))
  }

  /** The four balance changes of a trade, one after the other. */
  function Movements(accounts: map<Key, AccountRow>, t: TradeRow): Option<map<Key, AccountRow>> {
    var usd := Value(t.price, t.quantity);
    var a1 := Shift(accounts, Key(t.buyerId, t.symbol.quote), 0.0, -usd);
    if a1.None? then None
    else
      var a2 := Shift(a1.value, Key(t.sellerId, t.symbol.quote), usd, 0.0);
      if a2.None? then None
      else
        var a3 := Shift(a2.value, Key(t.sellerId, t.symbol.base), 0.0, -t.quantity);
        if a3.None? then None else Shift(a3.value, Key(t.buyerId, t.symbol.base), t.quantity, 0.0)
  }

  /** The journal rows of a trade, all under one transaction id. A new id is the
      length of the journal, which no earlier row has. */
  function Entries(t: TradeRow, txId: nat): seq<LedgerEntry> {
    var usd := Value(t.price, t.quantity);
    [ LedgerEntry(txId, Key(t.buyerId, t.symbol.quote), usd, DEBIT),
      LedgerEntry(txId, Key(t.sellerId, t.symbol.quote), usd, CREDIT),
      LedgerEntry(txId, Key(t.sellerId, t.symbol.base), t.quantity, DEBIT),
      LedgerEntry(txId, Key(t.buyerId, t.symbol.base), t.quantity, CREDIT) ]
  }

  function Filled(o: OrderRow, quantity: real): OrderRow {
    o.(filledQuantity := o.filledQuantity + quantity,
       status := if o.filledQuantity + quantity >= o.quantity then FILLED else PARTIALLY_FILLED)
  }

  function FillRow(orders: map<string, OrderRow>, id: string, quantity: real): map<string, OrderRow> {
    if id in orders then orders[id := Filled(orders[id], quantity)] else orders
  }

  predicate HasAccounts(accounts: map<Key, AccountRow>, t: TradeRow) {
    && Key(t.buyerId, t.symbol.quote) in accounts && Key(t.sellerId, t.symbol.quote) in accounts
    && Key(t.buyerId, t.symbol.base) in accounts && Key(t.sellerId, t.symbol.base) in accounts
  }

  /** Settle one trade: four balances, four journal rows, the trade, two orders.
      A trade row must refer to existing orders. */
  function SettleTrade(db: Db, t: TradeRow): Option<Db> {
    if !HasAccounts(db.accounts, t) then None
    else
      var accounts := Movements(db.accounts, t);
      if accounts.None? || t.buyOrderId !in db.orders || t.sellOrderId !in db.orders then None
      else Some(db.(accounts := accounts.value, ledger := db.ledger + Entries(t, |db.ledger|),
                    trades := db.trades + [t],
                    orders := FillRow(FillRow(db.orders, t.buyOrderId, t.quantity), t.sellOrderId, t.quantity)))
  }

  /** Cancel an own order that is not closed yet and give back what it still locks. */
  function Cancel(db: Db, userId: string, id: string): Option<Db> {
    if id !in db.orders || db.orders[id].userId != userId || db.orders[id].status in {FILLED, CANCELLED} then None
    else
      var o := db.orders[id];
      var unlocked := if LeftOf(o) > 0.0 then UnlockFunds(db, userId, o.symbol, o.side, o.price, LeftOf(o))
          else Some(db);
      if unlocked.None? then None
      else Some(unlocked.value.(orders := db.orders[id := o.(status := CANCELLED)]))
  }

  /** A faucet deposit is a single CREDIT. */
  function DepositFaucet(db: Db, userId: string, currency: string, amount: real): Option<Db> {
    var key := Key(userId, currency);
    if key !in db.accounts then None
    else
      var accounts := Shift(db.accounts, key, amount, 0.0);
      if accounts.None? then None
      else Some(db.(accounts := accounts.value, ledger := db.ledger + [LedgerEntry(|db.ledger|, key, amount, CREDIT)],
                    deposits := db.deposits + [FaucetRow(userId, currency, amount)]))
  }

  function Attempt(db: Db, tx: Transaction): Option<Db> {
    match tx
    case Place(id, row) => PlaceOrder(db, id, row)
    case Settle(t) => SettleTrade(db, t)
    case CancelOrder(userId, id) => Cancel(db, userId, id)
    case Deposit(userId, currency, amount) => DepositFaucet(db, userId, currency, amount)
  }

  /** A failed transaction changes nothing. */
  function Commit(db: Db, tx: Transaction): Db {
    var r := Attempt(db, tx);
    if r.Some? then r.value else db
  }

  function CommitAll(db: Db, txs: seq<Transaction>): Db
    decreases |txs|
  {
    if txs == [] then db else CommitAll(Commit(db, txs[0]), txs[1..])
  }
}
