/** The funds side of the stress test as a function of its state: one loop
    iteration of one bot is one atomic step. */
module StressTest {
  import opened Amounts
  import opened Types
  import opened Engine

  const SYMBOL := "BTC-USD"
  const BASE_PRICE := 50000.0
  const INITIAL_USD := 1000000.0
  const INITIAL_BTC := 100.0

  datatype Account = Account(available: real, locked: real) {
    function Total(): real { available + locked }
  }

  datatype Purse = Purse(usd: Account, btc: Account) {
    /** What an order of this side locks: USD for a BUY, BTC for a SELL. */
    function Of(side: Side): Account { if side == BUY then usd else btc }

    function With(side: Side, a: Account): Purse { if side == BUY then this.(usd := a) else this.(btc := a) }
  }

  datatype Commitment = Commitment(userId: string, side: Side, lockedPrice: real, remainingQty: real)

  datatype Currency = USD | BTC

  datatype Direction = DEBIT | CREDIT

  datatype LedgerEntry = LedgerEntry(transactionId: nat, userId: string, currency: Currency, amount: real,
                                     direction: Direction)

  datatype Sim = Sim(
    engine: EngineState, accounts: map<string, Purse>,
    active: map<OrderId, Commitment>, ledger: seq<LedgerEntry>)

  /** The random choices of one iteration. */
  datatype Draw = Draw(
    botId: string, isBuyer: bool, isMarket: bool, limitPrice: real, quantity: real,
    orderId: string, target: Option<OrderId>) {
    function Side(): Side { if isBuyer then BUY else SELL }
  }

  // ---------- one iteration ----------

  function LockedPrice(d: Draw): real {
    if d.isBuyer && d.isMarket then BASE_PRICE * 1.1 else d.limitPrice
  }

  function OrderOf(d: Draw): OrderData {
    OrderData(Client(d.orderId), d.botId, SYMBOL, d.Side(), if d.isMarket then MARKET else LIMIT,
              if d.isMarket then 0.0 else d.limitPrice, d.quantity, 0.0, PENDING, None, None, None, None)
  }

  /** Move an amount between available and locked. */
  function Locking(a: Account, amount: real): Account {
    Account(a.available - amount, a.locked + amount)
  }

  function Unlocking(a: Account, amount: real): Account {
    Account(a.available + amount, a.locked - amount)
  }

  function LockIn(accounts: map<string, Purse>, id: string, side: Side, amount: real): map<string, Purse>
    requires id in accounts
  {
    accounts[id := accounts[id].With(side, Locking(accounts[id].Of(side), amount))]
  }

  function Unlock(accounts: map<string, Purse>, id: string, side: Side, amount: real): map<string, Purse>
    requires id in accounts
  {
    accounts[id := accounts[id].With(side, Unlocking(accounts[id].Of(side), amount))]
  }

  function SellerSettled(p: Purse, fill: TradeExecution): Purse {
    Purse(p.usd.(available := p.usd.available + Value(fill.price, fill.quantity)),
          p.btc.(locked := p.btc.locked - fill.quantity))
  }

  /** A buying taker gets back what it locked above the trade price. */
  function BuyerTakerSettled(p: Purse, fill: TradeExecution, lockedPrice: real): Purse {
    var lockedDebit := Value(lockedPrice, fill.quantity);
    var refund := lockedDebit - Value(fill.price, fill.quantity);
    Purse(Account(p.usd.available + refund, p.usd.locked - lockedDebit),
          p.btc.(available := p.btc.available + fill.quantity))
  }

  function BuyerMakerSettled(p: Purse, fill: TradeExecution): Purse {
    Purse(p.usd.(locked := p.usd.locked - Value(fill.price, fill.quantity)),
          p.btc.(available := p.btc.available + fill.quantity))
  }

  function Reduced(active: map<OrderId, Commitment>, id: OrderId, quantity: real): map<OrderId, Commitment> {
    if id !in active then active
    else
      var c := active[id].(remainingQty := active[id].remainingQty - quantity);
      if c.remainingQty <= 0.0 then active - {id} else active[id := c]
  }

  function Entries(fill: TradeExecution, txId: nat): seq<LedgerEntry> {
    var usd := Value(fill.price, fill.quantity);
    [ LedgerEntry(txId, fill.buyerId, USD, usd, DEBIT),
      LedgerEntry(txId, fill.sellerId, USD, usd, CREDIT),
      LedgerEntry(txId, fill.sellerId, BTC, fill.quantity, DEBIT),
      LedgerEntry(txId, fill.buyerId, BTC, fill.quantity, CREDIT) ]
  }

  /** What settling touches: accounts, commitments, journal, and what is left of
      the incoming order. */
  datatype Funds = Funds(accounts: map<string, Purse>, active: map<OrderId, Commitment>,
                         ledger: seq<LedgerEntry>, incoming: Commitment)

  /** Settle one fill of an order of `botId`. Users without an account are skipped
      here; the invariant shows there are none. */
  function Settle(f: Funds, botId: string, fill: TradeExecution): Funds {
    var isBuyerTaker := fill.buyerId == botId;
    var makerOrderId := if isBuyerTaker then fill.sellOrderId else fill.buyOrderId;
    var paid := if fill.sellerId in f.accounts
                then f.accounts[fill.sellerId := SellerSettled(f.accounts[fill.sellerId], fill)] else f.accounts;
    var accounts :=
      if fill.buyerId !in paid then paid
      else if isBuyerTaker then paid[fill.buyerId := BuyerTakerSettled(paid[fill.buyerId], fill,
          f.incoming.lockedPrice)]
      else paid[fill.buyerId := BuyerMakerSettled(paid[fill.buyerId], fill)];
    Funds(accounts, Reduced(f.active, makerOrderId, fill.quantity), f.ledger + Entries(fill, fill.number),
          f.incoming.(remainingQty := f.incoming.remainingQty - fill.quantity))
  }

  function SettleAll(f: Funds, botId: string, fills: seq<TradeExecution>): Funds {
    if fills == [] then f
    else Settle(SettleAll(f, botId, fills[..|fills| - 1]), botId, fills[|fills| - 1])
  }

  /** A resting remainder becomes a commitment, any other remainder is released. */
  function Remainder(f: Funds, order: OrderData): Funds {
    if order.status in {OPEN, PARTIALLY_FILLED} then
      f.(active := f.active[order.id := f.incoming])
    else if (order.status == CANCELLED || f.incoming.remainingQty > 0.0) && f.incoming.remainingQty > 0.0
            && order.userId in f.accounts then
      f.(accounts := Unlock(f.accounts, order.userId, order.side,
                            Worth(order.side, f.incoming.lockedPrice, f.incoming.remainingQty)))
    else f
  }

  /** Lock, submit, settle every fill, then rest or release the remainder. */
  ghost function Trade(s: Sim, d: Draw): Sim
    requires GoodEngine(s.engine) && Submittable(s.engine, OrderOf(d)) && d.botId in s.accounts
  {
    var locked := Entering(s, d);
    var (engine, reply) := Submit(s.engine, OrderOf(d));
    if reply.Rejected? then Sim(engine, locked.accounts, locked.active, locked.ledger)
    else
      var f := Remainder(SettleAll(locked, d.botId, reply.effect.trades), reply.effect.order);
      Sim(engine, f.accounts, f.active, f.ledger)
  }

  /** The funds once the order's worth is locked. */
  function Entering(s: Sim, d: Draw): Funds
    requires d.botId in s.accounts
  {
    Funds(LockIn(s.accounts, d.botId, d.Side(), Worth(d.Side(), LockedPrice(d), d.quantity)), s.active, s.ledger,
          Commitment(d.botId, d.Side(), LockedPrice(d), d.quantity))
  }

  /** A bot may cancel one of its own resting orders. */
  ghost function Churn(s: Sim, botId: string, target: Option<OrderId>): Sim {
    if target.None? || target.value !in s.active || s.active[target.value].userId != botId || botId !in s.accounts
        then s
    else
      var c := s.active[target.value];
      var (engine, response) := CancelIn(s.engine, SYMBOL, target.value);
      if response.Cancelled? && response.order.Some? then
        Sim(engine, Unlock(s.accounts, botId, c.side, Worth(c.side, c.lockedPrice, c.remainingQty)),
            s.active - {target.value}, s.ledger)
      else s.(engine := engine)
  }

  /** Is the order affordable at all? Otherwise the iteration is skipped. */
  predicate Affordable(s: Sim, d: Draw)
    requires d.botId in s.accounts
  {
    s.accounts[d.botId].Of(d.Side()).available >= Worth(d.Side(), LockedPrice(d), d.quantity)
  }

  ghost function Iterate(s: Sim, d: Draw): Sim
    requires GoodEngine(s.engine) && Submittable(s.engine, OrderOf(d)) && d.botId in s.accounts
  {
    if !Affordable(s, d) then s else Churn(Trade(s, d), d.botId, d.target)
  }
}
