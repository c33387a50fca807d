/** The backend services over one database, statement by statement. */
module BackendServices {
  import opened Amounts
  import opened Types
  import opened Backend
  import opened CancelRoutes
  import opened JournalTheorems

  /** The tables, and the statements the services run on them. */
  class Database {
    var accounts: map<Key, AccountRow>
    var ledger: seq<LedgerEntry>
    var orders: map<string, OrderRow>
    var trades: seq<TradeRow>
    var deposits: seq<FaucetRow>

    constructor (accounts: map<Key, AccountRow>)
      ensures State() == Db(accounts, [], map[], [], [])
    {
      this.accounts, ledger, orders, trades, deposits := accounts, [], map[], [], [];
    }

    function State(): Db
      reads this
    {
      Db(accounts, ledger, orders, trades, deposits)
    }

    method Rollback(saved: Db)
      modifies this
      ensures State() == saved
    {
      accounts, ledger, orders := saved.accounts, saved.ledger, saved.orders;
      trades, deposits := saved.trades, saved.deposits;
    }

    /** UPDATE accounts SET available += a, locked += l; fails on a constraint. */
    method UpdateAccount(key: Key, available: real, locked: real) returns (ok: bool)
      modifies `accounts
      ensures ok <==> Shift(old(accounts), key, available, locked).Some?
      ensures accounts == if ok then Shift(old(accounts), key, available, locked).value else old(accounts)
    {
      if key !in accounts { return true; }
      var row := AccountRow(accounts[key].available + available, accounts[key].locked + locked);
      if row.available < 0.0 || row.locked < 0.0 { return false; }
      accounts := accounts[key := row];
      return true;
    }

    /** UPDATE orders SET filled_quantity += quantity, status by what is filled. */
    method UpdateFilled(id: string, quantity: real)
      modifies `orders
      ensures orders == FillRow(old(orders), id, quantity)
    {
      if id in orders {
        var o := orders[id];
        var filled := o.filledQuantity + quantity;
        orders := orders[id := o.(filledQuantity := filled, status := if filled >= o.quantity then FILLED
                                  else PARTIALLY_FILLED)];
      }
    }
  }

  class LedgerService {
    /** Append the four rows of a trade, one INSERT each. */
    static method RecordTradeSettlement(client: Database, t: TradeRow, usdAmount: real)
      requires usdAmount == Value(t.price, t.quantity)
      modifies client`ledger
      ensures client.ledger == old(client.ledger) + Entries(t, |old(client.ledger)|)
      ensures |client.ledger| == |old(client.ledger)| + 4
      ensures forall i :: |old(client.ledger)| <= i < |client.ledger| ==>
                client.ledger[i].transactionId == |old(client.ledger)|
      ensures forall id, currency ::
                NetIn(client.ledger, id, currency) == NetIn(old(client.ledger), id, currency)
    {
      EntriesBalance(client.ledger, t, |client.ledger|);
      var transactionId := |client.ledger|;
      var entries := [
        LedgerEntry(transactionId, Key(t.buyerId, t.symbol.quote), usdAmount, DEBIT),
        LedgerEntry(transactionId, Key(t.sellerId, t.symbol.quote), usdAmount, CREDIT),
        LedgerEntry(transactionId, Key(t.sellerId, t.symbol.base), t.quantity, DEBIT),
        LedgerEntry(transactionId, Key(t.buyerId, t.symbol.base), t.quantity, CREDIT)];
      for k := 0 to |entries|
        invariant client.ledger == old(client.ledger) + entries[..k]
      {
        client.ledger := client.ledger + [entries[k]];
      }
    }

    static method RecordFaucetDeposit(client: Database, key: Key, amount: real)
      modifies client`ledger, client`deposits
      ensures client.ledger == old(client.ledger) + [LedgerEntry(|old(client.ledger)|, key, amount, CREDIT)]
      ensures client.deposits == old(client.deposits) + [FaucetRow(key.userId, key.currency, amount)]
    {
      client.ledger := client.ledger + [LedgerEntry(|client.ledger|, key, amount, CREDIT)];
      client.deposits := client.deposits + [FaucetRow(key.userId, key.currency, amount)];
    }
  }

  class RiskService {
    /** Check the balance under a row lock, then move the funds. */
    static method LockFundsForOrder(client: Database, row: OrderRow) returns (ok: bool)
      modifies client`accounts
      ensures ok <==> LockFunds(old(client.State()), row).Some?
      ensures ok ==> client.State() == LockFunds(old(client.State()), row).value
      ensures !ok ==> client.State() == old(client.State())
    {
      var currency, lockAmount;
      if row.side == BUY {
        currency, lockAmount := row.symbol.quote, Value(row.price, row.quantity);
      } else {
        currency, lockAmount := row.symbol.base, row.quantity;
      }
      var key := Key(row.userId, currency);
      if key !in client.accounts { return false; }
      if client.accounts[key].available < lockAmount { return false; }
      ok := client.UpdateAccount(key, -lockAmount, lockAmount);
    }

    static method UnlockFundsForCancel(client: Database, userId: string, symbol: Pair, side: Side, price: real,
                                       remainingQuantity: real)
      returns (ok: bool)
      modifies client`accounts
      ensures ok <==> UnlockFunds(old(client.State()), userId, symbol, side, price, remainingQuantity).Some?
      ensures ok ==>
              client.State() == UnlockFunds(old(client.State()), userId, symbol, side, price, remainingQuantity).value
      ensures !ok ==> client.State() == old(client.State())
    {
      var currency, unlockAmount;
      if side == BUY {
        currency, unlockAmount := symbol.quote, Value(price, remainingQuantity);
      } else {
        currency, unlockAmount := symbol.base, remainingQuantity;
      }
      ok := client.UpdateAccount(Key(userId, currency), unlockAmount, -unlockAmount);
    }

    static method DepositFaucetFunds(client: Database, userId: string, currency: string, amount: real)
        returns (ok: bool)
      modifies client
      ensures ok <==> Attempt(old(client.State()), Deposit(userId, currency, amount)).Some?
      ensures client.State() == Commit(old(client.State()), Deposit(userId, currency, amount))
    {
      var key := Key(userId, currency);
      if key !in client.accounts { return false; }
      ok := client.UpdateAccount(key, amount, 0.0);
      if ok {
        LedgerService.RecordFaucetDeposit(client, key, amount);
      }
    }
  }

  class OrderRoutes {
    /** Lock the funds and insert the order row in one transaction. */
    static method Place(client: Database, id: string, row: OrderRow) returns (ok: bool)
      modifies client
      ensures ok <==> Attempt(old(client.State()), Transaction.Place(id, row)).Some?
      ensures client.State() == Commit(old(client.State()), Transaction.Place(id, row))
    {
      if id in client.orders || row.price <= 0.0 || row.quantity <= 0.0 { return false; }
      ok := RiskService.LockFundsForOrder(client, row);
      if ok {
        client.orders := client.orders[id := row.(filledQuantity := 0.0, status := OPEN)];
      }
    }

    /** The unlocking transaction of a cancel, for the row as the route read it. */
    static method UnlockRemaining(client: Database, read: OrderRow) returns (ok: bool)
      modifies client`accounts
      ensures ok <==> Unlock(old(client.State()), read).Some?
      ensures client.State() == if ok then Unlock(old(client.State()), read).value else old(client.State())
    {
      var remaining := read.quantity - read.filledQuantity;
      ok := true;
      if remaining > 0.0 {
        ok := RiskService.UnlockFundsForCancel(client, read.userId, read.symbol, read.side, read.price, remaining);
      }
    }

    /** UPDATE orders SET status = 'CANCELLED', whatever the row holds by then. */
    static method CloseRow(client: Database, id: string)
      modifies client`orders
      ensures client.State() == Close(old(client.State()), id)
    {
      if id in client.orders {
        client.orders := client.orders[id := client.orders[id].(status := CANCELLED)];
      }
    }

    static method CancelOpenOrder(client: Database, userId: string, id: string) returns (ok: bool)
      modifies client
      ensures ok <==> Attempt(old(client.State()), CancelOrder(userId, id)).Some?
      ensures client.State() == Commit(old(client.State()), CancelOrder(userId, id))
    {
      if id !in client.orders || client.orders[id].userId != userId { return false; }
      var read := client.orders[id];
      if read.status == FILLED || read.status == CANCELLED { return false; }
      StepsAreCancel(client.State(), userId, id);
      ok := UnlockRemaining(client, read);
      if ok {
        CloseRow(client, id);
      }
    }
  }

  class SettlementService {
    /** Settle one trade; if any statement fails the whole of it is rolled back. */
    static method SettleOneTrade(client: Database, t: TradeRow) returns (ok: bool)
      modifies client
      ensures ok <==> Attempt(old(client.State()), Settle(t)).Some?
      ensures client.State() == Commit(old(client.State()), Settle(t))
    {
      var saved := client.State();
      ok := Statements(client, t);
      if !ok {
        client.Rollback(saved);
      }
    }

    static method Statements(client: Database, t: TradeRow) returns (ok: bool)
      modifies client
      ensures ok <==> SettleTrade(old(client.State()), t).Some?
      ensures ok ==> client.State() == SettleTrade(old(client.State()), t).value
    {
      hide Value, Shift;
      var usdAmount := Value(t.price, t.quantity);
      var buyerQuote, sellerQuote := Key(t.buyerId, t.symbol.quote), Key(t.sellerId, t.symbol.quote);
      var buyerBase, sellerBase := Key(t.buyerId, t.symbol.base), Key(t.sellerId, t.symbol.base);
      if buyerQuote !in client.accounts || sellerQuote !in client.accounts
         || buyerBase !in client.accounts || sellerBase !in client.accounts {
        return false;
      }
      ok := client.UpdateAccount(buyerQuote, 0.0, -usdAmount);
      if !ok { return; }
      ok := client.UpdateAccount(sellerQuote, usdAmount, 0.0);
      if !ok { return; }
      ok := client.UpdateAccount(sellerBase, 0.0, -t.quantity);
      if !ok { return; }
      ok := client.UpdateAccount(buyerBase, t.quantity, 0.0);
      if !ok { return; }
      LedgerService.RecordTradeSettlement(client, t, usdAmount);
      if t.buyOrderId !in client.orders || t.sellOrderId !in client.orders { return false; }
      client.trades := client.trades + [t];
      client.UpdateFilled(t.buyOrderId, t.quantity);
      client.UpdateFilled(t.sellOrderId, t.quantity);
    }
  }
}
