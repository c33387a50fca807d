/** The backend and the engine together: LIMIT orders are placed, matched,
    settled one trade at a time in any order, and cancelled. */
module BackendRuns {
  import opened Amounts
  import opened Types
  import opened Queues
  import opened Matching
  import opened SweepTheorems
  import opened BookTheorems
  import opened LastTick
  import B = Backend
  import L = BackendTheorems

  /** Tables, one book per pair, and trades that are not settled yet. */
  datatype System = System(db: B.Db, books: map<B.Pair, Book>, unsettled: seq<B.TradeRow>)

  datatype Request =
    | Accept(id: string, row: B.OrderRow)
    | SettleAt(k: nat)
    | Withdraw(userId: string, id: string)
    | Fund(userId: string, currency: string, amount: real)

  function IdName(id: OrderId): string {
    if id.Client? then id.name else ""
  }

  function OrderOf(id: string, row: B.OrderRow): OrderData {
    OrderData(Client(id), row.userId, row.symbol.base + "-" + row.symbol.quote, row.side, LIMIT, row.price,
              row.quantity, 0.0, PENDING, None, None, None, None)
  }

  function RowOf(p: B.Pair, t: TradeExecution): B.TradeRow {
    B.TradeRow(p, t.price, t.quantity, IdName(t.buyOrderId), IdName(t.sellOrderId), t.buyerId, t.sellerId)
  }

  function RowsOf(p: B.Pair, trades: seq<TradeExecution>): seq<B.TradeRow> {
    seq(|trades|, i requires 0 <= i < |trades| => RowOf(p, trades[i]))
  }

  // ---------- what links tables and books ----------

  /** Quantity of an order that is matched but not settled. */
  function Owed(unsettled: seq<B.TradeRow>, id: string): real {
    if unsettled == [] then 0.0
    else Owed(unsettled[..|unsettled| - 1], id) + Share(unsettled[|unsettled| - 1], id)
  }

  function Share(t: B.TradeRow, id: string): real {
    if id in {t.buyOrderId, t.sellOrderId} then t.quantity else 0.0
  }

  /** A row shows an order of the engine, but for what is still to be settled. */
  ghost predicate Reflects(row: B.OrderRow, o: OrderData, p: B.Pair, owed: real) {
    && row.userId == o.userId && row.symbol == p && row.side == o.side && row.price == o.price
    && row.quantity == o.quantity
    && row.filledQuantity + owed == o.filledQuantity && B.IsOpen(row)
  }

  /** A row whose order the engine no longer has: all of it is matched, or it is closed. */
  ghost predicate Accounted(row: B.OrderRow, owed: real) {
    if B.IsOpen(row) then row.filledQuantity + owed == row.quantity else owed == 0.0
  }

  ghost predicate Shown(db: B.Db, unsettled: seq<B.TradeRow>, p: B.Pair, o: OrderData) {
    && o.kind == LIMIT && o.id.Client? && o.id.name in db.orders
    && Reflects(db.orders[o.id.name], o, p, Owed(unsettled, o.id.name))
  }

  ghost predicate AllShown(db: B.Db, unsettled: seq<B.TradeRow>, p: B.Pair, q: seq<OrderData>) {
    forall o :: o in q ==> Shown(db, unsettled, p, o)
  }

  /** Every row outside the engine is accounted for. */
  ghost predicate RestAccounted(db: B.Db, unsettled: seq<B.TradeRow>, live: set<OrderId>) {
    forall id :: id in db.orders && Client(id) !in live ==> Accounted(db.orders[id], Owed(unsettled, id))
  }

  /** A trade between two rows, within both limits. */
  ghost predicate Sound(orders: map<string, B.OrderRow>, t: B.TradeRow) {
    && t.quantity > 0.0 && t.price > 0.0 && t.symbol.base != t.symbol.quote
    && t.buyOrderId in orders && t.sellOrderId in orders && t.buyOrderId != t.sellOrderId
    && var (buy, sell) := (orders[t.buyOrderId], orders[t.sellOrderId]);
    && buy.side == BUY && buy.userId == t.buyerId && buy.symbol == t.symbol && t.price <= buy.price
    && sell.side == SELL && sell.userId == t.sellerId && sell.symbol == t.symbol && sell.price <= t.price
  }

  ghost predicate AllSound(orders: map<string, B.OrderRow>, unsettled: seq<B.TradeRow>) {
    forall t :: t in unsettled ==> Sound(orders, t)
  }

  /** Rows are positive, unfinished while open, and their users have both accounts. */
  ghost predicate RowsFit(db: B.Db) {
    forall id :: id in db.orders ==> RowFits(db, id)
  }

  ghost predicate RowFits(db: B.Db, id: string)
    requires id in db.orders
  {
    var row := db.orders[id];
    && L.RowOk(row) && (B.IsOpen(row) ==> row.filledQuantity < row.quantity)
    && B.Key(row.userId, row.symbol.base) in db.accounts && B.Key(row.userId, row.symbol.quote) in db.accounts
  }

  function Live(books: map<B.Pair, Book>): set<OrderId> {
    set p, o | p in books && o in books[p].bids + books[p].asks :: o.id
  }

  ghost predicate BooksShown(s: System) {
    forall p :: p in s.books ==>
      Good(s.books[p]) && AllShown(s.db, s.unsettled, p, s.books[p].bids)
          && AllShown(s.db, s.unsettled, p, s.books[p].asks)
  }

  ghost predicate Linked(s: System) {
    && BooksShown(s) && RestAccounted(s.db, s.unsettled, Live(s.books))
    && AllSound(s.db.orders, s.unsettled) && RowsFit(s.db)
  }

  // ---------- owed quantities ----------

  lemma OwedMore(unsettled: seq<B.TradeRow>, t: B.TradeRow)
    ensures forall id :: Owed(unsettled + [t], id) == Owed(unsettled, id) + Share(t, id)
  {
    assert (unsettled + [t])[..|unsettled|] == unsettled;
  }

  lemma {:induction false} OwedConcat(a: seq<B.TradeRow>, b: seq<B.TradeRow>, id: string)
    ensures Owed(a + b, id) == Owed(a, id) + Owed(b, id)
  {
    if b == [] {
      assert a + b == a;
    } else {
      assert (a + b)[..|a + b| - 1] == a + b[..|b| - 1];
      OwedConcat(a, b[..|b| - 1], id);
    }
  }

  /** Settling one trade takes its share from what is owed. */
  lemma OwedWithout(unsettled: seq<B.TradeRow>, k: nat, id: string)
    requires k < |unsettled|
    ensures Owed(unsettled[..k] + unsettled[k + 1..], id) == Owed(unsettled, id) - Share(unsettled[k], id)
  {
    OwedConcat(unsettled[..k], unsettled[k + 1..], id);
    OwedConcat(unsettled[..k] + [unsettled[k]], unsettled[k + 1..], id);
    assert unsettled == unsettled[..k] + [unsettled[k]] + unsettled[k + 1..];
    OwedMore(unsettled[..k], unsettled[k]);
  }

  lemma {:induction false} OwedNonNegative(unsettled: seq<B.TradeRow>, id: string)
    requires forall t :: t in unsettled ==> t.quantity > 0.0
    ensures Owed(unsettled, id) >= 0.0
    ensures forall t :: t in unsettled && id in {t.buyOrderId, t.sellOrderId} ==> t.quantity <= Owed(unsettled, id)
  {
    if unsettled != [] {
      var rest := unsettled[..|unsettled| - 1];
      assert unsettled == rest + [unsettled[|unsettled| - 1]];
      OwedNonNegative(rest, id);
    }
  }

  // ---------- settling ----------

  /** An order that is owed something is open, and is owed no more than it lacks. */
  lemma OwedWithinRow(s: System, id: string)
    requires Linked(s) && id in s.db.orders
    ensures s.db.orders[id].filledQuantity + Owed(s.unsettled, id) <= s.db.orders[id].quantity
    ensures Owed(s.unsettled, id) > 0.0 ==> B.IsOpen(s.db.orders[id])
  {
    var row := s.db.orders[id];
    assert RowFits(s.db, id);
    if Client(id) in Live(s.books) {
      var p, o :| p in s.books && o in s.books[p].bids + s.books[p].asks && o.id == Client(id);
      GoodQueues(s.books[p]);
      assert Shown(s.db, s.unsettled, p, o) && Resting(o);
    } else {
      assert Accounted(row, Owed(s.unsettled, id));
    }
  }

  /** Every trade of the engine is executable at whatever moment it is settled,
      and its accounts are there: the settlement succeeds. */
  lemma UnsettledIsExecutable(s: System, k: nat)
    requires Linked(s) && k < |s.unsettled|
    ensures L.Executable(s.db, s.unsettled[k]) && B.HasAccounts(s.db.accounts, s.unsettled[k])
  {
    var t := s.unsettled[k];
    assert Sound(s.db.orders, t);
    assert forall u :: u in s.unsettled ==> Sound(s.db.orders, u);
    OwedNonNegative(s.unsettled, t.buyOrderId);
    OwedNonNegative(s.unsettled, t.sellOrderId);
    OwedWithinRow(s, t.buyOrderId);
    OwedWithinRow(s, t.sellOrderId);
  }

  // ---------- steps ----------

  /** What a request must not do when it succeeds: place an order of a pair the
      engine does not support, or by a user without both accounts, or cancel an
      order with unsettled trades. */
  ghost predicate Allowed(s: System, request: Request) {
    match request
    case Accept(id, row) => B.PlaceOrder(s.db, id, row).Some? ==> row.symbol in s.books && Fitting(s.db, row)
    case Withdraw(userId, id) => B.Cancel(s.db, userId, id).Some? ==> Owed(s.unsettled, id) == 0.0
    case _ => true
  }

  /** Two currencies, and a user with an account in each. */
  ghost predicate Fitting(db: B.Db, row: B.OrderRow) {
    && row.symbol.base != row.symbol.quote
    && B.Key(row.userId, row.symbol.base) in db.accounts && B.Key(row.userId, row.symbol.quote) in db.accounts
  }

  /** Cancel in the book and in the tables. */
  function Withdrawn(s: System, userId: string, id: string): System {
    var cancelled := B.Cancel(s.db, userId, id);
    if cancelled.None? then s
    else
      var p := s.db.orders[id].symbol;
      s.(db := cancelled.value, books := if p in s.books then s.books[p := Cancel(s.books[p], Client(id)).0]
         else s.books)
  }

  /** A request that fails changes nothing. The order of an unsupported pair is
      placed before the engine refuses it. */
  ghost function Take(s: System, request: Request): System
    requires Linked(s)
  {
    match request
    case Accept(id, row) =>
      var placed := B.PlaceOrder(s.db, id, row);
      if placed.None? then s
      else if row.symbol !in s.books then s.(db := placed.value)
      else
        GoodQueues(s.books[row.symbol]);
        var r := Add(s.books[row.symbol], OrderOf(id, row));
        System(placed.value, s.books[row.symbol := r.book], s.unsettled + RowsOf(row.symbol, r.trades))
    case SettleAt(k) =>
      if k >= |s.unsettled| then s
      else System(B.Commit(s.db, B.Settle(s.unsettled[k])), s.books, s.unsettled[..k] + s.unsettled[k + 1..])
    case Withdraw(userId, id) => Withdrawn(s, userId, id)
    case Fund(userId, currency, amount) => s.(db := B.Commit(s.db, B.Deposit(userId, currency, amount)))
  }

  // ---------- settling keeps the link ----------

  lemma FillReflects(row: B.OrderRow, o: OrderData, p: B.Pair, owed: real, quantity: real)
    requires Reflects(row, o, p, owed) && o.filledQuantity < o.quantity && owed - quantity >= 0.0
    ensures Reflects(B.Filled(row, quantity), o, p, owed - quantity)
  {
  }

  lemma FillAccounted(row: B.OrderRow, owed: real, quantity: real)
    requires Accounted(row, owed) && quantity > 0.0 && owed - quantity >= 0.0
    ensures Accounted(B.Filled(row, quantity), owed - quantity)
  {
  }

  function SettledRow(row: B.OrderRow, t: B.TradeRow, id: string): B.OrderRow {
    if id in {t.buyOrderId, t.sellOrderId} then B.Filled(row, t.quantity) else row
  }

  /** The tables after a settlement. */
  ghost predicate SettledAs(s: System, k: nat, s': System)
    requires k < |s.unsettled|
  {
    && s'.books == s.books && s'.unsettled == s.unsettled[..k] + s.unsettled[k + 1..]
    && s'.db.orders.Keys == s.db.orders.Keys && s'.db.accounts.Keys == s.db.accounts.Keys
    && forall id :: id in s.db.orders ==> s'.db.orders[id] == SettledRow(s.db.orders[id], s.unsettled[k], id)
  }

  lemma SettledTables(s: System, k: nat)
    requires Linked(s) && k < |s.unsettled| && B.SettleTrade(s.db, s.unsettled[k]).Some?
    ensures SettledAs(s, k, Take(s, SettleAt(k)))
  {
    hide BooksShown, RestAccounted, RowsFit, B.Movements, B.Filled;
    var t := s.unsettled[k];
    assert Sound(s.db.orders, t);
    L.MovementTotals(s.db.accounts, t);
  }

  /** What is owed of one order before and after. */
  lemma SettledOwed(s: System, k: nat, s': System, id: string)
    requires Linked(s) && k < |s.unsettled| && SettledAs(s, k, s')
    ensures Owed(s'.unsettled, id) == Owed(s.unsettled, id) - Share(s.unsettled[k], id) >= 0.0
    ensures Share(s.unsettled[k], id) >= 0.0
  {
    hide BooksShown, RestAccounted, RowsFit;
    assert forall u :: u in s.unsettled ==> Sound(s.db.orders, u);
    assert Sound(s.db.orders, s.unsettled[k]);
    OwedWithout(s.unsettled, k, id);
    assert forall u :: u in s'.unsettled ==> u in s.unsettled;
    OwedNonNegative(s'.unsettled, id);
  }

  lemma SettledShown(s: System, k: nat, s': System, p: B.Pair, o: OrderData)
    requires Linked(s) && k < |s.unsettled| && SettledAs(s, k, s') && p in s.books
             && o in s.books[p].bids + s.books[p].asks
    ensures Shown(s'.db, s'.unsettled, p, o)
  {
    GoodQueues(s.books[p]);
    assert Resting(o) && Shown(s.db, s.unsettled, p, o);
    SettledOwed(s, k, s', o.id.name);
    hide Owed, Linked, Good, B.Filled, Reflects;
    if o.id.name in {s.unsettled[k].buyOrderId, s.unsettled[k].sellOrderId} {
      FillReflects(s.db.orders[o.id.name], o, p, Owed(s.unsettled, o.id.name), s.unsettled[k].quantity);
    }
  }

  lemma SettledAccounted(s: System, k: nat, s': System)
    requires Linked(s) && k < |s.unsettled| && SettledAs(s, k, s')
    ensures RestAccounted(s'.db, s'.unsettled, Live(s'.books))
  {
    hide BooksShown, RowsFit, Accounted, B.Filled, Owed, Live;
    assert Sound(s.db.orders, s.unsettled[k]);
    forall id | id in s'.db.orders && Client(id) !in Live(s'.books)
      ensures Accounted(s'.db.orders[id], Owed(s'.unsettled, id))
    {
      SettledOwed(s, k, s', id);
      if id in {s.unsettled[k].buyOrderId, s.unsettled[k].sellOrderId} {
        FillAccounted(s.db.orders[id], Owed(s.unsettled, id), s.unsettled[k].quantity);
      }
    }
  }

  lemma SettledSound(s: System, k: nat, s': System)
    requires Linked(s) && k < |s.unsettled| && SettledAs(s, k, s')
    ensures AllSound(s'.db.orders, s'.unsettled)
  {
    hide BooksShown, RestAccounted, RowsFit, Sound, B.Filled, Owed;
    forall t | t in s'.unsettled ensures Sound(s'.db.orders, t) {
      assert t in s.unsettled;
      SoundStays(s.db.orders, s'.db.orders, t, s.unsettled[k].quantity);
    }
  }

  lemma SettledFits(s: System, k: nat, s': System)
    requires Linked(s) && k < |s.unsettled| && SettledAs(s, k, s')
    ensures RowsFit(s'.db)
  {
    hide BooksShown, RestAccounted, Owed, Live;
    assert Sound(s.db.orders, s.unsettled[k]);
    forall id | id in s'.db.orders ensures RowFits(s'.db, id) {
      assert RowFits(s.db, id);
      SettledOwed(s, k, s', id);
      OwedWithinRow(s, id);
    }
  }

  lemma SettleKeeps(s: System, k: nat)
    requires Linked(s) && k < |s.unsettled| && B.SettleTrade(s.db, s.unsettled[k]).Some?
    ensures Linked(Take(s, SettleAt(k)))
  {
    hide Linked, Shown, Good, SettledAs, RestAccounted, AllSound, RowsFit, B.SettleTrade;
    var s' := Take(s, SettleAt(k));
    SettledTables(s, k);
    SettledAccounted(s, k, s');
    SettledSound(s, k, s');
    SettledFits(s, k, s');
    SettledBooks(s, k, s');
    LinkedIf(s');
  }

  lemma SettledBooks(s: System, k: nat, s': System)
    requires Linked(s) && k < |s.unsettled| && SettledAs(s, k, s')
    ensures BooksShown(s')
  {
    hide Shown, Good, RestAccounted, AllSound, RowsFit;
    forall p, o | p in s.books && o in s.books[p].bids + s.books[p].asks ensures Shown(s'.db, s'.unsettled, p, o) {
      SettledShown(s, k, s', p, o);
    }
  }

  lemma LinkedIf(s: System)
    requires BooksShown(s) && RestAccounted(s.db, s.unsettled, Live(s.books)) && AllSound(s.db.orders, s.unsettled)
             && RowsFit(s.db)
    ensures Linked(s)
  {
  }

  lemma SoundStays(orders: map<string, B.OrderRow>, orders': map<string, B.OrderRow>, t: B.TradeRow, quantity: real)
    requires Sound(orders, t) && orders.Keys <= orders'.Keys
    requires forall id :: id in orders ==> orders'[id] == orders[id] || orders'[id] == B.Filled(orders[id], quantity)
    ensures Sound(orders', t)
  {
  }

  // ---------- cancelling and funding keep it ----------

  /** A book without the order of one id. */
  ghost predicate LeftBy(b: Book, b': Book, id: OrderId) {
    && Good(b') && (forall o :: o in b'.bids ==> o in b.bids && o.id != id)
    && (forall o :: o in b'.asks ==> o in b.asks && o.id != id)
    && Ids(b'.bids) + Ids(b'.asks) == Ids(b.bids) + Ids(b.asks) - {id}
  }

  lemma RemoveLeaves(q: seq<OrderData>, id: OrderId)
    requires Distinct(q)
    ensures (forall o :: o in Remove(q, id) ==> o in q && o.id != id) && Ids(Remove(q, id)) == Ids(q) - {id}
  {
    hide Distinct, Remove;
    RemoveKeeps(q, id);
    forall o | o in Remove(q, id) ensures o.id != id {
      assert o.id in Ids(Remove(q, id));
    }
  }

  lemma CancelLeaves(b: Book, id: OrderId)
    requires Good(b)
    ensures LeftBy(b, Cancel(b, id).0, id)
  {
    hide Good, Remove, Distinct;
    CancelKeepsGood(b, id);
    SidesDistinct(b);
    RemoveLeaves(b.bids, id);
    RemoveLeaves(b.asks, id);
    forall o | o in b.bids ensures o.id in Ids(b.bids) {
    }
    forall o | o in b.asks ensures o.id in Ids(b.asks) {
    }
  }

  lemma SidesDistinct(b: Book)
    requires Good(b)
    ensures Distinct(b.bids) && Distinct(b.asks) && Ids(b.bids) !! Ids(b.asks)
  {
  }

  lemma LiveIds(books: map<B.Pair, Book>)
    ensures forall id :: id in Live(books) <==> exists p :: p in books && id in Ids(books[p].bids) + Ids(books[p].asks)
  {
    forall id ensures id in Live(books) <==> exists p :: p in books && id in Ids(books[p].bids) + Ids(books[p].asks) {
      if id in Live(books) {
        var p, o :| p in books && o in books[p].bids + books[p].asks && o.id == id;
        assert id in Ids(books[p].bids) + Ids(books[p].asks);
      }
      if p :| p in books && id in Ids(books[p].bids) + Ids(books[p].asks) {
        var o :| (o in books[p].bids || o in books[p].asks) && o.id == id;
        assert o in books[p].bids + books[p].asks;
      }
    }
  }

  /** The system after an order is withdrawn. */
  ghost predicate WithdrawnAs(s: System, id: string, s': System) {
    && id in s.db.orders && s'.db.orders == s.db.orders[id := s.db.orders[id].(status := CANCELLED)]
    && s'.db.accounts.Keys == s.db.accounts.Keys && s'.unsettled == s.unsettled && s'.books.Keys == s.books.Keys
    && forall q :: q in s.books ==>
         if q == s.db.orders[id].symbol then LeftBy(s.books[q], s'.books[q], Client(id)) else s'.books[q] == s.books[q]
  }

  lemma WithdrawnShown(s: System, id: string, s': System)
    requires Linked(s) && WithdrawnAs(s, id, s')
    ensures BooksShown(s')
  {
    hide Reflects, RestAccounted, AllSound, RowsFit, Owed, Good, B.IsOpen, Ids;
    forall q | q in s'.books
      ensures Good(s'.books[q]) && AllShown(s'.db, s'.unsettled, q, s'.books[q].bids)
              && AllShown(s'.db, s'.unsettled, q, s'.books[q].asks)
    {
      forall o | o in s'.books[q].bids || o in s'.books[q].asks ensures Shown(s'.db, s'.unsettled, q, o) {
        assert o in s.books[q].bids || o in s.books[q].asks;
        assert Shown(s.db, s.unsettled, q, o);
        OtherRow(s, q, o, id);
      }
    }
  }

  lemma WithdrawnRest(s: System, id: string, s': System)
    requires Linked(s) && WithdrawnAs(s, id, s') && Owed(s.unsettled, id) == 0.0
    ensures RestAccounted(s'.db, s'.unsettled, Live(s'.books))
  {
    hide BooksShown, AllSound, RowsFit, Owed, Good, Live, Accounted;
    LiveIds(s.books);
    LiveIds(s'.books);
    ClosedAccounted(s'.db.orders[id]);
    forall i | i in Live(s.books) && i != Client(id) ensures i in Live(s'.books) {
      var p :| p in s.books && i in Ids(s.books[p].bids) + Ids(s.books[p].asks);
      assert p in s'.books && i in Ids(s'.books[p].bids) + Ids(s'.books[p].asks);
    }
  }

  lemma WithdrawnSoundAndFits(s: System, id: string, s': System)
    requires Linked(s) && WithdrawnAs(s, id, s')
    ensures AllSound(s'.db.orders, s'.unsettled) && RowsFit(s'.db)
  {
    hide BooksShown, RestAccounted, LeftBy, Good, RowFits;
    forall t | t in s'.unsettled ensures Sound(s'.db.orders, t) {
      assert Sound(s.db.orders, t);
    }
    forall i | i in s'.db.orders ensures RowFits(s'.db, i) {
      assert RowFits(s.db, i);
      CancelledFits(s.db, s'.db, i);
    }
  }

  lemma WithdrawKeeps(s: System, userId: string, id: string)
    requires Linked(s) && Owed(s.unsettled, id) == 0.0 && B.Cancel(s.db, userId, id).Some?
    ensures Linked(Withdrawn(s, userId, id))
  {
    hide Shown, Reflects, RestAccounted, AllSound, RowsFit, Owed, B.Cancel, Good, Cancel, Live, LeftBy;
    var s' := Withdrawn(s, userId, id);
    WithdrawnTables(s.db, userId, id);
    var p := s.db.orders[id].symbol;
    if p in s.books {
      CancelLeaves(s.books[p], Client(id));
    }
    assert WithdrawnAs(s, id, s');
    WithdrawnShown(s, id, s');
    WithdrawnRest(s, id, s');
    WithdrawnSoundAndFits(s, id, s');
  }

  lemma WithdrawnTables(db: B.Db, userId: string, id: string)
    requires B.Cancel(db, userId, id).Some?
    ensures var d := B.Cancel(db, userId, id).value;
            && id in db.orders && d.orders == db.orders[id := db.orders[id].(status := CANCELLED)]
            && d.accounts.Keys == db.accounts.Keys
  {
    hide Worth;
  }

  lemma ClosedAccounted(row: B.OrderRow)
    requires row.status == CANCELLED
    ensures Accounted(row, 0.0)
  {
  }

  lemma CancelledFits(db: B.Db, d: B.Db, id: string)
    requires id in db.orders && id in d.orders && RowFits(db, id) && d.accounts.Keys == db.accounts.Keys
    requires d.orders[id] == db.orders[id] || d.orders[id] == db.orders[id].(status := CANCELLED)
    ensures RowFits(d, id)
  {
  }

  /** An order of another pair, or what a cancel left, has another row. */
  lemma OtherRow(s: System, q: B.Pair, o: OrderData, id: string)
    requires Shown(s.db, s.unsettled, q, o) && id in s.db.orders
    ensures q != s.db.orders[id].symbol ==> o.id != Client(id)
  {
  }

  lemma FundKeeps(s: System, userId: string, currency: string, amount: real)
    requires Linked(s)
    ensures Linked(Take(s, Fund(userId, currency, amount)))
  {
    var s' := Take(s, Fund(userId, currency, amount));
    assert s'.db.orders == s.db.orders && s'.db.accounts.Keys == s.db.accounts.Keys;
    hide Reflects, Accounted, Owed, Good, Live, B.Commit;
    forall q, o | q in s'.books && o in s'.books[q].bids + s'.books[q].asks ensures Shown(s'.db, s'.unsettled, q, o) {
      assert Shown(s.db, s.unsettled, q, o);
    }
    forall i | i in s'.db.orders ensures RowFits(s'.db, i) {
      assert RowFits(s.db, i);
    }
  }

  // ---------- matching keeps it ----------

  /** Between two fills: queue and taker are shown, everything else is accounted
      for, and what other orders are owed has not changed. */
  ghost predicate InSweep(db: B.Db, p: B.Pair, m: Match, before: seq<B.TradeRow>, unsettled: seq<B.TradeRow>,
                          others: set<OrderId>) {
    && Ready(m) && AllShown(db, unsettled, p, m.queue) && Shown(db, unsettled, p, m.taker)
    && p.base != p.quote && 0.0 < m.taker.price
    && m.taker.id !in Ids(m.queue) && m.taker.id !in others && Ids(m.queue) !! others
    && AllSound(db.orders, unsettled) && RowsFit(db)
    && RestAccounted(db, unsettled, others + Ids(m.queue) + {m.taker.id})
    && forall id: string :: Client(id) in others ==> Owed(unsettled, id) == Owed(before, id)
  }

  /** The head of a LIMIT-only queue trades down or leaves. */
  lemma HeadTrades(m: Match)
    requires Ready(m) && m.queue != [] && m.queue[0].kind == LIMIT && Remaining(m.taker) > 0.0
    ensures var (h, fill) := (m.queue[0], FillSize(m));
            && 0.0 < fill <= Remaining(h) && h in m.queue && Resting(h) && h.side == m.taker.side.Opposite()
            && Step(m).taker == m.taker.(filledQuantity := m.taker.filledQuantity + fill)
            && Step(m).queue == (if fill < Remaining(h)
                 then [h.(filledQuantity := h.filledQuantity + fill, status := PARTIALLY_FILLED)] + m.queue[1..]
                     else m.queue[1..])
            && Ids(m.queue) == {h.id} + Ids(m.queue[1..]) && h.id !in Ids(m.queue[1..])
  {
    assert m.queue[0] in m.queue && Resting(m.queue[0]);
    IdsCons(m.queue);
  }

  function FillOf(m: Match): TradeExecution
    requires m.queue != []
  {
    TradeOf(m.symbol, m.taker, m.queue[0], FillSize(m), m.counter + 1)
  }

  /** What the fill is, as a trade row. */
  lemma FillIsSound(db: B.Db, p: B.Pair, m: Match, before: seq<B.TradeRow>, unsettled: seq<B.TradeRow>,
                    others: set<OrderId>)
    requires InSweep(db, p, m, before, unsettled, others) && !Stops(m, LimitOf(m.taker))
    ensures var t := RowOf(p, FillOf(m));
            && Sound(db.orders, t) && t.quantity == FillSize(m) > 0.0
            && m.queue[0].id.Client? && m.taker.id.Client?
            && {t.buyOrderId, t.sellOrderId} == {m.queue[0].id.name, m.taker.id.name} && m.queue[0].id != m.taker.id
            && m.queue[0].kind == LIMIT
  {
    var h := m.queue[0];
    assert h in m.queue && Shown(db, unsettled, p, h) && Resting(h);
    assert h.id in Ids(m.queue);
    assert RowFits(db, h.id.name);
    hide Owed, RestAccounted, AllSound, AllShown, RowsFit, QueueOk;
  }

  lemma ShownOn(db: B.Db, p: B.Pair, o: OrderData, status: OrderStatus, unsettled: seq<B.TradeRow>, t: B.TradeRow)
    requires Shown(db, unsettled, p, o)
    ensures o.id.name !in {t.buyOrderId, t.sellOrderId} ==> Shown(db, unsettled + [t], p, o)
    ensures o.id.name in {t.buyOrderId, t.sellOrderId} ==>
              Shown(db, unsettled + [t], p, o.(filledQuantity := o.filledQuantity + t.quantity, status := status))
  {
    OwedMore(unsettled, t);
    hide Owed;
  }

  lemma FillShown(db: B.Db, p: B.Pair, m: Match, before: seq<B.TradeRow>, unsettled: seq<B.TradeRow>,
                  others: set<OrderId>)
    requires InSweep(db, p, m, before, unsettled, others) && !Stops(m, LimitOf(m.taker))
    ensures AllShown(db, unsettled + [RowOf(p, FillOf(m))], p, Step(m).queue)
    ensures Shown(db, unsettled + [RowOf(p, FillOf(m))], p, Step(m).taker)
  {
    FillIsSound(db, p, m, before, unsettled, others);
    HeadTrades(m);
    var t := RowOf(p, FillOf(m));
    hide Owed, RestAccounted, AllSound, RowsFit, QueueOk, Sound, Reflects, Step, FillOf, RowOf;
    ShownOn(db, p, m.taker, m.taker.status, unsettled, t);
    ShownOn(db, p, m.queue[0], PARTIALLY_FILLED, unsettled, t);
    forall o | o in m.queue[1..] ensures Shown(db, unsettled + [t], p, o) {
      assert o in m.queue && Shown(db, unsettled, p, o);
      assert o.id in Ids(m.queue[1..]) && o.id in Ids(m.queue);
      ShownOn(db, p, o, o.status, unsettled, t);
    }
  }

  lemma FillRest(db: B.Db, p: B.Pair, m: Match, before: seq<B.TradeRow>, unsettled: seq<B.TradeRow>,
                 others: set<OrderId>)
    requires InSweep(db, p, m, before, unsettled, others) && !Stops(m, LimitOf(m.taker))
    ensures RestAccounted(db, unsettled + [RowOf(p, FillOf(m))], others + Ids(Step(m).queue) + {m.taker.id})
    ensures forall id: string ::
            Client(id) in others ==> Owed(unsettled + [RowOf(p, FillOf(m))], id) == Owed(before, id)
    ensures Ids(Step(m).queue) <= Ids(m.queue)
  {
    FillIsSound(db, p, m, before, unsettled, others);
    HeadTrades(m);
    var (t, h, q') := (RowOf(p, FillOf(m)), m.queue[0], Step(m).queue);
    OwedMore(unsettled, t);
    assert Shown(db, unsettled, p, h);
    hide Owed, AllSound, RowsFit, QueueOk, Sound, Step, FillOf, RowOf, AllShown;
    if FillSize(m) < Remaining(h) {
      IdsCons(q');
      assert q'[1..] == m.queue[1..];
    }
    forall id | id in db.orders && Client(id) !in others + Ids(q') + {m.taker.id}
      ensures Accounted(db.orders[id], Owed(unsettled + [t], id))
    {
      if Client(id) != h.id {
        assert Client(id) !in others + Ids(m.queue) + {m.taker.id};
      }
    }
  }

  lemma SweepStays(db: B.Db, p: B.Pair, m: Match, before: seq<B.TradeRow>, unsettled: seq<B.TradeRow>,
                   others: set<OrderId>)
    requires InSweep(db, p, m, before, unsettled, others) && !Stops(m, LimitOf(m.taker))
    ensures InSweep(db, p, Step(m), before, unsettled + [RowOf(p, FillOf(m))], others)
    ensures Step(m).trades == m.trades + [FillOf(m)]
  {
    FillIsSound(db, p, m, before, unsettled, others);
    FillShown(db, p, m, before, unsettled, others);
    FillRest(db, p, m, before, unsettled, others);
    Continue(m, LimitOf(m.taker));
    HeadTrades(m);
    hide Owed, Shown, RestAccounted, RowsFit, QueueOk, Sound, AllShown, RowOf;
    assert LimitOf(Step(m).taker) == LimitOf(m.taker);
  }

  /** Matching the whole order. */
  lemma {:induction false} SweepLinked(db: B.Db, p: B.Pair, m: Match, cutoff: Option<real>, before: seq<B.TradeRow>,
                                       others: set<OrderId>)
    requires cutoff == LimitOf(m.taker) && InSweep(db, p, m, before, before + RowsOf(p, m.trades), others)
    ensures InSweep(db, p, Run(m, cutoff), before, before + RowsOf(p, Run(m, cutoff).trades), others)
    decreases Sum(Effort, m.queue), if Remaining(m.taker) > 0.0 then 1 else 0
  {
    if !Stops(m, cutoff) {
      hide InSweep, Shown, RestAccounted, RowsFit, QueueOk, Sound, AllShown;
      StillReady(db, p, m, before, before + RowsOf(p, m.trades), others);
      Continue(m, cutoff);
      SweepStays(db, p, m, before, before + RowsOf(p, m.trades), others);
      assert before + RowsOf(p, Step(m).trades) == before + RowsOf(p, m.trades) + [RowOf(p, FillOf(m))];
      SweepLinked(db, p, Step(m), cutoff, before, others);
    }
  }

  lemma StillReady(db: B.Db, p: B.Pair, m: Match, before: seq<B.TradeRow>, unsettled: seq<B.TradeRow>,
                   others: set<OrderId>)
    requires InSweep(db, p, m, before, unsettled, others)
    ensures Ready(m) && AllResting(m.queue)
  {
  }

  // ---------- accepting an order keeps it ----------

  /** Ids resting anywhere but on the side an incoming order sweeps. */
  function Elsewhere(books: map<B.Pair, Book>, p: B.Pair, side: Side): set<OrderId>
    requires p in books
  {
    Ids(books[p].Queue(side)) + Live(books - {p})
  }

  lemma LiveSplits(books: map<B.Pair, Book>, p: B.Pair, side: Side)
    requires p in books
    ensures Live(books) == Elsewhere(books, p, side) + Ids(books[p].Queue(side.Opposite()))
  {
    LiveIds(books);
    LiveIds(books - {p});
    var others := books - {p};
    forall id | id in Live(books) ensures id in Elsewhere(books, p, side) + Ids(books[p].Queue(side.Opposite())) {
      var q :| q in books && id in Ids(books[q].bids) + Ids(books[q].asks);
      assert q != p ==> q in others && id in Ids(others[q].bids) + Ids(others[q].asks);
    }
    forall id | id in Elsewhere(books, p, side) + Ids(books[p].Queue(side.Opposite())) ensures id in Live(books) {
      if id in Live(others) {
        var q :| q in others && id in Ids(others[q].bids) + Ids(others[q].asks);
        assert q in books && id in Ids(books[q].bids) + Ids(books[q].asks);
      } else {
        assert id in Ids(books[p].bids) + Ids(books[p].asks);
      }
    }
  }

  lemma PlacedTables(db: B.Db, id: string, row: B.OrderRow)
    requires B.PlaceOrder(db, id, row).Some?
    ensures var d := B.PlaceOrder(db, id, row).value;
            && id !in db.orders && row.price > 0.0 && row.quantity > 0.0 && d.accounts.Keys == db.accounts.Keys
            && d.orders == db.orders[id := row.(filledQuantity := 0.0, status := OPEN)]
  {
    hide Worth;
  }

  /** No order of the engine has a name that is not in the order table. */
  lemma NewName(s: System, id: string)
    requires BooksShown(s) && id !in s.db.orders
    ensures Client(id) !in Live(s.books)
    ensures forall p :: p in s.books ==> Client(id) !in Ids(s.books[p].bids) + Ids(s.books[p].asks)
  {
    forall p, o | p in s.books && (o in s.books[p].bids || o in s.books[p].asks) ensures o.id != Client(id) {
      assert Shown(s.db, s.unsettled, p, o);
    }
  }

  lemma OwedNothing(orders: map<string, B.OrderRow>, unsettled: seq<B.TradeRow>, id: string)
    requires AllSound(orders, unsettled) && id !in orders
    ensures Owed(unsettled, id) == 0.0
  {
    if unsettled != [] {
      var t := unsettled[|unsettled| - 1];
      assert t in unsettled && Sound(orders, t);
      OwedNothing(orders, unsettled[..|unsettled| - 1], id);
    }
  }

  /** Orders of different books have different names. */
  lemma OnePair(s: System, p: B.Pair, q: B.Pair, a: OrderData, b: OrderData)
    requires Shown(s.db, s.unsettled, p, a) && Shown(s.db, s.unsettled, q, b) && a.id == b.id
    ensures p == q
  {
  }

  lemma NewRowKept(s: System, id: string, db: B.Db)
    requires Linked(s) && id !in s.db.orders && db.accounts.Keys == s.db.accounts.Keys
    requires db.orders.Keys == s.db.orders.Keys + {id} && forall i ::
             i in s.db.orders ==> db.orders[i] == s.db.orders[i]
    ensures forall p, o :: p in s.books && o in s.books[p].bids + s.books[p].asks ==> Shown(db, s.unsettled, p, o)
    ensures AllSound(db.orders, s.unsettled)
    ensures RowFits(db, id) ==> RowsFit(db)
  {
    hide Reflects, RestAccounted, Owed, Good, B.IsOpen, Live;
    forall p, o | p in s.books && o in s.books[p].bids + s.books[p].asks ensures Shown(db, s.unsettled, p, o) {
      assert Shown(s.db, s.unsettled, p, o);
    }
    forall t | t in s.unsettled ensures Sound(db.orders, t) {
      assert Sound(s.db.orders, t);
    }
    forall i | i in s.db.orders ensures RowFits(db, i) {
      assert RowFits(s.db, i);
    }
  }

  /** A placed order is about to sweep. */
  lemma AcceptStarts(s: System, id: string, row: B.OrderRow, db: B.Db)
    requires Linked(s) && row.symbol in s.books && Fitting(s.db, row)
    requires id !in s.db.orders && row.price > 0.0 && row.quantity > 0.0
    requires db.accounts.Keys == s.db.accounts.Keys
             && db.orders == s.db.orders[id := row.(filledQuantity := 0.0, status := OPEN)]
    ensures InSweep(db, row.symbol, Start(s.books[row.symbol], OrderOf(id, row)), s.unsettled, s.unsettled,
                    Elsewhere(s.books, row.symbol, row.side))
  {
    hide Owed, Live, Sorted, Distinct;
    var (p, o, b) := (row.symbol, OrderOf(id, row), s.books[row.symbol]);
    GoodQueues(b);
    NewName(s, id);
    OwedNothing(s.db.orders, s.unsettled, id);
    NewRowKept(s, id, db);
    SidesDistinct(b);
    SidesApart(s, p, row.side);
    LiveSplits(s.books, p, row.side);
    assert Shown(db, s.unsettled, p, o);
    RestKept(s, id, db);
  }

  lemma RestKept(s: System, id: string, db: B.Db)
    requires RestAccounted(s.db, s.unsettled, Live(s.books))
    requires db.orders.Keys == s.db.orders.Keys + {id} && forall i ::
             i in s.db.orders ==> db.orders[i] == s.db.orders[i]
    ensures RestAccounted(db, s.unsettled, Live(s.books) + {Client(id)})
  {
    hide Accounted, Live, Owed;
  }

  /** The side an order sweeps shares no id with the rest of the engine. */
  lemma SidesApart(s: System, p: B.Pair, side: Side)
    requires BooksShown(s) && p in s.books
    ensures Ids(s.books[p].Queue(side.Opposite())) !! Elsewhere(s.books, p, side)
  {
    hide Shown, Good;
    SidesDistinct(s.books[p]);
    LiveIds(s.books - {p});
    forall id | id in Ids(s.books[p].Queue(side.Opposite())) ensures id !in Live(s.books - {p}) {
      var a :| a in s.books[p].Queue(side.Opposite()) && a.id == id;
      if q :| q in s.books - {p} && id in Ids(s.books[q].bids) + Ids(s.books[q].asks) {
        var c :| (c in s.books[q].bids || c in s.books[q].asks) && c.id == id;
        OnePair(s, p, q, a, c);
      }
    }
  }

  /** What adding a LIMIT order does to its book. */
  lemma LimitAdded(b: Book, o: OrderData)
    requires Good(b) && Fresh(o) && o.kind == LIMIT && IsNew(b, o)
    ensures AllResting(b.Queue(o.side.Opposite()))
    ensures var (m, r) := (Run(Start(b, o), LimitOf(o)), Add(b, o));
            && Good(r.book) && r.trades == m.trades && r.book.Queue(o.side.Opposite()) == m.queue
            && 0.0 <= Remaining(m.taker) && m.taker == o.(filledQuantity := m.taker.filledQuantity)
            && (if Remaining(m.taker) > 0.0
                then r.book.Queue(o.side)
                    == Insert(b.Queue(o.side), m.taker.(status := StatusFor(m.taker.filledQuantity)))
                else r.book.Queue(o.side) == b.Queue(o.side))
  {
    GoodQueues(b);
    AddKeepsGood(b, o);
    RunKeeps(Start(b, o), LimitOf(o));
    FillClosedForm(Start(b, o), LimitOf(o));
    ReachPositive(b.Queue(o.side.Opposite()), LimitOf(o));
    hide Run, QueueOk, Reach, Good;
  }

  /** What others are owed has not changed, so they are still shown. */
  lemma OthersShown(s: System, db: B.Db, unsettled: seq<B.TradeRow>, q: B.Pair, o: OrderData)
    requires Shown(db, s.unsettled, q, o) && Owed(unsettled, o.id.name) == Owed(s.unsettled, o.id.name)
    ensures Shown(db, unsettled, q, o)
  {
  }

  lemma AcceptBooks(s: System, db: B.Db, p: B.Pair, m: Match, unsettled: seq<B.TradeRow>, r: Book)
    requires Linked(s) && p in s.books && InSweep(db, p, m, s.unsettled, unsettled, Elsewhere(s.books, p, m.taker.side))
    requires forall q, o :: q in s.books && o in s.books[q].bids + s.books[q].asks ==> Shown(db, s.unsettled, q, o)
    requires Good(r) && r.Queue(m.taker.side.Opposite()) == m.queue
    requires var own := s.books[p].Queue(m.taker.side);
             r.Queue(m.taker.side) == if Remaining(m.taker) > 0.0
                 then Insert(own, m.taker.(status := StatusFor(m.taker.filledQuantity))) else own
    ensures BooksShown(System(db, s.books[p := r], unsettled))
  {
    hide Good, Sound, RestAccounted, RowsFit, QueueOk, Reflects, Owed, Live, Ready;
    LiveIds(s.books - {p});
    var side, own := m.taker.side, s.books[p].Queue(m.taker.side);
    var rested := m.taker.(status := StatusFor(m.taker.filledQuantity));
    InsertMembers(own, rested);
    RestedShown(db, unsettled, p, m.taker, rested);
    forall o | o in own ensures Shown(db, unsettled, p, o) {
      assert o in s.books[p].bids + s.books[p].asks && Shown(db, s.unsettled, p, o);
      assert o.id in Ids(own);
      OthersShown(s, db, unsettled, p, o);
    }
    forall q, o | q in s.books && q != p && o in s.books[q].bids + s.books[q].asks ensures Shown(db, unsettled, q, o) {
      assert Shown(db, s.unsettled, q, o);
      assert q in s.books - {p} && o.id in Ids((s.books - {p})[q].bids) + Ids((s.books - {p})[q].asks);
      OthersShown(s, db, unsettled, q, o);
    }
  }

  lemma RestedShown(db: B.Db, unsettled: seq<B.TradeRow>, p: B.Pair, taker: OrderData, rested: OrderData)
    requires Shown(db, unsettled, p, taker) && rested == taker.(status := rested.status)
    ensures Shown(db, unsettled, p, rested)
  {
  }

  /** A taker that is filled is accounted for by its row. */
  lemma FilledAccounted(db: B.Db, unsettled: seq<B.TradeRow>, p: B.Pair, taker: OrderData)
    requires Shown(db, unsettled, p, taker) && Remaining(taker) == 0.0
    ensures Accounted(db.orders[taker.id.name], Owed(unsettled, taker.id.name))
  {
  }

  lemma AcceptRest(s: System, db: B.Db, p: B.Pair, m: Match, unsettled: seq<B.TradeRow>, r: Book)
    requires p in s.books && InSweep(db, p, m, s.unsettled, unsettled, Elsewhere(s.books, p, m.taker.side))
             && Remaining(m.taker) >= 0.0
    requires r.Queue(m.taker.side.Opposite()) == m.queue
    requires var own := s.books[p].Queue(m.taker.side);
             r.Queue(m.taker.side) == if Remaining(m.taker) > 0.0
                 then Insert(own, m.taker.(status := StatusFor(m.taker.filledQuantity))) else own
    ensures RestAccounted(db, unsettled, Live(s.books[p := r]))
  {
    hide Good, Sound, RowsFit, Reflects, Owed, Live, Accounted;
    var books := s.books[p := r];
    var own, rested := s.books[p].Queue(m.taker.side), m.taker.(status := StatusFor(m.taker.filledQuantity));
    assert books - {p} == s.books - {p};
    LiveSplits(books, p, m.taker.side);
    InsertMembers(own, rested);
    if Remaining(m.taker) > 0.0 {
      assert rested in r.Queue(m.taker.side);
      assert forall o :: o in own ==> o in r.Queue(m.taker.side);
    } else {
      FilledAccounted(db, unsettled, p, m.taker);
    }
  }

  lemma AcceptKeeps(s: System, id: string, row: B.OrderRow)
    requires Linked(s) && row.symbol in s.books && Fitting(s.db, row) && B.PlaceOrder(s.db, id, row).Some?
    ensures Linked(Take(s, Accept(id, row)))
  {
    hide Shown, Good, RestAccounted, AllSound, RowsFit, B.PlaceOrder, InSweep, Elsewhere, Add, Run;
    var (p, o, b, db) := (row.symbol, OrderOf(id, row), s.books[row.symbol], B.PlaceOrder(s.db, id, row).value);
    PlacedTables(s.db, id, row);
    AcceptStarts(s, id, row, db);
    NewName(s, id);
    LimitAdded(b, o);
    var m0, others := Start(b, o), Elsewhere(s.books, p, row.side);
    assert s.unsettled + RowsOf(p, m0.trades) == s.unsettled;
    SweepLinked(db, p, m0, LimitOf(o), s.unsettled, others);
    var m := Run(m0, LimitOf(o));
    var unsettled := s.unsettled + RowsOf(p, m.trades);
    NewRowKept(s, id, db);
    AcceptBooks(s, db, p, m, unsettled, Add(b, o).book);
    AcceptRest(s, db, p, m, unsettled, Add(b, o).book);
    SweptTables(db, p, m, s.unsettled, unsettled, others);
    LinkedIf(Take(s, Accept(id, row)));
  }

  // ---------- price improvement, before the submission ----------

  /** Every fill is at the price of an order that was in the queue. */
  lemma {:induction false} FillsAtMakers(m: Match, cutoff: Option<real>, n: nat) returns (maker: OrderData)
    requires Ready(m) && (forall o :: o in m.queue ==> o.kind == LIMIT) && |m.trades| <= n < |Run(m, cutoff).trades|
    ensures maker in m.queue && maker.price == Run(m, cutoff).trades[n].price
    ensures maker.id == MakerId(Run(m, cutoff).trades[n], m.taker.side)
    decreases Sum(Effort, m.queue), if Remaining(m.taker) > 0.0 then 1 else 0
  {
    hide Sorted, Distinct, Resting, Insert;
    maker := m.taker;
    if !Stops(m, cutoff) {
      Continue(m, cutoff);
      FirstTrade(m, cutoff);
      IdsCons(m.queue);
      if n == |m.trades| {
        maker := m.queue[0];
      } else {
        StepKeeps(m);
        assert Remaining(Step(m).taker) > 0.0;
        maker := FillsAtMakers(Step(m), cutoff, n);
      }
    }
  }

  /** Whether a placement will leave a price improvement with its lock, from the
      book before it: only a BUY that reaches better prices than its own. */
  ghost predicate Improves(b: Book, o: OrderData) {
    o.side == BUY && Meets(b, o, LimitOf(o)) && exists p :: p in PricesAhead(b, o, LimitOf(o)) && p != o.price
  }

  /** The trades of a placement are all at their BUY orders' own limits, so that
      settling them orphans no lock, exactly when it does not improve. */
  lemma ImprovementAhead(s: System, id: string, row: B.OrderRow)
    requires Linked(s) && row.symbol in s.books && Fitting(s.db, row) && B.PlaceOrder(s.db, id, row).Some?
    ensures var s' := Take(s, Accept(id, row));
            && s.unsettled <= s'.unsettled
            && ((forall n :: |s.unsettled| <= n < |s'.unsettled| ==>
                   var t := s'.unsettled[n];
                   t.buyOrderId in s'.db.orders && t.price == s'.db.orders[t.buyOrderId].price)
                <==> !Improves(s.books[row.symbol], OrderOf(id, row)))
  {
    hide Linked, B.PlaceOrder, Add, Good, PricesAhead, Meets, Take;
    var (b, o) := (s.books[row.symbol], OrderOf(id, row));
    PlacedTables(s.db, id, row);
    BookReady(s, id, row);
    LimitAdded(b, o);
    SweepPrices(b, o, LimitOf(o));
    TradesAdded(s, id, row);
    var (s', prices) := (Take(s, Accept(id, row)), PricesOf(Add(b, o).trades));
    if Improves(b, o) {
      var q :| q in PricesAhead(b, o, LimitOf(o)) && q != o.price;
      assert q in prices;
      var n :| 0 <= n < |prices| && prices[n] == q;
      assert s'.unsettled[|s.unsettled| + n].price == q;
    } else {
      forall n | |s.unsettled| <= n < |s'.unsettled|
        ensures var t := s'.unsettled[n]; t.buyOrderId in s'.db.orders && t.price == s'.db.orders[t.buyOrderId].price
      {
        assert prices[n - |s.unsettled|] in prices;
      }
    }
  }

  /** A placement adds the trades of its sweep to the unsettled ones. A BUY maker
      is charged its own price, a BUY taker the price of its row. */
  lemma TradesAdded(s: System, id: string, row: B.OrderRow)
    requires Linked(s) && row.symbol in s.books && Fitting(s.db, row) && B.PlaceOrder(s.db, id, row).Some?
    requires AllResting(s.books[row.symbol].Queue(row.side.Opposite()))
    ensures var s' := Take(s, Accept(id, row));
            var prices := PricesOf(Add(s.books[row.symbol], OrderOf(id, row)).trades);
            && |s'.unsettled| == |s.unsettled| + |prices| && s.unsettled <= s'.unsettled
            && forall n :: |s.unsettled| <= n < |s'.unsettled| ==>
                 var t := s'.unsettled[n];
                 && t.buyOrderId in s'.db.orders && t.price == prices[n - |s.unsettled|]
                 && s'.db.orders[t.buyOrderId].price == if row.side == BUY then row.price else t.price
  {
    hide Linked, B.PlaceOrder, Add, Good;
    var trades := Add(s.books[row.symbol], OrderOf(id, row)).trades;
    var s' := Take(s, Accept(id, row));
    assert s'.unsettled == s.unsettled + RowsOf(row.symbol, trades);
    forall n | |s.unsettled| <= n < |s'.unsettled|
      ensures var t := s'.unsettled[n];
              && t.buyOrderId in s'.db.orders && t.price == PricesOf(trades)[n - |s.unsettled|]
              && s'.db.orders[t.buyOrderId].price == if row.side == BUY then row.price else t.price
    {
      BuyLimit(s, id, row, n - |s.unsettled|);
    }
  }

  lemma BookReady(s: System, id: string, row: B.OrderRow)
    requires Linked(s) && row.symbol in s.books && id !in s.db.orders && row.quantity > 0.0
    ensures var (b, o) := (s.books[row.symbol], OrderOf(id, row));
            && Good(b) && Takes(b, o) && Ready(Start(b, o)) && Fresh(o) && IsNew(b, o)
            && AllResting(b.Queue(o.side.Opposite()))
            && forall x :: x in b.Queue(o.side.Opposite()) ==> Shown(s.db, s.unsettled, row.symbol, x)
  {
    hide Shown;
    NewName(s, id);
    GoodQueues(s.books[row.symbol]);
  }

  lemma BuyLimit(s: System, id: string, row: B.OrderRow, n: nat)
    requires Linked(s) && row.symbol in s.books && Fitting(s.db, row) && B.PlaceOrder(s.db, id, row).Some?
    requires AllResting(s.books[row.symbol].Queue(row.side.Opposite()))
    requires n < |Add(s.books[row.symbol], OrderOf(id, row)).trades|
    ensures var s' := Take(s, Accept(id, row));
            var (t, u) := (Add(s.books[row.symbol], OrderOf(id, row)).trades[n], s'.unsettled[|s.unsettled| + n]);
            && u.price == t.price && u.buyOrderId in s'.db.orders
            && s'.db.orders[u.buyOrderId].price == if row.side == BUY then row.price else t.price
  {
    hide Linked, B.PlaceOrder, Add, Good, Run;
    var (b, o) := (s.books[row.symbol], OrderOf(id, row));
    PlacedTables(s.db, id, row);
    BookReady(s, id, row);
    LimitAdded(b, o);
    var maker := FillsAtMakers(Start(b, o), LimitOf(o), n);
    TakerIds(Start(b, o), LimitOf(o), n);
    assert Shown(s.db, s.unsettled, row.symbol, maker);
  }

  lemma {:induction false} TakerIds(m: Match, cutoff: Option<real>, n: nat)
    requires Ready(m) && |m.trades| <= n < |Run(m, cutoff).trades|
    ensures var t := Run(m, cutoff).trades[n]; m.taker.id == if m.taker.side == BUY then t.buyOrderId else t.sellOrderId
    decreases Sum(Effort, m.queue), if Remaining(m.taker) > 0.0 then 1 else 0
  {
    if !Stops(m, cutoff) {
      Continue(m, cutoff);
      FirstTrade(m, cutoff);
      if n > |m.trades| {
        TakerIds(Step(m), cutoff, n);
      }
    }
  }

  lemma SweptTables(db: B.Db, p: B.Pair, m: Match, before: seq<B.TradeRow>, unsettled: seq<B.TradeRow>,
                    others: set<OrderId>)
    requires InSweep(db, p, m, before, unsettled, others)
    ensures AllSound(db.orders, unsettled) && RowsFit(db)
  {
  }

  // ---------- cancelling too early ----------

  /** A cancel keeps tables and books linked exactly when no trade of the order
      is still to be settled; otherwise it gives back funds the trade needs. */
  lemma WithdrawExactly(s: System, userId: string, id: string)
    requires Linked(s) && B.Cancel(s.db, userId, id).Some?
    ensures Linked(Withdrawn(s, userId, id)) <==> Owed(s.unsettled, id) == 0.0
  {
    if Owed(s.unsettled, id) == 0.0 {
      WithdrawKeeps(s, userId, id);
    } else {
      ClosedTooEarly(s, userId, id);
    }
  }

  /** What a cancel in between costs: no unsettled trade of the order can be
      settled any more without taking from locks that back something else. */
  lemma WithdrawHarms(s: System, userId: string, id: string, k: nat)
    requires Linked(s) && L.Backed(s.db) && B.Cancel(s.db, userId, id).Some?
    requires k < |s.unsettled| && id in {s.unsettled[k].buyOrderId, s.unsettled[k].sellOrderId}
    ensures var (d, t) := (Withdrawn(s, userId, id).db, s.unsettled[k]);
            B.SettleTrade(d, t).None? || !L.Backed(B.SettleTrade(d, t).value)
  {
    hide Linked, L.Backed, B.SettleTrade, B.Cancel;
    var (d, t) := (Withdrawn(s, userId, id).db, s.unsettled[k]);
    UnsettledIsExecutable(s, k);
    WithdrawnTables(s.db, userId, id);
    L.CommitKeepsBacked(s.db, B.CancelOrder(userId, id));
    if B.SettleTrade(d, t).Some? {
      L.SettlingClosedUnbacks(d, t, id);
    }
  }

  /** A BUY of one coin at 100 that is matched but not settled yet. */
  const EARLY_PAIR := B.Pair("BTC", "USD")
  const EARLY_TRADE := B.TradeRow(EARLY_PAIR, 100.0, 1.0, "b", "s", "alice", "bob")
  const EARLY := System(
    B.Db(map[B.Key("alice", "USD") := B.AccountRow(0.0, 100.0), B.Key("alice", "BTC") := B.AccountRow(0.0, 0.0),
             B.Key("bob", "USD") := B.AccountRow(0.0, 0.0), B.Key("bob", "BTC") := B.AccountRow(0.0, 1.0)],
         [], map["b" := B.OrderRow("alice", EARLY_PAIR, BUY, 100.0, 1.0, 0.0, OPEN),
                 "s" := B.OrderRow("bob", EARLY_PAIR, SELL, 100.0, 1.0, 0.0, OPEN)], [], []),
    map[EARLY_PAIR := EmptyBook("BTC-USD")], [EARLY_TRADE])

  /** Cancelling it gives back the 100 its trade needs: tables and books come
      apart, and the settlement, which could have been made before, fails. */
  lemma WithdrawExample()
    ensures Linked(EARLY) && B.Cancel(EARLY.db, "alice", "b").Some? && B.SettleTrade(EARLY.db, EARLY_TRADE).Some?
    ensures var s := Withdrawn(EARLY, "alice", "b"); !Linked(s) && B.SettleTrade(s.db, EARLY_TRADE).None?
  {
    hide Linked, B.SettleTrade, B.Cancel, Owed;
    EarlyNames();
    EarlyLinked();
    EarlyFails();
    WithdrawExactly(EARLY, "alice", "b");
  }

  lemma EarlyNames()
    ensures "alice" != "bob" && "BTC" != "USD" && "b" != "s"
    ensures Owed(EARLY.unsettled, "b") == 1.0 && Owed(EARLY.unsettled, "s") == 1.0
  {
    assert "alice"[0] != "bob"[0] && "BTC"[0] != "USD"[0] && "b"[0] != "s"[0];
    assert EARLY.unsettled[..0] == [];
  }

  lemma EarlyLinked()
    ensures Linked(EARLY)
  {
    hide Owed, BooksShown, RestAccounted, RowsFit;
    EarlyNames();
    EarlyBooks();
    EarlyRows();
  }

  lemma EarlyBooks()
    ensures BooksShown(EARLY) && RestAccounted(EARLY.db, EARLY.unsettled, Live(EARLY.books))
  {
    hide Owed;
    EarlyNames();
    assert Live(EARLY.books) == {};
  }

  lemma EarlyRows()
    ensures RowsFit(EARLY.db)
  {
    EarlyNames();
  }

  lemma EarlyFails()
    ensures B.SettleTrade(EARLY.db, EARLY_TRADE).Some?
    ensures B.Cancel(EARLY.db, "alice", "b").Some?
    ensures B.SettleTrade(B.Cancel(EARLY.db, "alice", "b").value, EARLY_TRADE).None?
  {
    hide B.SettleTrade, B.Cancel;
    EarlySettles();
    EarlyCancels();
    EmptyLockFails(B.Cancel(EARLY.db, "alice", "b").value, EARLY_TRADE);
  }

  lemma EarlySettles()
    ensures B.SettleTrade(EARLY.db, EARLY_TRADE).Some?
  {
    EarlyNames();
    assert Value(100.0, 1.0) == 100.0;
    hide Value, B.Entries, B.FillRow;
    var a0 := EARLY.db.accounts;
    var a1 := B.Shift(a0, B.Key("alice", "USD"), 0.0, -100.0).value;
    var a2 := B.Shift(a1, B.Key("bob", "USD"), 100.0, 0.0).value;
    var a3 := B.Shift(a2, B.Key("bob", "BTC"), 0.0, -1.0).value;
    assert B.Shift(a3, B.Key("alice", "BTC"), 1.0, 0.0).Some?;
  }

  lemma EarlyCancels()
    ensures B.Cancel(EARLY.db, "alice", "b").Some?
    ensures var d := B.Cancel(EARLY.db, "alice", "b").value;
            B.Key("alice", "USD") in d.accounts && d.accounts[B.Key("alice", "USD")] == B.AccountRow(100.0, 0.0)
  {
    EarlyNames();
    assert Value(100.0, 1.0) == 100.0;
  }

  /** A buyer with nothing locked cannot pay. */
  lemma EmptyLockFails(db: B.Db, t: B.TradeRow)
    requires B.Key(t.buyerId, t.symbol.quote) in db.accounts && Value(t.price, t.quantity) > 0.0
    requires db.accounts[B.Key(t.buyerId, t.symbol.quote)].locked == 0.0
    ensures B.SettleTrade(db, t).None?
  {
    hide Value, B.Entries, B.FillRow;
  }

  lemma ClosedTooEarly(s: System, userId: string, id: string)
    requires Linked(s) && B.Cancel(s.db, userId, id).Some? && Owed(s.unsettled, id) != 0.0
    ensures !RestAccounted(Withdrawn(s, userId, id).db, s.unsettled, Live(Withdrawn(s, userId, id).books))
  {
    hide Shown, Good, AllSound, RowsFit, Owed, Cancel, B.Cancel, Live;
    var s' := Withdrawn(s, userId, id);
    WithdrawnTables(s.db, userId, id);
    var p := s.db.orders[id].symbol;
    if p in s.books {
      CancelLeaves(s.books[p], Client(id));
    }
    LiveIds(s'.books);
    forall q | q in s'.books ensures Client(id) !in Ids(s'.books[q].bids) + Ids(s'.books[q].asks) {
      if q != p {
        NotInOther(s, q, id);
      }
    }
    assert !Accounted(s'.db.orders[id], Owed(s.unsettled, id));
  }

  lemma NotInOther(s: System, q: B.Pair, id: string)
    requires BooksShown(s) && q in s.books && id in s.db.orders && q != s.db.orders[id].symbol
    ensures Client(id) !in Ids(s.books[q].bids) + Ids(s.books[q].asks)
  {
    forall o | o in s.books[q].bids || o in s.books[q].asks ensures o.id != Client(id) {
      assert Shown(s.db, s.unsettled, q, o);
    }
  }

  // ---------- runs ----------

  /** Tables and books are linked, balances allowed and backed, and accounts and
      journal in step. */
  ghost predicate Consistent(s: System, opening: map<B.Key, real>) {
    Linked(s) && L.Backed(s.db) && L.AllAllowed(s.db.accounts) && L.Balanced(s.db, opening)
  }

  function TransactionOf(s: System, request: Request): B.Transaction
    requires request.SettleAt? ==> request.k < |s.unsettled|
  {
    match request
    case Accept(id, row) => B.Place(id, row)
    case SettleAt(k) => B.Settle(s.unsettled[k])
    case Withdraw(userId, id) => B.CancelOrder(userId, id)
    case Fund(userId, currency, amount) => B.Deposit(userId, currency, amount)
  }

  lemma TakeCommits(s: System, request: Request)
    requires Linked(s) && (request.SettleAt? ==> request.k < |s.unsettled|)
    ensures Take(s, request).db == B.Commit(s.db, TransactionOf(s, request))
    ensures Allowed(s, request) ==> L.Admitted(s.db, TransactionOf(s, request)) || Take(s, request) == s
  {
    hide Linked, B.PlaceOrder, B.SettleTrade, B.Cancel, B.DepositFaucet, L.Executable, Add;
    if request.SettleAt? {
      UnsettledIsExecutable(s, request.k);
    }
  }

  /** No settlement of a matched trade ever fails. */
  lemma SettlementNeverFails(s: System, opening: map<B.Key, real>, k: nat)
    requires Consistent(s, opening) && k < |s.unsettled|
    ensures B.SettleTrade(s.db, s.unsettled[k]).Some?
  {
    UnsettledIsExecutable(s, k);
    hide Linked, L.Executable, L.Balanced, L.Backed;
    L.SettlementSucceeds(s.db, s.unsettled[k]);
  }

  /** Every allowed request keeps the whole system consistent. */
  lemma TakeKeeps(s: System, request: Request, opening: map<B.Key, real>)
    requires Consistent(s, opening) && Allowed(s, request)
    ensures Consistent(Take(s, request), opening)
  {
    hide Linked, L.Backed, L.Balanced, L.AllAllowed, Take, TransactionOf, L.Admitted, Allowed;
    if request.SettleAt? && request.k >= |s.unsettled| {
      NothingToSettle(s, request.k);
    } else {
      TakeCommits(s, request);
      if Take(s, request) != s {
        L.CommitKeepsBacked(s.db, TransactionOf(s, request));
        L.CommitKeepsBalanced(s.db, TransactionOf(s, request), opening);
        TakeLinks(s, request, opening);
      }
    }
  }

  lemma NothingToSettle(s: System, k: nat)
    requires Linked(s) && k >= |s.unsettled|
    ensures Take(s, SettleAt(k)) == s
  {
  }

  lemma TakeLinks(s: System, request: Request, opening: map<B.Key, real>)
    requires Consistent(s, opening) && Allowed(s, request)
    ensures Linked(Take(s, request))
  {
    hide Linked, L.Backed, L.Balanced, L.AllAllowed, B.PlaceOrder, B.SettleTrade, B.Cancel, Add, Fitting;
    match request {
      case Accept(id, row) =>
        if B.PlaceOrder(s.db, id, row).Some? {
          AcceptKeeps(s, id, row);
        }
      case SettleAt(k) =>
        if k < |s.unsettled| {
          SettlementNeverFails(s, opening, k);
          SettleKeeps(s, k);
        }
      case Withdraw(userId, id) =>
        if B.Cancel(s.db, userId, id).Some? {
          WithdrawKeeps(s, userId, id);
        }
      case Fund(userId, currency, amount) =>
        FundKeeps(s, userId, currency, amount);
    }
  }

  /** Of all requests, exactly the allowed ones keep tables and books linked. */
  lemma TakeLinksExactly(s: System, request: Request, opening: map<B.Key, real>)
    requires Consistent(s, opening)
    ensures Linked(Take(s, request)) <==> Allowed(s, request)
  {
    hide Linked, L.Backed, L.Balanced, L.AllAllowed, Take;
    if Allowed(s, request) {
      TakeLinks(s, request, opening);
    } else {
      match request {
        case Accept(id, row) => RefusedUnlinks(s, id, row);
        case Withdraw(userId, id) => WithdrawUnlinks(s, userId, id);
      }
    }
  }

  lemma WithdrawUnlinks(s: System, userId: string, id: string)
    requires Linked(s) && B.Cancel(s.db, userId, id).Some? && Owed(s.unsettled, id) != 0.0
    ensures !Linked(Take(s, Withdraw(userId, id)))
  {
    hide Linked, B.Cancel, Owed;
    WithdrawExactly(s, userId, id);
  }

  /** A row the engine has no order for, and that nothing is matched of. */
  lemma RefusedUnlinks(s: System, id: string, row: B.OrderRow)
    requires Linked(s) && B.PlaceOrder(s.db, id, row).Some? && (row.symbol !in s.books || !Fitting(s.db, row))
    ensures !Linked(Take(s, Accept(id, row)))
  {
    hide B.PlaceOrder, Add, Good, Shown, Sound, Live, Owed;
    var s' := Take(s, Accept(id, row));
    PlacedTables(s.db, id, row);
    if row.symbol !in s.books {
      NewName(s, id);
      OwedNothing(s.db.orders, s.unsettled, id);
      assert !Accounted(s'.db.orders[id], Owed(s'.unsettled, id));
    } else {
      assert !RowFits(s'.db, id);
    }
  }

  /** Cancelling an order the engine refused puts everything right again. */
  lemma RefusedMended(s: System, id: string, row: B.OrderRow)
    requires Linked(s) && L.AllAllowed(s.db.accounts) && B.PlaceOrder(s.db, id, row).Some?
    requires row.symbol !in s.books && Fitting(s.db, row)
    ensures var s' := Withdrawn(Take(s, Accept(id, row)), row.userId, id);
            && Linked(s') && s'.db.accounts == s.db.accounts
            && s'.books == s.books && s'.unsettled == s.unsettled
  {
    hide Linked, B.PlaceOrder, B.Cancel, L.AllAllowed;
    var (placed, s1) := (B.PlaceOrder(s.db, id, row).value, Take(s, Accept(id, row)));
    PlacedTables(s.db, id, row);
    PlacedUndone(s.db, id, row);
    MendedLinks(s, id, B.Cancel(placed, row.userId, id).value);
  }

  lemma PlacedUndone(db: B.Db, id: string, row: B.OrderRow)
    requires L.AllAllowed(db.accounts) && B.PlaceOrder(db, id, row).Some?
    ensures var d := B.PlaceOrder(db, id, row).value;
            && B.Cancel(d, row.userId, id).Some? && B.Cancel(d, row.userId, id).value.accounts == db.accounts
            && B.Cancel(d, row.userId, id).value.orders == d.orders[id := d.orders[id].(status := CANCELLED)]
  {
    hide Worth;
    var (d, key) := (B.PlaceOrder(db, id, row).value, B.Key(row.userId, B.CurrencyOf(row.symbol, row.side)));
    assert db.accounts[key].Allowed();
    assert d.accounts[key := db.accounts[key]] == db.accounts;
  }

  lemma MendedLinks(s: System, id: string, db: B.Db)
    requires Linked(s) && id !in s.db.orders && db.accounts.Keys == s.db.accounts.Keys
    requires db.orders.Keys == s.db.orders.Keys + {id} && forall i ::
             i in s.db.orders ==> db.orders[i] == s.db.orders[i]
    requires db.orders[id].status == CANCELLED && RowFits(db, id)
    ensures Linked(s.(db := db))
  {
    hide Shown, Good, Sound, Live, RowFits, Accounted;
    NewRowKept(s, id, db);
    OwedNothing(s.db.orders, s.unsettled, id);
    ClosedAccounted(db.orders[id]);
  }

  ghost predicate AllowedRun(s: System, requests: seq<Request>, opening: map<B.Key, real>)
    requires Consistent(s, opening)
    decreases |requests|
  {
    requests != [] ==>
      && Allowed(s, requests[0])
      && (TakeKeeps(s, requests[0], opening); AllowedRun(Take(s, requests[0]), requests[1..], opening))
  }

  ghost function TakeAll(s: System, requests: seq<Request>, opening: map<B.Key, real>): System
    requires Consistent(s, opening) && AllowedRun(s, requests, opening)
    decreases |requests|
  {
    if requests == [] then s
    else
      TakeKeeps(s, requests[0], opening);
      TakeAll(Take(s, requests[0]), requests[1..], opening)
  }

  /** Tables and books linked after every request of a run. */
  ghost predicate LinkedThroughout(s: System, requests: seq<Request>)
    requires Linked(s)
    decreases |requests|
  {
    requests != [] ==> Linked(Take(s, requests[0])) && LinkedThroughout(Take(s, requests[0]), requests[1..])
  }

  /** Of all runs, exactly those of allowed requests stay linked throughout. */
  lemma {:induction false} RunLinkedExactly(s: System, requests: seq<Request>, opening: map<B.Key, real>)
    requires Consistent(s, opening)
    ensures LinkedThroughout(s, requests) <==> AllowedRun(s, requests, opening)
    decreases |requests|
  {
    hide Linked, L.Backed, L.Balanced, L.AllAllowed, Take, Allowed;
    if requests != [] {
      TakeLinksExactly(s, requests[0], opening);
      if Allowed(s, requests[0]) {
        TakeKeeps(s, requests[0], opening);
        RunLinkedExactly(Take(s, requests[0]), requests[1..], opening);
      }
    }
  }

  /** Empty tables and books over any opening balances. */
  function Opening(accounts: map<B.Key, B.AccountRow>, pairs: set<B.Pair>): System {
    System(B.Db(accounts, [], map[], [], []), map p | p in pairs :: EmptyBook(p.base + "-" + p.quote), [])
  }

  /** From any opening balances without locks, every run of allowed placements, cancels,
      deposits and settlements in any order stays consistent: balances never
      negative, equal to the journal, and every lock backed by an open order or
      a price improvement. */
  lemma {:induction false} RunStaysConsistent(s: System, requests: seq<Request>, opening: map<B.Key, real>)
    requires Consistent(s, opening) && AllowedRun(s, requests, opening)
    ensures Consistent(TakeAll(s, requests, opening), opening)
    decreases |requests|
  {
    if requests != [] {
      TakeKeeps(s, requests[0], opening);
      RunStaysConsistent(Take(s, requests[0]), requests[1..], opening);
    }
  }

  lemma OpeningConsistent(accounts: map<B.Key, B.AccountRow>, pairs: set<B.Pair>)
    requires forall k :: k in accounts ==> accounts[k].available >= 0.0 && accounts[k].locked == 0.0
    ensures Consistent(Opening(accounts, pairs), map k | k in accounts :: accounts[k].available)
  {
  }
}
