/** The cancel route writes in several statements, and between reading the order
    row and closing it other transactions may commit. */
module CancelRoutes {
  import opened Amounts
  import opened Types
  import opened Backend
  import opened BackendTheorems

  /** The unlocking transaction: gives back what the row, as it was read, had left. */
  function Unlock(db: Db, read: OrderRow): Option<Db> {
    if LeftOf(read) > 0.0 then UnlockFunds(db, read.userId, read.symbol, read.side, read.price, LeftOf(read))
    else Some(db)
  }

  /** The last statement closes the row, whatever it has become. */
  function Close(db: Db, id: string): Db {
    if id in db.orders then db.(orders := db.orders[id := db.orders[id].(status := CANCELLED)]) else db
  }

  /** The route reads the row, then some transactions commit, it unlocks, others
      commit, and it closes the row. None if the unlocking fails. */
  function InSteps(db: Db, id: string, before: seq<Transaction>, between: seq<Transaction>): Option<Db>
    requires id in db.orders
  {
    var unlocked := Unlock(CommitAll(db, before), db.orders[id]);
    if unlocked.None? then None else Some(Close(CommitAll(unlocked.value, between), id))
  }

  /** With nothing in between, the statements are the one transaction. */
  lemma StepsAreCancel(db: Db, userId: string, id: string)
    requires id in db.orders && db.orders[id].userId == userId && db.orders[id].status !in {FILLED, CANCELLED}
    ensures InSteps(db, id, [], []) == Cancel(db, userId, id)
  {
    hide Worth, Shift;
  }

  /** A transaction that takes something of what the order has open. */
  predicate Touches(db: Db, tx: Transaction, id: string) {
    && Attempt(db, tx).Some?
    && match tx
       case Settle(t) => id in {t.buyOrderId, t.sellOrderId}
       case CancelOrder(_, other) => other == id
       case _ => false
  }

  predicate Untouched(db: Db, txs: seq<Transaction>, id: string)
    decreases |txs|
  {
    txs != [] ==> !Touches(db, txs[0], id) && Untouched(Commit(db, txs[0]), txs[1..], id)
  }

  function OpenLeft(o: OrderRow): real {
    if IsOpen(o) then LeftOf(o) else 0.0
  }

  /** The parts of an order row that no transaction rewrites. */
  predicate SameOrder(o: OrderRow, p: OrderRow) {
    o == p.(filledQuantity := o.filledQuantity, status := o.status)
  }

  lemma CommitLeaves(db: Db, tx: Transaction, id: string)
    requires RowsOk(db) && Admitted(db, tx) && id in db.orders
    ensures var d := Commit(db, tx);
            && id in d.orders && SameOrder(d.orders[id], db.orders[id])
            && 0.0 <= OpenLeft(d.orders[id]) <= OpenLeft(db.orders[id])
            && (OpenLeft(db.orders[id]) > 0.0 ==>
                  (OpenLeft(d.orders[id]) == OpenLeft(db.orders[id]) <==> !Touches(db, tx, id)))
  {
    hide Worth, Value, Shift, Movements, Entries;
  }

  /** What an order has open only shrinks, and stays exactly when nothing touches it. */
  lemma {:induction false} RunLeaves(db: Db, txs: seq<Transaction>, id: string)
    requires RowsOk(db) && AdmittedRun(db, txs) && id in db.orders
    ensures var d := CommitAll(db, txs);
            && id in d.orders && SameOrder(d.orders[id], db.orders[id])
            && 0.0 <= OpenLeft(d.orders[id]) <= OpenLeft(db.orders[id])
            && (OpenLeft(db.orders[id]) > 0.0 ==>
                  (OpenLeft(d.orders[id]) == OpenLeft(db.orders[id]) <==> Untouched(db, txs, id)))
    decreases |txs|
  {
    hide Commit, Touches, OpenLeft, RowsOk, Admitted;
    if txs == [] {
      LeftNonNegative(db, id);
    } else {
      CommitLeaves(db, txs[0], id);
      CommitKeepsSurplus(db, txs[0], Key("", ""));
      RunLeaves(Commit(db, txs[0]), txs[1..], id);
    }
  }

  lemma LeftNonNegative(db: Db, id: string)
    requires RowsOk(db) && id in db.orders
    ensures OpenLeft(db.orders[id]) >= 0.0
  {
  }

  lemma {:induction false} RunKeepsSurplus(db: Db, txs: seq<Transaction>, k: Key)
    requires RowsOk(db) && AdmittedRun(db, txs)
    ensures RowsOk(CommitAll(db, txs)) && SameSurplus(db, CommitAll(db, txs), k)
    decreases |txs|
  {
    hide Commit, Surplus, RowsOk, Admitted;
    if txs != [] {
      CommitKeepsSurplus(db, txs[0], k);
      RunKeepsSurplus(Commit(db, txs[0]), txs[1..], k);
    }
  }

  /** What unlocking a row takes out of one account's lock. */
  function Given(read: OrderRow, k: Key): real {
    if k == Key(read.userId, CurrencyOf(read.symbol, read.side)) then Worth(read.side, read.price, LeftOf(read))
    else 0.0
  }

  /** Unlocking takes the worth of what was read out of the surplus. */
  lemma UnlockSurplus(db: Db, read: OrderRow, k: Key)
    requires RowsOk(db) && RowOk(read) && Unlock(db, read).Some?
    ensures var d := Unlock(db, read).value;
            && RowsOk(d) && d.orders == db.orders && d.accounts.Keys == db.accounts.Keys
            && (k in db.accounts ==> Surplus(d, k) == Surplus(db, k) - Given(read, k))
  {
    hide Worth, Shift, Improvement, Committed;
    var amount := Worth(read.side, read.price, LeftOf(read));
    WorthOf(read.side, read.price, 0.0);
    if LeftOf(read) > 0.0 {
      ShiftLocked(db.accounts, Key(read.userId, CurrencyOf(read.symbol, read.side)), amount, -amount);
    }
  }

  /** Closing gives up the claim of what was open. */
  lemma CloseSurplus(db: Db, id: string, k: Key)
    requires RowsOk(db) && id in db.orders
    ensures var d := Close(db, id);
            && RowsOk(d) && d.accounts.Keys == db.accounts.Keys
            && (k in db.accounts ==> Surplus(d, k) == Surplus(db, k) + Claim(db.orders[id], k))
  {
    hide Worth, Improvement, Committed;
    CommittedWrite(db.orders, id, Close(db, id).orders[id], k);
    ImprovementAgrees(db.trades, db.orders, Close(db, id).orders, k);
  }

  /** Between equal worths there is no difference in quantity. */
  lemma WorthInjective(side: Side, price: real, a: real, b: real)
    requires price > 0.0
    ensures Worth(side, price, a) == Worth(side, price, b) <==> a == b
  {
    WorthLess(side, price, a, b);
    if a > b {
      ValuePositive(price, a - b);
    } else if a < b {
      WorthLess(side, price, b, a);
      ValuePositive(price, b - a);
    }
  }

  /** The statements leave every lock backed, as the one transaction does,
      exactly when no transaction from reading the row to closing it settled a
      trade of the order or cancelled it too. The row is closed in any case. */
  lemma CancelInStepsExactly(db: Db, id: string, before: seq<Transaction>, between: seq<Transaction>)
    requires Backed(db) && id in db.orders && IsOpen(db.orders[id]) && LeftOf(db.orders[id]) > 0.0
    requires var o := db.orders[id]; Key(o.userId, CurrencyOf(o.symbol, o.side)) in db.accounts
    requires AdmittedRun(db, before) && InSteps(db, id, before, between).Some?
    requires AdmittedRun(Unlock(CommitAll(db, before), db.orders[id]).value, between)
    ensures Backed(InSteps(db, id, before, between).value)
       <==> && Untouched(db, before, id)
            && Untouched(Unlock(CommitAll(db, before), db.orders[id]).value, between, id)
    ensures var (d, last) := (InSteps(db, id, before, between).value,
                              CommitAll(Unlock(CommitAll(db, before), db.orders[id]).value, between));
            id in last.orders && d == last.(orders := last.orders[id := last.orders[id].(status := CANCELLED)])
  {
    hide Backed, RowsOk, Surplus, Unlock, Close, Claim, Worth, Untouched, AdmittedRun;
    var read := db.orders[id];
    var (d1, key) := (CommitAll(db, before), Key(read.userId, CurrencyOf(read.symbol, read.side)));
    var d2 := Unlock(d1, read).value;
    var d3 := CommitAll(d2, between);
    var d := Close(d3, id);
    BackedIf(db);
    BackedIf(d);
    RowRead(db, id);
    RunLeaves(db, before, id);
    StepsSurplus(db, id, before, between, key);
    RunLeaves(d2, between, id);
    ClaimOpen(d3.orders[id], read);
    Closed(d3, id);
    WorthInjective(read.side, read.price, OpenLeft(d3.orders[id]), LeftOf(read));
    forall k | k in db.accounts && k != key ensures Surplus(d, k) == 0.0 {
      StepsSurplus(db, id, before, between, k);
      NoClaim(d3.orders[id], k);
    }
  }

  lemma Closed(db: Db, id: string)
    requires id in db.orders
    ensures Close(db, id) == db.(orders := db.orders[id := db.orders[id].(status := CANCELLED)])
  {
  }

  lemma RowRead(db: Db, id: string)
    requires Backed(db) && id in db.orders
    ensures RowOk(db.orders[id])
  {
  }

  lemma ClaimOpen(o: OrderRow, read: OrderRow)
    requires SameOrder(o, read) && read.price > 0.0
    ensures Claim(o, Key(read.userId, CurrencyOf(read.symbol, read.side)))
         == Worth(read.side, read.price, OpenLeft(o))
  {
    WorthOf(read.side, read.price, 0.0);
  }

  lemma StepsSurplus(db: Db, id: string, before: seq<Transaction>, between: seq<Transaction>, k: Key)
    requires Backed(db) && id in db.orders
    requires AdmittedRun(db, before) && InSteps(db, id, before, between).Some?
    requires AdmittedRun(Unlock(CommitAll(db, before), db.orders[id]).value, between)
    ensures var (d1, read) := (CommitAll(db, before), db.orders[id]);
            var d2 := Unlock(d1, read).value;
            var d3 := CommitAll(d2, between);
            var d := Close(d3, id);
            && RowsOk(d1) && RowsOk(d2) && d2.orders == d1.orders && id in d3.orders && RowsOk(d)
            && d.accounts.Keys == db.accounts.Keys
            && (k in db.accounts ==> Surplus(d, k) == Claim(d3.orders[id], k) - Given(read, k))
  {
    hide Backed, RowsOk, Surplus, Unlock, Close, Claim, Worth, AdmittedRun, SameOrder, OpenLeft;
    var (d1, read) := (CommitAll(db, before), db.orders[id]);
    var d2 := Unlock(d1, read).value;
    BackedIf(db);
    RowRead(db, id);
    RunKeepsSurplus(db, before, k);
    RunLeaves(db, before, id);
    UnlockSurplus(d1, read, k);
    RunKeepsSurplus(d2, between, k);
    RunLeaves(d2, between, id);
    CloseSurplus(CommitAll(d2, between), id, k);
  }

  // ---------- a cancel overtaken by a settlement ----------

  const BOB_SELL := OrderRow("bob", PAIR, SELL, 100.0, 1.0, 0.0, OPEN)
  const ALICE_BUY := OrderRow("alice", PAIR, BUY, 100.0, 2.0, 0.0, OPEN)
  const ALICE_OTHER := OrderRow("alice", PAIR, BUY, 100.0, 1.0, 0.0, OPEN)

  const OVERTAKEN_START := Db(
    map[BUYER := AccountRow(300.0, 0.0), Key("alice", "BTC") := AccountRow(0.0, 0.0),
        Key("bob", "USD") := AccountRow(0.0, 0.0), Key("bob", "BTC") := AccountRow(1.0, 0.0)],
    [], map[], [], [])

  const OVERTAKEN := Db(
    map[BUYER := AccountRow(0.0, 300.0), Key("alice", "BTC") := AccountRow(0.0, 0.0),
        Key("bob", "USD") := AccountRow(0.0, 0.0), Key("bob", "BTC") := AccountRow(0.0, 1.0)],
    [], map["s" := BOB_SELL, "b" := ALICE_BUY, "c" := ALICE_OTHER], [], [])

  const OVERTAKING := Settle(TradeRow(PAIR, 100.0, 1.0, "b", "s", "alice", "bob"))

  lemma OvertakenNames()
    ensures "alice" != "bob" && "BTC" != "USD" && "b" != "s" && "b" != "c" && "s" != "c"
    ensures Value(100.0, 1.0) == 100.0 && Value(100.0, 2.0) == 200.0
  {
    assert "alice"[0] != "bob"[0] && "BTC"[0] != "USD"[0];
    assert "b"[0] != "s"[0] && "b"[0] != "c"[0] && "s"[0] != "c"[0];
  }

  /** Three orders are placed. */
  lemma OvertakenPlaced()
    ensures CommitAll(OVERTAKEN_START, [Place("s", BOB_SELL), Place("b", ALICE_BUY), Place("c", ALICE_OTHER)])
         == OVERTAKEN
  {
    OvertakenNames();
    var run := [Place("s", BOB_SELL), Place("b", ALICE_BUY), Place("c", ALICE_OTHER)];
    var d1 := Commit(OVERTAKEN_START, run[0]);
    var d2 := Commit(d1, run[1]);
    assert d1.accounts[Key("bob", "BTC")] == AccountRow(0.0, 1.0);
    assert d2.accounts[BUYER] == AccountRow(100.0, 200.0);
    assert Commit(d2, run[2]) == OVERTAKEN;
    assert run[1..][0] == run[1] && run[1..][1..][0] == run[2] && run[1..][1..][1..] == [];
    assert CommitAll(d1, run[1..]) == CommitAll(d2, run[1..][1..]);
    assert CommitAll(d2, run[1..][1..]) == CommitAll(OVERTAKEN, run[1..][1..][1..]);
  }

  /** One of two coins is settled after the cancel has read its row: the cancel
      gives back 200 where 100 are left, and takes the lock of another order. */
  lemma OvertakenExample()
    ensures InSteps(OVERTAKEN, "b", [OVERTAKING], []).Some?
    ensures var d := InSteps(OVERTAKEN, "b", [OVERTAKING], []).value;
            && BUYER in d.accounts && d.accounts[BUYER] == AccountRow(200.0, 0.0)
            && "c" in d.orders && IsOpen(d.orders["c"]) && Claim(d.orders["c"], BUYER) == 100.0
  {
    OvertakenNames();
    var d := Commit(OVERTAKEN, OVERTAKING);
    assert d.accounts[BUYER] == AccountRow(0.0, 200.0);
    assert CommitAll(OVERTAKEN, [OVERTAKING]) == d by {
      assert [OVERTAKING][1..] == [];
    }
  }
}
