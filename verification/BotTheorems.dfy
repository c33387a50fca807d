/** The bots' iterations from outside: which orders reach the engine, and what
    every trade of a run leaves in journal and balances. */
module BotTheorems {
  import opened Amounts
  import opened Types
  import opened Matching
  import opened Engine
  import opened TradeTheorems
  import opened StressTest
  import opened StressTheorems

  // ---------- one iteration ----------

  /** What a draw asks for: a BUY at its limit, at market with a tenth more than
      50000 set aside, a SELL of its quantity. */
  function Needed(d: Draw): real {
    if !d.isBuyer then d.quantity
    else if d.isMarket then 55000.0 * d.quantity
    else d.limitPrice * d.quantity
  }

  function Free(p: Purse, isBuyer: bool): real {
    if isBuyer then p.usd.available else p.btc.available
  }

  /** An iteration submits exactly the drawn order when the bot can afford it,
      then possibly cancels, and otherwise does nothing at all. */
  lemma IteratesExactly(s: Sim, d: Draw)
    requires GoodEngine(s.engine) && Submittable(s.engine, OrderOf(d)) && d.botId in s.accounts
    ensures OrderOf(d) == OrderData(Client(d.orderId), d.botId, "BTC-USD", if d.isBuyer then BUY else SELL,
                                    if d.isMarket then MARKET else LIMIT, if d.isMarket then 0.0 else d.limitPrice,
                                    d.quantity, 0.0, PENDING, None, None, None, None)
    ensures Free(s.accounts[d.botId], d.isBuyer) < Needed(d) ==> Iterate(s, d) == s
    ensures Free(s.accounts[d.botId], d.isBuyer) >= Needed(d) ==>
              && (d.target == None ==> Iterate(s, d).engine == Submit(s.engine, OrderOf(d)).0)
              && Iterate(s, d) == Churn(Trade(s, d), d.botId, d.target)
              && Trade(s, d).engine == Submit(s.engine, OrderOf(d)).0
  {
    hide GoodEngine, Submittable, Submit;
    assert Worth(d.Side(), LockedPrice(d), d.quantity) == Needed(d);
    hide Worth;
  }

  /** A cancel of an own active order takes it out of the engine and the
      commitments, and gives back what it had left; any other target is left alone. */
  lemma ChurnsExactly(bots: Bots, s: Sim, botId: string, target: Option<OrderId>)
    requires Inv(bots, s) && botId in s.accounts
    ensures var own := target.Some? && target.value in s.active && s.active[target.value].userId == botId;
            var t := Churn(s, botId, target);
            && (!own ==> t == s)
            && (own ==>
                  var (c, p, p') := (s.active[target.value], s.accounts[botId], t.accounts[botId]);
                  && t.engine == CancelIn(s.engine, "BTC-USD", target.value).0
                  && t.active == s.active - {target.value} && t.ledger == s.ledger
                  && t.accounts == s.accounts[botId := p']
                  && (c.side == BUY ==>
                        && p'.btc == p.btc && p'.usd.available == p.usd.available + c.lockedPrice * c.remainingQty
                        && p'.usd.locked == p.usd.locked - c.lockedPrice * c.remainingQty)
                  && (c.side == SELL ==>
                        && p'.usd == p.usd && p'.btc.available == p.btc.available + c.remainingQty
                        && p'.btc.locked == p.btc.locked - c.remainingQty))
  {
    hide Inv, CancelIn, Unlock, Worth;
    if target.Some? && target.value in s.active && s.active[target.value].userId == botId {
      var c := s.active[target.value];
      FoundByChurn(bots, s, target.value);
      ChurnIs(s, botId, target.value);
      Unlocked(s.accounts, botId, c);
    }
  }

  lemma Unlocked(accounts: map<string, Purse>, id: string, c: Commitment)
    requires id in accounts
    ensures var a := Unlock(accounts, id, c.side, Worth(c.side, c.lockedPrice, c.remainingQty));
            && id in a && a == accounts[id := a[id]]
            && (c.side == BUY ==>
                  && a[id].btc == accounts[id].btc
                  && a[id].usd.available == accounts[id].usd.available + c.lockedPrice * c.remainingQty
                  && a[id].usd.locked == accounts[id].usd.locked - c.lockedPrice * c.remainingQty)
            && (c.side == SELL ==>
                  && a[id].usd == accounts[id].usd
                  && a[id].btc.available == accounts[id].btc.available + c.remainingQty
                  && a[id].btc.locked == accounts[id].btc.locked - c.remainingQty)
  {
  }

  lemma FoundByChurn(bots: Bots, s: Sim, id: OrderId)
    requires Inv(bots, s) && id in s.active
    ensures var r := CancelIn(s.engine, SYMBOL, id).1; r.Cancelled? && r.order.Some?
  {
    ActiveRests(bots, s, id);
    var side := s.active[id].side;
    CancelPlain(s.engine, id, side);
  }

  // ---------- the trades of a run ----------

  /** The trades that one iteration makes. */
  ghost function FillsOf(s: Sim, d: Draw): seq<TradeExecution>
    requires GoodEngine(s.engine) && Submittable(s.engine, OrderOf(d)) && d.botId in s.accounts
  {
    if Free(s.accounts[d.botId], d.isBuyer) < Needed(d) then []
    else TradesIn(Submitting(OrderOf(d)), Submitted(Submit(s.engine, OrderOf(d)).1), "BTC-USD")
  }

  /** All trades of a schedule, in their order. */
  ghost function FillsOver(bots: Bots, s: Sim, draws: seq<Draw>, used: set<string>, usd: real, btc: real):
    seq<TradeExecution>
    requires Inv(bots, s) && Conserved(bots, s.accounts, s.ledger, usd, btc) && UsedOnly(s, used)
    requires Schedule(bots, draws, used)
    decreases |draws|
  {
    if draws == [] then []
    else
      IterateKeeps(bots, s, draws[0], used, usd, btc);
      EngineOf(bots, s);
      FillsOf(s, draws[0])
        + FillsOver(bots, Iterate(s, draws[0]), draws[1..], used + {draws[0].orderId}, usd, btc)
  }

  lemma EngineOf(bots: Bots, s: Sim)
    requires Inv(bots, s)
    ensures GoodEngine(s.engine) && SYMBOL in s.engine.books
  {
  }

  // ---------- the journal ----------

  function CostOf(t: TradeExecution): real {
    t.price * t.quantity
  }

  /** The rows of a trade: four under its number. */
  function Rows(t: TradeExecution): (l: seq<LedgerEntry>)
    ensures |l| == 4
  {
    [ LedgerEntry(t.number, t.buyerId, USD, CostOf(t), DEBIT),
      LedgerEntry(t.number, t.sellerId, USD, CostOf(t), CREDIT),
      LedgerEntry(t.number, t.sellerId, BTC, t.quantity, DEBIT),
      LedgerEntry(t.number, t.buyerId, BTC, t.quantity, CREDIT) ]
  }

  function Journal(trades: seq<TradeExecution>): seq<LedgerEntry> {
    if trades == [] then [] else Journal(trades[..|trades| - 1]) + Rows(trades[|trades| - 1])
  }

  lemma {:induction false} JournalConcat(a: seq<TradeExecution>, c: seq<TradeExecution>)
    ensures Journal(a + c) == Journal(a) + Journal(c)
  {
    hide Rows;
    if c == [] {
      assert a + c == a && Journal(a) + [] == Journal(a);
    } else {
      var (rest, t) := (c[..|c| - 1], c[|c| - 1]);
      assert (a + c)[..|a + c| - 1] == a + rest && (a + c)[|a + c| - 1] == t;
      JournalConcat(a, rest);
      assert Journal(a) + Journal(rest) + Rows(t) == Journal(a) + (Journal(rest) + Rows(t));
    }
  }

  lemma {:induction false} SettlingJournals(f: Funds, botId: string, fills: seq<TradeExecution>)
    ensures SettleAll(f, botId, fills).ledger == f.ledger + Journal(fills)
  {
    if fills == [] {
      assert f.ledger + [] == f.ledger;
    } else {
      hide Settle, Rows;
      var (rest, t) := (fills[..|fills| - 1], fills[|fills| - 1]);
      SettlingJournals(f, botId, rest);
      OneJournalled(SettleAll(f, botId, rest), botId, t);
      assert f.ledger + Journal(rest) + Rows(t) == f.ledger + (Journal(rest) + Rows(t));
    }
  }

  lemma OneJournalled(f: Funds, botId: string, t: TradeExecution)
    ensures Settle(f, botId, t).ledger == f.ledger + Rows(t)
  {
    var (e, r) := (Entries(t, t.number), Rows(t));
    assert Value(t.price, t.quantity) == t.price * t.quantity;
    assert |e| == 4 && e[0] == r[0] && e[1] == r[1] && e[2] == r[2] && e[3] == r[3];
    assert e == r;
  }

  lemma IterateJournals(s: Sim, d: Draw)
    requires GoodEngine(s.engine) && Submittable(s.engine, OrderOf(d)) && d.botId in s.accounts
    ensures Iterate(s, d).ledger == s.ledger + Journal(FillsOf(s, d))
  {
    hide GoodEngine, Submittable, Submit, SettleAll, Journal, CancelIn;
    assert Worth(d.Side(), LockedPrice(d), d.quantity) == Needed(d);
    hide Worth;
    var fills := FillsOf(s, d);
    NothingJournalled();
    assert s.ledger + [] == s.ledger;
    if Free(s.accounts[d.botId], d.isBuyer) >= Needed(d) {
      SettlingJournals(Entering(s, d), d.botId, fills);
    }
  }

  lemma NothingJournalled()
    ensures Journal([]) == []
  {
  }

  /** Every trade of a run is journalled, once, and nothing else is. */
  lemma {:induction false} RunJournals(bots: Bots, s: Sim, draws: seq<Draw>, used: set<string>, usd: real, btc: real)
    requires Inv(bots, s) && Conserved(bots, s.accounts, s.ledger, usd, btc) && UsedOnly(s, used)
    requires Schedule(bots, draws, used)
    ensures RunDraws(bots, s, draws, used, usd, btc).ledger
         == s.ledger + Journal(FillsOver(bots, s, draws, used, usd, btc))
    decreases |draws|
  {
    hide Inv, Conserved, Iterate, Journal, FillsOf;
    if draws == [] {
      NothingJournalled();
      assert s.ledger + [] == s.ledger;
    } else {
      IterateKeeps(bots, s, draws[0], used, usd, btc);
      EngineOf(bots, s);
      IterateJournals(s, draws[0]);
      var t := Iterate(s, draws[0]);
      RunJournals(bots, t, draws[1..], used + {draws[0].orderId}, usd, btc);
      var rest := FillsOver(bots, t, draws[1..], used + {draws[0].orderId}, usd, btc);
      JournalConcat(FillsOf(s, draws[0]), rest);
      assert s.ledger + Journal(FillsOf(s, draws[0])) + Journal(rest)
          == s.ledger + (Journal(FillsOf(s, draws[0])) + Journal(rest));
    }
  }

  // ---------- the numbers ----------

  lemma IterateNumbers(bots: Bots, s: Sim, d: Draw)
    requires Inv(bots, s) && Drawn(bots, s, d) && GoodEngine(s.engine)
    requires Submittable(s.engine, OrderOf(d)) && d.botId in s.accounts && SYMBOL in s.engine.books
    ensures SYMBOL in Iterate(s, d).engine.books
    ensures var n := s.engine.books[SYMBOL].counter;
            && Iterate(s, d).engine.books[SYMBOL].counter == n + |FillsOf(s, d)|
            && Numbered(FillsOf(s, d), SYMBOL, n)
  {
    hide Inv, GoodEngine, Submittable, Submit, Numbered, Cancel, CancelIn;
    assert Worth(d.Side(), LockedPrice(d), d.quantity) == Needed(d);
    hide Worth;
    NoneNumbered(SYMBOL, s.engine.books[SYMBOL].counter);
    SubmitNumbers(s.engine, OrderOf(d));
    var t := Trade(s, d);
    if d.target.Some? && SYMBOL in t.engine.books {
      CancelKeepsCounter(t.engine, SYMBOL, d.target.value, SYMBOL);
    }
  }

  lemma {:induction false} RunOfBotsNumbered(bots: Bots, s: Sim, draws: seq<Draw>, used: set<string>, usd: real,
                                             btc: real)
    requires Inv(bots, s) && Conserved(bots, s.accounts, s.ledger, usd, btc) && UsedOnly(s, used)
    requires Schedule(bots, draws, used) && SYMBOL in s.engine.books
    ensures Numbered(FillsOver(bots, s, draws, used, usd, btc), SYMBOL, s.engine.books[SYMBOL].counter)
    decreases |draws|
  {
    hide Inv, Conserved, Iterate, FillsOf, Numbered;
    var n := s.engine.books[SYMBOL].counter;
    if draws == [] {
      NoneNumbered(SYMBOL, n);
    } else {
      IterateKeeps(bots, s, draws[0], used, usd, btc);
      EngineOf(bots, s);
      IterateNumbers(bots, s, draws[0]);
      var t := Iterate(s, draws[0]);
      RunOfBotsNumbered(bots, t, draws[1..], used + {draws[0].orderId}, usd, btc);
      NumberedConcat(FillsOf(s, draws[0]), FillsOver(bots, t, draws[1..], used + {draws[0].orderId}, usd, btc),
                     SYMBOL, n);
    }
  }

  // ---------- what every bot holds ----------

  /** Price times quantity, and quantity, over the trades of a buyer. */
  function Paid(trades: seq<TradeExecution>, user: string): real {
    if trades == [] then 0.0
    else
      var t := trades[|trades| - 1];
      Paid(trades[..|trades| - 1], user) + if t.buyerId == user then CostOf(t) else 0.0
  }

  function Bought(trades: seq<TradeExecution>, user: string): real {
    if trades == [] then 0.0
    else
      var t := trades[|trades| - 1];
      Bought(trades[..|trades| - 1], user) + if t.buyerId == user then t.quantity else 0.0
  }

  /** The same over the trades of a seller. */
  function Earned(trades: seq<TradeExecution>, user: string): real {
    if trades == [] then 0.0
    else
      var t := trades[|trades| - 1];
      Earned(trades[..|trades| - 1], user) + if t.sellerId == user then CostOf(t) else 0.0
  }

  function Sold(trades: seq<TradeExecution>, user: string): real {
    if trades == [] then 0.0
    else
      var t := trades[|trades| - 1];
      Sold(trades[..|trades| - 1], user) + if t.sellerId == user then t.quantity else 0.0
  }

  lemma NetAppend(ledger: seq<LedgerEntry>, e: LedgerEntry, user: string, currency: Currency)
    ensures NetOf(ledger + [e], user, currency)
         == NetOf(ledger, user, currency) + if e.userId == user then Signed(e, currency) else 0.0
  {
    assert (ledger + [e])[..|ledger|] == ledger;
  }

  lemma {:induction false} JournalNets(trades: seq<TradeExecution>, user: string)
    ensures NetOf(Journal(trades), user, USD) == Earned(trades, user) - Paid(trades, user)
    ensures NetOf(Journal(trades), user, BTC) == Bought(trades, user) - Sold(trades, user)
  {
    hide NetOf, Rows, CostOf, Journal, Paid, Earned, Bought, Sold;
    NothingNets(user);
    if trades != [] {
      LastTrade(trades, user);
      JournalNets(trades[..|trades| - 1], user);
      RowsNet(Journal(trades[..|trades| - 1]), trades[|trades| - 1], user);
    }
  }

  /** The sums of some trades are those of all but the last, and the last one's. */
  lemma LastTrade(trades: seq<TradeExecution>, user: string)
    requires trades != []
    ensures var (rest, t) := (trades[..|trades| - 1], trades[|trades| - 1]);
            && Journal(trades) == Journal(rest) + Rows(t)
            && Paid(trades, user) == Paid(rest, user) + (if t.buyerId == user then CostOf(t) else 0.0)
            && Earned(trades, user) == Earned(rest, user) + (if t.sellerId == user then CostOf(t) else 0.0)
            && Bought(trades, user) == Bought(rest, user) + (if t.buyerId == user then t.quantity else 0.0)
            && Sold(trades, user) == Sold(rest, user) + (if t.sellerId == user then t.quantity else 0.0)
  {
    hide CostOf, Rows;
  }

  lemma RowsNet(l: seq<LedgerEntry>, t: TradeExecution, user: string)
    ensures NetOf(l + Rows(t), user, USD)
         == NetOf(l, user, USD) + (if t.sellerId == user then CostOf(t) else 0.0)
              - (if t.buyerId == user then CostOf(t) else 0.0)
    ensures NetOf(l + Rows(t), user, BTC)
         == NetOf(l, user, BTC) + (if t.buyerId == user then t.quantity else 0.0)
              - (if t.sellerId == user then t.quantity else 0.0)
  {
    hide NetOf, CostOf;
    var e := Rows(t);
    assert l + e == l + [e[0]] + [e[1]] + [e[2]] + [e[3]];
    forall currency: Currency
      ensures NetOf(l + e, user, currency)
           == NetOf(l, user, currency) + (if e[0].userId == user then Signed(e[0], currency) else 0.0)
                + (if e[1].userId == user then Signed(e[1], currency) else 0.0)
                + (if e[2].userId == user then Signed(e[2], currency) else 0.0)
                + (if e[3].userId == user then Signed(e[3], currency) else 0.0)
    {
      NetAppend(l, e[0], user, currency);
      NetAppend(l + [e[0]], e[1], user, currency);
      NetAppend(l + [e[0]] + [e[1]], e[2], user, currency);
      NetAppend(l + [e[0]] + [e[1]] + [e[2]], e[3], user, currency);
    }
  }

  lemma NothingNets(user: string)
    ensures NetOf([], user, USD) == 0.0 && NetOf([], user, BTC) == 0.0 && Journal([]) == []
    ensures Paid([], user) == 0.0 && Earned([], user) == 0.0 && Bought([], user) == 0.0 && Sold([], user) == 0.0
  {
  }

  /** After every interleaving each bot holds its million dollars and hundred
      coins, less what it paid and sold, plus what it earned and bought, in the
      trades that the engine made. */
  lemma EveryTradeIsPaid(bots: Bots, draws: seq<Draw>, user: string)
    requires bots.Ok() && Schedule(bots, draws, {}) && user in bots.All()
    ensures Inv(bots, Opening(bots)) && UsedOnly(Opening(bots), {})
    ensures var (usd, btc) := (StartingAssets(bots, BUY), StartingAssets(bots, SELL));
            && Conserved(bots, Opening(bots).accounts, Opening(bots).ledger, usd, btc)
            && var (s, trades) := (Simulated(bots, draws), FillsOver(bots, Opening(bots), draws, {}, usd, btc));
            && user in s.accounts
            && s.accounts[user].usd.available + s.accounts[user].usd.locked
               == 1000000.0 - Paid(trades, user) + Earned(trades, user)
            && s.accounts[user].btc.available + s.accounts[user].btc.locked
               == 100.0 + Bought(trades, user) - Sold(trades, user)
  {
    hide Inv, FillsOver, RunDraws, TotalOf, NetOf, Committed;
    var (usd, btc) := (StartingAssets(bots, BUY), StartingAssets(bots, SELL));
    OpeningHolds(bots);
    EveryInterleaving(bots, draws);
    RunJournals(bots, Opening(bots), draws, {}, usd, btc);
    var trades := FillsOver(bots, Opening(bots), draws, {}, usd, btc);
    assert [] + Journal(trades) == Journal(trades);
    JournalNets(trades, user);
    var s := Simulated(bots, draws);
    assert s.accounts[user].Of(BUY).Total() == InitialOf(BUY) + NetOf(s.ledger, user, CurrencyOf(BUY));
    assert s.accounts[user].Of(SELL).Total() == InitialOf(SELL) + NetOf(s.ledger, user, CurrencyOf(SELL));
  }

  /** Transaction by transaction: the `n`-th trade of a run is the `n`-th group of
      four rows, alone under its number, and in it debits equal credits. */
  lemma JournalByTrade(bots: Bots, draws: seq<Draw>, n: nat)
    requires bots.Ok() && Schedule(bots, draws, {})
    ensures Inv(bots, Opening(bots)) && UsedOnly(Opening(bots), {})
    ensures var (usd, btc) := (StartingAssets(bots, BUY), StartingAssets(bots, SELL));
            && Conserved(bots, Opening(bots).accounts, Opening(bots).ledger, usd, btc)
            && var (l, trades) := (Simulated(bots, draws).ledger, FillsOver(bots, Opening(bots), draws, {}, usd, btc));
            && |l| == 4 * |trades|
            && (n < |trades| ==>
                  var t := trades[n];
                  && l[4 * n] == LedgerEntry(n + 1, t.buyerId, USD, t.price * t.quantity, DEBIT)
                  && l[4 * n + 1] == LedgerEntry(n + 1, t.sellerId, USD, t.price * t.quantity, CREDIT)
                  && l[4 * n + 2] == LedgerEntry(n + 1, t.sellerId, BTC, t.quantity, DEBIT)
                  && l[4 * n + 3] == LedgerEntry(n + 1, t.buyerId, BTC, t.quantity, CREDIT))
  {
    hide Inv, Conserved, FillsOver, RunDraws, Journal, TotalOf;
    var (usd, btc) := (StartingAssets(bots, BUY), StartingAssets(bots, SELL));
    OpeningHolds(bots);
    RunJournals(bots, Opening(bots), draws, {}, usd, btc);
    var trades := FillsOver(bots, Opening(bots), draws, {}, usd, btc);
    assert [] + Journal(trades) == Journal(trades);
    RunOfBotsNumbered(bots, Opening(bots), draws, {}, usd, btc);
    JournalAt(trades, n);
  }

  lemma {:induction false} JournalAt(trades: seq<TradeExecution>, n: nat)
    ensures |Journal(trades)| == 4 * |trades|
    ensures n < |trades| ==>
              var (l, t) := (Journal(trades), trades[n]);
              && l[4 * n] == LedgerEntry(t.number, t.buyerId, USD, CostOf(t), DEBIT)
              && l[4 * n + 1] == LedgerEntry(t.number, t.sellerId, USD, CostOf(t), CREDIT)
              && l[4 * n + 2] == LedgerEntry(t.number, t.sellerId, BTC, t.quantity, DEBIT)
              && l[4 * n + 3] == LedgerEntry(t.number, t.buyerId, BTC, t.quantity, CREDIT)
  {
    if trades != [] {
      JournalAt(trades[..|trades| - 1], n);
    }
  }
}
