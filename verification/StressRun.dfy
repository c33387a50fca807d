/** The stress test's bookkeeping, updated in place beside the engine. */
module StressRuns {
  import opened Amounts
  import opened Types
  import opened Matching
  import opened Engine
  import opened BookObjects
  import opened MatchingEngines
  import opened StressTest
  import opened StressTheorems

  class VirtualAccount {
    var available: real
    var locked: real

    constructor (available: real)
      ensures Value() == Account(available, 0.0)
    {
      this.available, this.locked := available, 0.0;
    }

    function Value(): Account
      reads this
    {
      Account(available, locked)
    }

    method Add(available: real, locked: real)
      modifies this
      ensures Value() == old(Account(this.available + available, this.locked + locked))
    {
      this.available := this.available + available;
      this.locked := this.locked + locked;
    }
  }

  class ActiveOrder {
    const userId: string
    const side: Side
    const lockedPrice: real
    var remainingQty: real

    constructor (userId: string, side: Side, lockedPrice: real, remainingQty: real)
      ensures Value() == Commitment(userId, side, lockedPrice, remainingQty)
    {
      this.userId, this.side, this.lockedPrice, this.remainingQty := userId, side, lockedPrice, remainingQty;
    }

    function Value(): Commitment
      reads this
    {
      Commitment(userId, side, lockedPrice, remainingQty)
    }
  }

  datatype Wallet = Wallet(usd: VirtualAccount, btc: VirtualAccount) {
    function Of(side: Side): VirtualAccount { if side == BUY then usd else btc }

    function Value(): Purse
      reads usd, btc
    {
      Purse(usd.Value(), btc.Value())
    }
  }

  type Wallets = map<string, Wallet>
  type Orders = map<OrderId, ActiveOrder>

  /** No two wallets share an account. */
  ghost predicate Separate(wallets: Wallets, owned: set<VirtualAccount>) {
    && (forall u :: u in wallets ==>
        wallets[u].usd != wallets[u].btc && wallets[u].usd in owned && wallets[u].btc in owned)
    && forall u, v :: u in wallets && v in wallets && u != v ==>
         && wallets[u].usd !in [wallets[v].usd, wallets[v].btc] && wallets[u].btc !in [wallets[v].usd, wallets[v].btc]
  }

  ghost predicate Hold(wallets: Wallets, owned: set<VirtualAccount>, accounts: map<string, Purse>)
    reads owned
  {
    Separate(wallets, owned) && wallets.Keys == accounts.Keys && forall u ::
        u in wallets ==> wallets[u].Value() == accounts[u]
  }

  /** No commitment is listed twice. */
  ghost predicate Tracks(orders: Orders, owned: set<ActiveOrder>, active: map<OrderId, Commitment>)
    reads owned
  {
    && orders.Keys == active.Keys
    && (forall id :: id in orders ==> orders[id] in owned && orders[id].Value() == active[id])
    && forall a, b :: a in orders && b in orders && a != b ==> orders[a] != orders[b]
  }

  /** One account is in one wallet, once. */
  lemma Apart(wallets: Wallets, owned: set<VirtualAccount>, id: string, side: Side)
    requires Separate(wallets, owned) && id in wallets
    ensures wallets[id].Of(side) in owned && wallets[id].Of(side) != wallets[id].Of(side.Opposite())
    ensures forall u :: u in wallets && u != id ==>
            wallets[u].usd != wallets[id].Of(side) && wallets[u].btc != wallets[id].Of(side)
  {
  }

  class StressRun {
    const engine: MatchingEngine
    const botAccounts: Wallets
    var activeOrders: Orders
    var ledgerEntries: seq<LedgerEntry>

    ghost var accounts: map<string, Purse>
    ghost var active: map<OrderId, Commitment>
    ghost const purses: set<VirtualAccount>
    ghost var tracked: set<ActiveOrder>

    ghost predicate Held()
      reads this, purses, tracked
    {
      Hold(botAccounts, purses, accounts) && Tracks(activeOrders, tracked, active)
    }

    ghost function FundsWith(incoming: ActiveOrder): Funds
      reads this, incoming
    {
      Funds(accounts, active, ledgerEntries, incoming.Value())
    }

    ghost function State(): Sim
      reads this, engine
    {
      Sim(engine.State(), accounts, active, ledgerEntries)
    }

    /** The engine and the bookkeeping own their objects apart from each other. */
    ghost predicate Valid()
      reads this, purses, tracked, engine, engine.Repr()
    {
      && Held() && engine.Valid() && this !in engine.Repr()
      && (forall a :: a in purses ==> a !in engine.Repr()) && (forall c :: c in tracked ==> c !in engine.Repr())
    }

    constructor (bots: Bots)
      requires bots.Ok()
      ensures Valid() && fresh(engine.Repr()) && fresh(purses) && fresh(tracked) && State() == Opening(bots)
    {
      hide MatchingEngine.Valid, Hold;
      engine := new MatchingEngine({SYMBOL});
      var wallets;
      ghost var owned;
      wallets, owned := OpenWallets(bots);
      botAccounts, purses := wallets, owned;
      activeOrders, ledgerEntries, active, tracked := map[], [], map[], {};
      accounts := Opening(bots).accounts;
    }

    static method OpenWallets(bots: Bots) returns (wallets: Wallets, ghost owned: set<VirtualAccount>)
      requires bots.Ok()
      ensures fresh(owned) && Hold(wallets, owned, Opening(bots).accounts)
    {
      wallets, owned := map[], {};
      var ids := bots.All();
      for k := 0 to |ids|
        invariant fresh(owned) && wallets.Keys == (set i | 0 <= i < k :: ids[i]) && Separate(wallets, owned)
        invariant forall u ::
                  u in wallets ==> wallets[u].Value() == Purse(Account(INITIAL_USD, 0.0), Account(INITIAL_BTC, 0.0))
      {
        var usd := new VirtualAccount(INITIAL_USD);
        var btc := new VirtualAccount(INITIAL_BTC);
        wallets := wallets[ids[k] := Wallet(usd, btc)];
        owned := owned + {usd, btc};
      }
      assert wallets.Keys == (set u | u in ids);
    }

    // ---------- settling ----------

    /** Change one account of one bot. */
    method Adjust(botId: string, side: Side, available: real, locked: real)
      requires Held() && botId in botAccounts && botId in accounts
      modifies purses, `accounts
      ensures Held() && accounts == Adjusted(old(accounts), botId, side, available, locked)
    {
      hide Tracks, Separate;
      Apart(botAccounts, purses, botId, side);
      var account := botAccounts[botId].Of(side);
      account.Add(available, locked);
      ghost var before := accounts;
      accounts := Adjusted(accounts, botId, side, available, locked);
      forall u | u in botAccounts ensures botAccounts[u].Value() == accounts[u] {
        assert u != botId ==> accounts[u] == before[u];
      }
    }

    static function Adjusted(accounts: map<string, Purse>, botId: string, side: Side, available: real,
                             locked: real): map<string, Purse>
      requires botId in accounts
    {
      var a := accounts[botId].Of(side);
      accounts[botId := accounts[botId].With(side, Account(a.available + available, a.locked + locked))]
    }

    method SettleSeller(fill: TradeExecution)
      requires Held() && fill.sellerId in botAccounts && fill.sellerId in accounts
      modifies purses, `accounts
      ensures Held() && accounts == old(accounts[fill.sellerId := SellerSettled(accounts[fill.sellerId], fill)])
    {
      hide Amounts.Value, Hold, Tracks;
      Adjust(fill.sellerId, SELL, 0.0, -fill.quantity);
      Adjust(fill.sellerId, BUY, Value(fill.price, fill.quantity), 0.0);
    }

    /** The buyer is the taker: it gets back what it locked above the price. */
    method SettleBuyerTaker(fill: TradeExecution, lockedPrice: real)
      requires Held() && fill.buyerId in botAccounts && fill.buyerId in accounts
      modifies purses, `accounts
      ensures Held() && accounts
              == old(accounts[fill.buyerId := BuyerTakerSettled(accounts[fill.buyerId], fill, lockedPrice)])
    {
      hide Amounts.Value, Hold, Tracks;
      var lockedDebit := Value(lockedPrice, fill.quantity);
      var priceImprovementRefund := lockedDebit - Value(fill.price, fill.quantity);
      Adjust(fill.buyerId, BUY, priceImprovementRefund, -lockedDebit);
      Adjust(fill.buyerId, SELL, fill.quantity, 0.0);
    }

    /** The buyer is the maker: it locked exactly the price. */
    method SettleBuyerMaker(fill: TradeExecution)
      requires Held() && fill.buyerId in botAccounts && fill.buyerId in accounts
      modifies purses, `accounts
      ensures Held() && accounts == old(accounts[fill.buyerId := BuyerMakerSettled(accounts[fill.buyerId], fill)])
    {
      hide Amounts.Value, Hold, Tracks;
      Adjust(fill.buyerId, BUY, 0.0, -Value(fill.price, fill.quantity));
      Adjust(fill.buyerId, SELL, fill.quantity, 0.0);
    }

    method ReduceMaker(makerOrderId: OrderId, quantity: real)
      requires Held()
      modifies tracked, `activeOrders, `active
      ensures Held() && active == Reduced(old(active), makerOrderId, quantity)
      ensures activeOrders.Values <= old(activeOrders).Values
    {
      hide Hold, Tracks;
      WalletsKnown();
      if makerOrderId in activeOrders {
        var makerCommitment := activeOrders[makerOrderId];
        Lower(makerCommitment, makerOrderId, quantity);
        if makerCommitment.remainingQty <= 0.0 {
          Forget(makerOrderId);
        }
      }
    }

    method Lower(commitment: ActiveOrder, id: OrderId, quantity: real)
      requires Held() && id in activeOrders && id in active && activeOrders[id] == commitment
      modifies tracked, `active
      ensures Held() && commitment.Value() == active[id]
      ensures active == old(active)[id := old(active)[id].(remainingQty := old(active)[id].remainingQty - quantity)]
    {
      hide Hold;
      commitment.remainingQty := commitment.remainingQty - quantity;
      active := active[id := commitment.Value()];
    }

    method Forget(id: OrderId)
      requires Held()
      modifies `activeOrders, `active
      ensures Held() && active == old(active) - {id} && activeOrders == old(activeOrders) - {id}
    {
      hide Hold;
      activeOrders := activeOrders - {id};
      active := active - {id};
    }

    /** Settle one fill of an order of `botId` in accounts, commitments and journal. */
    method Settle(fill: TradeExecution, botId: string, incoming: ActiveOrder)
      requires Held() && fill.buyerId in botAccounts && fill.sellerId in botAccounts && incoming !in tracked
      modifies purses, tracked, incoming, `accounts, `activeOrders, `active, `ledgerEntries
      ensures Held() && FundsWith(incoming) == StressTest.Settle(old(FundsWith(incoming)), botId, fill)
    {
      hide Amounts.Value, Hold, Tracks;
      WalletsKnown();
      var isBuyerTaker := fill.buyerId == botId;
      var makerOrderId := if isBuyerTaker then fill.sellOrderId else fill.buyOrderId;
      SettleSeller(fill);
      if isBuyerTaker {
        SettleBuyerTaker(fill, incoming.lockedPrice);
      } else {
        SettleBuyerMaker(fill);
      }
      incoming.remainingQty := incoming.remainingQty - fill.quantity;
      ReduceMaker(makerOrderId, fill.quantity);
      ledgerEntries := ledgerEntries + Entries(fill, fill.number);
    }

    lemma WalletsKnown()
      requires Held()
      ensures botAccounts.Keys == accounts.Keys && activeOrders.Keys == active.Keys
    {
    }

    // ---------- one iteration ----------

    method Lock(botId: string, side: Side, amount: real)
      requires Held() && botId in botAccounts && botId in accounts
      modifies purses, `accounts
      ensures Held() && accounts == LockIn(old(accounts), botId, side, amount)
    {
      hide Hold, Tracks;
      Adjust(botId, side, -amount, amount);
    }

    method Release(botId: string, side: Side, amount: real)
      requires Held() && botId in botAccounts && botId in accounts
      modifies purses, `accounts
      ensures Held() && accounts == Unlock(old(accounts), botId, side, amount)
    {
      hide Hold, Tracks;
      Adjust(botId, side, amount, -amount);
    }

    /** Settle fill after fill. */
    method SettleFills(fills: seq<TradeExecution>, botId: string, incoming: ActiveOrder)
      requires Held() && incoming !in tracked
      requires forall n :: 0 <= n < |fills| ==> fills[n].buyerId in botAccounts && fills[n].sellerId in botAccounts
      modifies purses, tracked, incoming, `accounts, `activeOrders, `active, `ledgerEntries
      ensures Held() && FundsWith(incoming) == SettleAll(old(FundsWith(incoming)), botId, fills)
    {
      hide Hold, Tracks, StressTest.Settle;
      ghost var f0 := FundsWith(incoming);
      for k := 0 to |fills|
        invariant Held() && FundsWith(incoming) == SettleAll(f0, botId, fills[..k])
      {
        Settle(fills[k], botId, incoming);
        assert fills[..k + 1][..k] == fills[..k];
      }
      assert fills[..|fills|] == fills;
    }

    /** Rest the remainder as a commitment, or release it. */
    method HandleRemainder(order: OrderData, incoming: ActiveOrder)
      requires Held() && incoming !in tracked && order.userId in botAccounts
      requires incoming.userId == order.userId && incoming.side == order.side
      modifies purses, `accounts, `activeOrders, `active, `tracked
      ensures Held() && FundsWith(incoming) == Remainder(old(FundsWith(incoming)), order)
      ensures tracked <= old(tracked) + {incoming}
    {
      hide Hold, Amounts.Value, Separate, Worth;
      WalletsKnown();
      if order.status == OPEN || order.status == PARTIALLY_FILLED {
        activeOrders := activeOrders[order.id := incoming];
        active := active[order.id := incoming.Value()];
        tracked := tracked + {incoming};
      } else if order.status == CANCELLED || incoming.remainingQty > 0.0 {
        var unfulfilled := incoming.remainingQty;
        if unfulfilled > 0.0 {
          Release(order.userId, order.side, Worth(order.side, incoming.lockedPrice, unfulfilled));
        }
      }
    }

    /** Submit the order and settle what it fills. */
    method Trade(d: Draw, ghost bots: Bots, ghost before: Sim)
      requires Valid() && d.botId in before.accounts && Affordable(before, d)
      requires Inv(bots, before) && Drawn(bots, before, d) && Submittable(before.engine, OrderOf(d))
      requires State() == before.(accounts := Entering(before, d).accounts)
      modifies this, engine, engine.Repr(), purses, tracked
      ensures Valid() && State() == StressTest.Trade(before, d)
      ensures fresh(tracked - old(tracked)) && fresh(engine.Repr() - old(engine.Repr()))
    {
      hide Inv, Hold, Tracks, MatchingEngine.Valid, Submit, GoodEngine, Submittable, Drawn, Affordable, Remainder,
           LockIn, SettleAll,
           StressTest.Trade, Worth, Separate, Amounts.Value, OrderOf, Blank;
      TradeFacts(bots, before, d);
      TradeIs(before, d);
      WalletsKnown();
      var fills, order := PlaceOrder(d, bots, before);
      SettleOrder(d, fills, order);
    }

    /** Settle the fills of an order under a new commitment, and rest or release it. */
    method SettleOrder(d: Draw, fills: seq<TradeExecution>, order: OrderData)
      requires Held() && order.userId == d.botId && d.botId in botAccounts && order.side == d.Side()
      requires forall n :: 0 <= n < |fills| ==> fills[n].buyerId in botAccounts && fills[n].sellerId in botAccounts
      modifies purses, tracked, `accounts, `activeOrders, `active, `ledgerEntries, `tracked
      ensures Held() && fresh(tracked - old(tracked))
      ensures var c := Commitment(d.botId, d.Side(), LockedPrice(d), d.quantity);
              var f := Remainder(SettleAll(Funds(old(accounts), old(active), old(ledgerEntries), c), d.botId, fills),
                                 order);
              accounts == f.accounts && active == f.active && ledgerEntries == f.ledger
    {
      hide Hold, Tracks, Remainder, SettleAll, LockedPrice;
      var incoming := new ActiveOrder(d.botId, d.Side(), LockedPrice(d), d.quantity);
      SettleAndRest(fills, order, incoming);
    }

    method PlaceOrder(d: Draw, ghost bots: Bots, ghost before: Sim)
        returns (fills: seq<TradeExecution>, order: OrderData)
      requires Valid() && d.botId in before.accounts && Affordable(before, d) && engine.State() == before.engine
      requires Inv(bots, before) && Drawn(bots, before, d) && Submittable(before.engine, OrderOf(d))
      modifies engine, engine.Repr()
      ensures Valid() && GoodEngine(before.engine) && fresh(engine.Repr() - old(engine.Repr()))
      ensures Submit(before.engine, OrderOf(d)) == (engine.State(), Accepted(Effect(order, fills, [])))
    {
      hide Inv, Hold, Tracks, MatchingEngine.Valid, Submit, GoodEngine, Submittable, Drawn, Affordable, LockIn;
      TradeFacts(bots, before, d);
      var placed := new Order(OrderOf(d));
      var rejection;
      ghost var matched, stops, added;
      rejection, fills, matched, stops, added := engine.SubmitOrder(placed);
      order := placed.Data();
    }

    method SettleAndRest(fills: seq<TradeExecution>, order: OrderData, incoming: ActiveOrder)
      requires Held() && incoming !in tracked && order.userId in botAccounts
      requires incoming.userId == order.userId && incoming.side == order.side
      requires forall n :: 0 <= n < |fills| ==> fills[n].buyerId in botAccounts && fills[n].sellerId in botAccounts
      modifies purses, tracked, incoming, `accounts, `activeOrders, `active, `ledgerEntries, `tracked
      ensures Held() && tracked <= old(tracked) + {incoming}
      ensures FundsWith(incoming) == Remainder(SettleAll(old(FundsWith(incoming)), order.userId, fills), order)
    {
      hide Hold, Tracks, Remainder, SettleAll;
      SettleFills(fills, order.userId, incoming);
      HandleRemainder(order, incoming);
    }

    /** What the engine answers to a bot's order: it is accepted, every fill is
        between bots, no stop is set off. */
    lemma TradeFacts(bots: Bots, s: Sim, d: Draw)
      requires Inv(bots, s) && Drawn(bots, s, d) && d.botId in s.accounts && Affordable(s, d)
      requires Submittable(s.engine, OrderOf(d))
      ensures GoodEngine(s.engine)
      ensures var reply := Submit(s.engine, OrderOf(d)).1;
              && reply.Accepted? && reply.effect.stops == []
              && reply.effect.order.userId == d.botId && reply.effect.order.side == d.Side()
              && forall n :: 0 <= n < |reply.effect.trades| ==>
                   reply.effect.trades[n].buyerId in s.accounts && reply.effect.trades[n].sellerId in s.accounts
      ensures Entering(s, d).accounts.Keys == s.accounts.Keys
    {
      DrawnOrder(bots, s, d);
      SubmitPlain(s.engine, OrderOf(d));
      MatchedOrder(s.engine.books[SYMBOL], d);
      EnteringSynced(bots, s, d);
      var m := Start(s.engine.books[SYMBOL], OrderOf(d));
      hide Submit, Add, Inv, Listed, BothBacked, Solvent, Covered, Good, Fresh, IsNew, OneBook, Submittable, Validate;
      BotsHaveAccounts(bots, s);
      forall n | 0 <= n < |Run(m, CutoffOf(d)).trades| ensures NamesBots(bots, Run(m, CutoffOf(d)).trades[n]) {
        FillsNameBots(bots, m, CutoffOf(d), n);
      }
    }

    lemma TradeIs(s: Sim, d: Draw)
      requires GoodEngine(s.engine) && Submittable(s.engine, OrderOf(d)) && d.botId in s.accounts
      requires Submit(s.engine, OrderOf(d)).1.Accepted?
      ensures var (engine, reply) := Submit(s.engine, OrderOf(d));
              var f := Remainder(SettleAll(Entering(s, d), d.botId, reply.effect.trades), reply.effect.order);
              StressTest.Trade(s, d) == Sim(engine, f.accounts, f.active, f.ledger)
    {
    }

    lemma BotsHaveAccounts(bots: Bots, s: Sim)
      requires Inv(bots, s)
      ensures forall u :: u in bots.All() ==> u in s.accounts
    {
    }

    /** Cancel one of the bot's own resting orders and release its funds. */
    method Churn(botId: string, target: Option<OrderId>)
      requires Valid() && botId in botAccounts
      modifies this, engine, engine.Repr(), purses, tracked
      ensures Valid() && State() == StressTest.Churn(old(State()), botId, target)
      ensures tracked == old(tracked) && engine.Repr() == old(engine.Repr())
    {
      hide Hold, MatchingEngine.Valid, CancelIn, Unlock, Separate, Worth, Amounts.Value, Cancel, GoodEngine;
      WalletsKnown();
      if target.None? || target.value !in activeOrders { return; }
      var id := target.value;
      var order := activeOrders[id];
      if order.userId != botId { return; }
      var supported, didCancel := engine.CancelOrder(SYMBOL, id);
      if supported && didCancel != null {
        activeOrders := activeOrders - {id};
        active := active - {id};
        Release(botId, order.side, Worth(order.side, order.lockedPrice, order.remainingQty));
      }
    }

    /** One iteration of a bot's loop, from the lock to the random cancel. */
    method Iterate(d: Draw, ghost bots: Bots)
      requires Valid() && Inv(bots, State()) && Drawn(bots, State(), d)
      requires Submittable(engine.State(), OrderOf(d)) && d.botId in accounts
      modifies this, engine, engine.Repr(), purses, tracked
      ensures Valid() && GoodEngine(old(engine.State())) && State() == StressTest.Iterate(old(State()), d)
      ensures fresh(tracked - old(tracked)) && fresh(engine.Repr() - old(engine.Repr()))
    {
      hide Inv, Hold, Tracks, MatchingEngine.Valid, Submittable, Drawn, StressTest.Trade, StressTest.Churn, LockIn,
           Amounts.Value;
      ghost var before := State();
      GoodFromInv(bots, before);
      WalletsKnown();
      var amount := Worth(d.Side(), LockedPrice(d), d.quantity);
      var available := Available(d.botId, d.Side());
      if available < amount {
        return;
      }
      Lock(d.botId, d.Side(), amount);
      Trade(d, bots, before);
      Churn(d.botId, d.target);
    }

    method Available(botId: string, side: Side) returns (available: real)
      requires Held() && botId in botAccounts && botId in accounts
      ensures available == accounts[botId].Of(side).available
    {
      available := botAccounts[botId].Of(side).available;
    }

    lemma GoodFromInv(bots: Bots, s: Sim)
      requires Inv(bots, s)
      ensures GoodEngine(s.engine)
    {
    }

    /** Any interleaving of the bots: their iterations one after the other. */
    method RunSchedule(draws: seq<Draw>, ghost bots: Bots)
      requires Valid() && bots.Ok() && Schedule(bots, draws, {}) && State() == Opening(bots)
      modifies this, engine, engine.Repr(), purses, tracked
      ensures Valid() && State() == Simulated(bots, draws) && AllFour(bots, State())
    {
      hide Inv, Hold, Tracks, MatchingEngine.Valid, StressTest.Iterate, AllFour, Opening, Submittable, Under,
           Simulated, Drawn, Schedule;
      EveryInterleaving(bots, draws);
      UnderAtFirst(bots, draws);
      ghost var used: set<string> := {};
      for k := 0 to |draws|
        invariant Valid() && Under(bots, draws, k, State(), used)
        invariant fresh(tracked - old(tracked)) && fresh(engine.Repr() - old(engine.Repr()))
      {
        UnderNext(bots, draws, k, State(), used);
        Iterate(draws[k], bots);
        used := used + {draws[k].orderId};
      }
      UnderAtLast(bots, draws, State(), used);
    }
  }
}
