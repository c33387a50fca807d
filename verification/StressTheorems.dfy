/** The invariants the stress test checks, proved for every interleaving. */
module StressTheorems {
  import opened Amounts
  import opened Types
  import opened Queues
  import opened Matching
  import opened SweepTheorems
  import opened BookTheorems
  import opened Triggers
  import opened Engine
  import opened StressTest

  /** Every bot trades on one side only. */
  datatype Bots = Bots(buyers: seq<string>, sellers: seq<string>) {
    function All(): seq<string> { buyers + sellers }

    predicate Trades(id: string, side: Side) { id in if side == BUY then buyers else sellers }

    ghost predicate Ok() {
      && (forall i, j :: 0 <= i < j < |All()| ==> All()[i] != All()[j])
      && forall id :: id in All() ==> !Blank(id)
    }

    lemma OneSided(a: string, b: string, side: Side)
      requires Ok() && Trades(a, side) && Trades(b, side.Opposite())
      ensures a != b && a in All() && b in All()
    {
      var x, y := if side == BUY then a else b, if side == BUY then b else a;
      var i :| 0 <= i < |buyers| && buyers[i] == x;
      var j :| 0 <= j < |sellers| && sellers[j] == y;
      assert All()[i] == x && All()[|buyers| + j] == y;
    }
  }

  // ---------- the invariant ----------

  /** What a resting order keeps locked for a user. */
  function Stake(user: string): OrderData -> real {
    (o: OrderData) => if o.userId == user then Worth(o.side, o.price, Remaining(o)) else 0.0
  }

  function CommitmentOf(o: OrderData): Commitment {
    Commitment(o.userId, o.side, o.price, Remaining(o))
  }

  ghost predicate Mirrors(active: map<OrderId, Commitment>, q: seq<OrderData>) {
    forall o :: o in q ==> o.id in active && active[o.id] == CommitmentOf(o)
  }

  /** Resting LIMIT orders of bots of the right side, within the price band. */
  ghost predicate Plain(bots: Bots, q: seq<OrderData>, side: Side) {
    forall o :: o in q ==> o.kind == LIMIT && bots.Trades(o.userId, side) && 0.0 < o.price <= BASE_PRICE * 1.1
  }

  /** On one side, each user's locked balance is its stakes in the queue plus
      what the incoming order still holds. */
  ghost predicate Backed(accounts: map<string, Purse>, side: Side, q: seq<OrderData>, user: string, extra: real) {
    forall u :: u in accounts ==>
      accounts[u].Of(side).locked == Sum(Stake(u), q) + (if u == user then extra else 0.0)
  }

  ghost predicate Solvent(accounts: map<string, Purse>) {
    forall u :: u in accounts ==> accounts[u].usd.available >= 0.0 && accounts[u].btc.available >= 0.0
  }

  ghost predicate OneBook(e: EngineState) {
    GoodEngine(e) && e.books.Keys == {SYMBOL} && e.registry == EMPTY_REGISTRY
  }

  /** The commitments are exactly the orders of the two queues. */
  ghost predicate Listed(active: map<OrderId, Commitment>, q: seq<OrderData>, own: seq<OrderData>) {
    && Ids(q) !! Ids(own) && active.Keys == Ids(q) + Ids(own)
    && Mirrors(active, q) && Mirrors(active, own)
  }

  /** Commitments are the resting orders, locked balances their worth, and no
      available balance is negative. */
  ghost predicate FundsMatch(bots: Bots, b: Book, accounts: map<string, Purse>, active: map<OrderId, Commitment>) {
    && accounts.Keys == (set u | u in bots.All())
    && Plain(bots, b.bids, BUY) && Plain(bots, b.asks, SELL) && Listed(active, b.bids, b.asks)
    && Backed(accounts, BUY, b.bids, "", 0.0) && Backed(accounts, SELL, b.asks, "", 0.0) && Solvent(accounts)
  }

  ghost predicate Inv(bots: Bots, s: Sim) {
    bots.Ok() && OneBook(s.engine) && FundsMatch(bots, s.engine.books[SYMBOL], s.accounts, s.active)
  }

  // ---------- settling keeps pace with matching ----------

  ghost predicate BothBacked(accounts: map<string, Purse>, taker: OrderData, q: seq<OrderData>, own: seq<OrderData>,
                             lockedPrice: real) {
    && Backed(accounts, taker.side.Opposite(), q, "", 0.0)
    && Backed(accounts, taker.side, own, taker.userId, Worth(taker.side, lockedPrice, Remaining(taker)))
  }

  /** A buyer locked at least the price of everything it may take. */
  ghost predicate Covered(q: seq<OrderData>, cutoff: Option<real>, side: Side, lockedPrice: real) {
    side == BUY ==> forall o :: o in q && Accepts(cutoff, o) ==> o.price <= lockedPrice
  }

  /** Between two fills of a sweep: the commitments are the resting orders and
      the locked balances are backed, the taker's by what it still wants. */
  ghost predicate Synced(bots: Bots, m: Match, cutoff: Option<real>, own: seq<OrderData>, f: Funds) {
    && bots.Ok() && Ready(m) && bots.Trades(m.taker.userId, m.taker.side)
    && f.accounts.Keys == (set u | u in bots.All())
    && f.incoming == Commitment(m.taker.userId, m.taker.side, f.incoming.lockedPrice, Remaining(m.taker))
    && Plain(bots, m.queue, m.taker.side.Opposite()) && Listed(f.active, m.queue, own)
    && BothBacked(f.accounts, m.taker, m.queue, own, f.incoming.lockedPrice)
    && Solvent(f.accounts) && Covered(m.queue, cutoff, m.taker.side, f.incoming.lockedPrice)
  }

  ghost predicate Settles(fill: TradeExecution, side: Side, bot: string, maker: OrderData) {
    && fill.quantity > 0.0 && fill.price == maker.price && maker.price > 0.0
    && fill.buyerId == (if side == BUY then bot else maker.userId)
    && fill.sellerId == (if side == BUY then maker.userId else bot)
  }

  /** Only the two accounts of a fill change, each in its own way. */
  lemma SettledAccounts(f: Funds, side: Side, bot: string, maker: OrderData, fill: TradeExecution)
    requires bot in f.accounts && maker.userId in f.accounts && bot != maker.userId && Settles(fill, side, bot, maker)
    ensures var (a, a') := (f.accounts, Settle(f, bot, fill).accounts);
            && a'.Keys == a.Keys
            && a'[fill.sellerId] == SellerSettled(a[fill.sellerId], fill)
            && a'[fill.buyerId] == (if side == BUY then BuyerTakerSettled(a[fill.buyerId], fill, f.incoming.lockedPrice)
                                    else BuyerMakerSettled(a[fill.buyerId], fill))
            && forall u :: u in a && u != bot && u != maker.userId ==> a'[u] == a[u]
  {
  }

  lemma SettleKeepsSolvent(f: Funds, side: Side, bot: string, maker: OrderData, fill: TradeExecution)
    requires bot in f.accounts && maker.userId in f.accounts && bot != maker.userId && Settles(fill, side, bot, maker)
    requires side == BUY ==> fill.price <= f.incoming.lockedPrice
    requires Solvent(f.accounts)
    ensures Solvent(Settle(f, bot, fill).accounts)
  {
    hide Value;
    Values(f.incoming.lockedPrice, fill.price, fill.quantity);
    SettledAccounts(f, side, bot, maker, fill);
    hide Settle, Value;
  }

  ghost predicate LockedLess(a: map<string, Purse>, a': map<string, Purse>, side: Side, user: string, amount: real) {
    a'.Keys == a.Keys
    && forall u :: u in a ==> a'[u].Of(side).locked == a[u].Of(side).locked - (if u == user then amount else 0.0)
  }

  /** What settling one fill does to the locked balances. */
  lemma SettleMoves(f: Funds, side: Side, bot: string, maker: OrderData, fill: TradeExecution)
    requires bot in f.accounts && maker.userId in f.accounts && bot != maker.userId && Settles(fill, side, bot, maker)
    ensures var (a, a') := (f.accounts, Settle(f, bot, fill).accounts);
            && LockedLess(a, a', side, bot, Worth(side, f.incoming.lockedPrice, fill.quantity))
            && LockedLess(a, a', side.Opposite(), maker.userId, Worth(side.Opposite(), fill.price, fill.quantity))
  {
    SettledAccounts(f, side, bot, maker, fill);
    hide Settle, Value;
    var (a, a') := (f.accounts, Settle(f, bot, fill).accounts);
    forall u | u in a
      ensures a'[u].Of(side).locked == a[u].Of(side).locked
                - (if u == bot then Worth(side, f.incoming.lockedPrice, fill.quantity) else 0.0)
      ensures a'[u].Of(side.Opposite()).locked == a[u].Of(side.Opposite()).locked
                - (if u == maker.userId then Worth(side.Opposite(), fill.price, fill.quantity) else 0.0)
    {
      assert u == fill.sellerId || u == fill.buyerId || a'[u] == a[u];
    }
  }

  /** Locked balance and backing shrink by the same amount. */
  lemma BackedLess(a: map<string, Purse>, a': map<string, Purse>, side: Side, q: seq<OrderData>, q': seq<OrderData>,
                   user: string, amount: real)
    requires Backed(a, side, q, "", 0.0) && LockedLess(a, a', side, user, amount)
    requires forall u :: Sum(Stake(u), q') == Sum(Stake(u), q) - (if u == user then amount else 0.0)
    ensures Backed(a', side, q', "", 0.0)
  {
  }

  lemma HeldLess(a: map<string, Purse>, a': map<string, Purse>, side: Side, q: seq<OrderData>, user: string,
                 extra: real, amount: real)
    requires Backed(a, side, q, user, extra) && LockedLess(a, a', side, user, amount)
    ensures Backed(a', side, q, user, extra - amount)
  {
  }

  /** The head of a plain queue trades down or leaves. */
  lemma PlainStep(m: Match)
    requires Ready(m) && m.queue != [] && m.queue[0].kind == LIMIT && Remaining(m.taker) > 0.0
    ensures var (q', h, fill) := (Step(m).queue, m.queue[0], FillSize(m));
            && 0.0 < fill <= Remaining(h) && h.id !in Ids(m.queue[1..])
            && (if fill < Remaining(h)
                then q' == [h.(filledQuantity := h.filledQuantity + fill, status := PARTIALLY_FILLED)] + m.queue[1..]
                else q' == m.queue[1..])
            && Step(m).taker == m.taker.(filledQuantity := m.taker.filledQuantity + fill)
            && Step(m).trades == m.trades + [TradeOf(m.symbol, m.taker, h, fill, m.counter + 1)]
            && (h in m.queue && forall o :: o in m.queue[1..] ==> o in m.queue)
  {
    assert m.queue[0] in m.queue && Resting(m.queue[0]);
    IdsCons(m.queue);
  }

  lemma PlainQueue(m: Match)
    requires Ready(m) && m.queue != [] && m.queue[0].kind == LIMIT && Remaining(m.taker) > 0.0
    ensures Step(m).queue == if FillSize(m) < Remaining(m.queue[0])
              then [m.queue[0].(filledQuantity := m.queue[0].filledQuantity + FillSize(m),
                                status := PARTIALLY_FILLED)] + m.queue[1..]
              else m.queue[1..]
    ensures FillSize(m) <= Remaining(m.queue[0])
  {
    hide Ready;
  }

  lemma StakeStep(m: Match, user: string)
    requires Ready(m) && m.queue != [] && m.queue[0].kind == LIMIT && Remaining(m.taker) > 0.0
    ensures Sum(Stake(user), Step(m).queue) == Sum(Stake(user), m.queue)
              - (if user == m.queue[0].userId then Worth(m.queue[0].side, m.queue[0].price, FillSize(m)) else 0.0)
  {
    hide Value;
    PlainStep(m);
    var h, q', fill := m.queue[0], Step(m).queue, FillSize(m);
    WorthLess(h.side, h.price, Remaining(h), fill);
    if fill < Remaining(h) {
      assert q'[1..] == m.queue[1..];
    }
  }

  lemma StakesStep(m: Match)
    requires Ready(m) && m.queue != [] && m.queue[0].kind == LIMIT && Remaining(m.taker) > 0.0
    ensures forall u :: Sum(Stake(u), Step(m).queue)
              == Sum(Stake(u), m.queue)
                  - (if u == m.queue[0].userId then Worth(m.queue[0].side, m.queue[0].price, FillSize(m)) else 0.0)
  {
    hide Ready, Step, Sum;
    forall u ensures Sum(Stake(u), Step(m).queue)
              == Sum(Stake(u), m.queue)
                  - (if u == m.queue[0].userId then Worth(m.queue[0].side, m.queue[0].price, FillSize(m)) else 0.0)
    {
      StakeStep(m, u);
    }
  }

  lemma ListedShrunk(active: map<OrderId, Commitment>, q: seq<OrderData>, own: seq<OrderData>, h: OrderData)
    requires Listed(active, q, own) && Distinct(q) && q != [] && h.id == q[0].id
    ensures Listed(active[h.id := CommitmentOf(h)], [h] + q[1..], own)
  {
    var q' := [h] + q[1..];
    IdsCons(q);
    IdsCons(q');
    assert q'[1..] == q[1..];
    forall o | o in q' || o in own
      ensures o.id in active && (o == h || (o.id != h.id && active[o.id] == CommitmentOf(o)))
    {
      assert o in q[1..] ==> o.id in Ids(q[1..]);
      assert o in own ==> o.id in Ids(own);
      assert o == h || o in q[1..] || o in own;
    }
  }

  lemma ListedRemoved(active: map<OrderId, Commitment>, q: seq<OrderData>, own: seq<OrderData>)
    requires Listed(active, q, own) && Distinct(q) && q != []
    ensures Listed(active - {q[0].id}, q[1..], own)
  {
    IdsCons(q);
    forall o | o in q[1..] || o in own ensures o.id in active && o.id != q[0].id && active[o.id] == CommitmentOf(o) {
      assert o in q[1..] ==> o.id in Ids(q[1..]);
      assert o in own ==> o.id in Ids(own);
    }
  }

  lemma HeadListed(m: Match, active: map<OrderId, Commitment>, own: seq<OrderData>)
    requires Ready(m) && m.queue != [] && Listed(active, m.queue, own)
    ensures m.queue[0].id in active && active[m.queue[0].id] == CommitmentOf(m.queue[0]) && Distinct(m.queue)
  {
    assert m.queue[0] in m.queue;
  }

  /** Reducing the maker's commitment follows the queue. */
  lemma ReducedListed(m: Match, active: map<OrderId, Commitment>, own: seq<OrderData>)
    requires Ready(m) && m.queue != [] && m.queue[0].kind == LIMIT && Remaining(m.taker) > 0.0
    requires Listed(active, m.queue, own)
    ensures Listed(Reduced(active, m.queue[0].id, FillSize(m)), Step(m).queue, own)
  {
    hide AfterFill, Step, FillSize, Listed, Ready;
    PlainQueue(m);
    HeadListed(m, active, own);
    var h, fill := m.queue[0], FillSize(m);
    if fill < Remaining(h) {
      ListedShrunk(active, m.queue, own, h.(filledQuantity := h.filledQuantity + fill, status := PARTIALLY_FILLED));
    } else {
      ListedRemoved(active, m.queue, own);
    }
  }

  /** The fill at the head of the queue. */
  function NextFill(m: Match): TradeExecution
    requires m.queue != []
  {
    TradeOf(m.symbol, m.taker, m.queue[0], FillSize(m), m.counter + 1)
  }

  lemma BackedAfterFill(m: Match, f: Funds, own: seq<OrderData>)
    requires Ready(m) && m.queue != [] && m.queue[0].kind == LIMIT && Remaining(m.taker) > 0.0
    requires m.taker.userId in f.accounts && m.queue[0].userId in f.accounts && m.taker.userId != m.queue[0].userId
    requires Settles(NextFill(m), m.taker.side, m.taker.userId, m.queue[0])
             && m.queue[0].side == m.taker.side.Opposite()
    requires BothBacked(f.accounts, m.taker, m.queue, own, f.incoming.lockedPrice)
    ensures BothBacked(Settle(f, m.taker.userId, NextFill(m)).accounts, Step(m).taker, Step(m).queue, own,
                       f.incoming.lockedPrice)
  {
    hide Settle, Step, Value, Worth, Ready, Sum, Backed, LockedLess, AfterFill, Hidden, FillSize, Settles;
    var (side, bot, h, fill) := (m.taker.side, m.taker.userId, m.queue[0], FillSize(m));
    var a := Settle(f, bot, NextFill(m)).accounts;
    PlainStep(m);
    SettleMoves(f, side, bot, h, NextFill(m));
    StakesStep(m);
    BackedLess(f.accounts, a, side.Opposite(), m.queue, Step(m).queue, h.userId, Worth(h.side, h.price, fill));
    WorthLess(side, f.incoming.lockedPrice, Remaining(m.taker), fill);
    HeldLess(f.accounts, a, side, own, bot, Worth(side, f.incoming.lockedPrice, Remaining(m.taker)),
             Worth(side, f.incoming.lockedPrice, fill));
  }

  lemma PlainAfterFill(bots: Bots, m: Match, side: Side, cutoff: Option<real>, lockedPrice: real)
    requires Ready(m) && m.queue != [] && m.queue[0].kind == LIMIT && Remaining(m.taker) > 0.0
    requires Plain(bots, m.queue, side) && Covered(m.queue, cutoff, m.taker.side, lockedPrice)
    ensures Plain(bots, Step(m).queue, side) && Covered(Step(m).queue, cutoff, m.taker.side, lockedPrice)
  {
    PlainStep(m);
  }

  lemma HeadFacts(bots: Bots, m: Match, cutoff: Option<real>, own: seq<OrderData>, f: Funds)
    requires Synced(bots, m, cutoff, own, f) && !Stops(m, cutoff)
    ensures m.queue != [] && m.queue[0].kind == LIMIT && Remaining(m.taker) > 0.0 && m.queue[0].price > 0.0
    ensures m.taker.userId in f.accounts && m.queue[0].userId in f.accounts && m.taker.userId != m.queue[0].userId
    ensures m.taker.side == BUY ==> m.queue[0].price <= f.incoming.lockedPrice
    ensures m.queue[0].side == m.taker.side.Opposite()
    ensures Settles(NextFill(m), m.taker.side, m.taker.userId, m.queue[0])
  {
    assert m.queue[0] in m.queue;
    bots.OneSided(m.taker.userId, m.queue[0].userId, m.taker.side);
    Continue(m, cutoff);
  }

  /** Settling a fill keeps step with matching it. */
  lemma SettleInStep(bots: Bots, m: Match, cutoff: Option<real>, own: seq<OrderData>, f: Funds)
    requires Synced(bots, m, cutoff, own, f) && !Stops(m, cutoff)
    ensures Step(m).trades == m.trades + [NextFill(m)]
    ensures Synced(bots, Step(m), cutoff, own, Settle(f, m.taker.userId, NextFill(m)))
  {
    hide Ready, Plain, Listed, BothBacked, Solvent, Covered, Value, Worth, AfterFill, Sorted, Distinct, Resting, Effort;
    HeadFacts(bots, m, cutoff, own, f);
    Continue(m, cutoff);
    SettleKeepsSolvent(f, m.taker.side, m.taker.userId, m.queue[0], NextFill(m));
    ReducedListed(m, f.active, own);
    BackedAfterFill(m, f, own);
    PlainAfterFill(bots, m, m.taker.side.Opposite(), cutoff, f.incoming.lockedPrice);
    PlainStep(m);
  }

  // ---------- conservation ----------

  /** Everything the bots own of what a side locks: USD for BUY, BTC for SELL. */
  function TotalOf(ids: seq<string>, accounts: map<string, Purse>, side: Side): real {
    if ids == [] then 0.0
    else TotalOf(ids[1..], accounts, side) + if ids[0] in accounts then accounts[ids[0]].Of(side).Total() else 0.0
  }

  function Signed(e: LedgerEntry, currency: Currency): real {
    if e.currency != currency then 0.0 else if e.direction == CREDIT then e.amount else -e.amount
  }

  /** Credits less debits. */
  function Balance(ledger: seq<LedgerEntry>, currency: Currency): real {
    if ledger == [] then 0.0 else Balance(ledger[..|ledger| - 1], currency) + Signed(ledger[|ledger| - 1], currency)
  }

  function CurrencyOf(side: Side): Currency {
    if side == BUY then USD else BTC
  }

  function InitialOf(side: Side): real {
    if side == BUY then INITIAL_USD else INITIAL_BTC
  }

  /** Credits less debits of one user. */
  function NetOf(ledger: seq<LedgerEntry>, user: string, currency: Currency): real {
    if ledger == [] then 0.0
    else
      var e := ledger[|ledger| - 1];
      NetOf(ledger[..|ledger| - 1], user, currency) + if e.userId == user then Signed(e, currency) else 0.0
  }

  /** The ledger explains every balance: what a bot owns is what it started
      with, plus its credits, less its debits. */
  ghost predicate Journalled(accounts: map<string, Purse>, ledger: seq<LedgerEntry>) {
    forall u, side: Side :: u in accounts ==>
      accounts[u].Of(side).Total() == InitialOf(side) + NetOf(ledger, u, CurrencyOf(side))
  }

  ghost predicate Conserved(bots: Bots, accounts: map<string, Purse>, ledger: seq<LedgerEntry>, usd: real, btc: real) {
    && Journalled(accounts, ledger)
    && TotalOf(bots.All(), accounts, BUY) == usd && TotalOf(bots.All(), accounts, SELL) == btc
    && Balance(ledger, USD) == 0.0 && Balance(ledger, BTC) == 0.0
  }

  lemma {:induction false} TotalChanges(ids: seq<string>, accounts: map<string, Purse>, id: string, p: Purse,
                                        side: Side)
    requires id in accounts && forall i, j :: 0 <= i < j < |ids| ==> ids[i] != ids[j]
    ensures TotalOf(ids, accounts[id := p], side) == TotalOf(ids, accounts, side)
              + if id in ids then p.Of(side).Total() - accounts[id].Of(side).Total() else 0.0
  {
    if ids != [] {
      TotalChanges(ids[1..], accounts, id, p, side);
      assert ids[0] == id ==> id !in ids[1..];
    }
  }

  lemma BalanceAppend(ledger: seq<LedgerEntry>, e: LedgerEntry, currency: Currency)
    ensures Balance(ledger + [e], currency) == Balance(ledger, currency) + Signed(e, currency)
  {
    assert (ledger + [e])[..|ledger|] == ledger;
  }

  lemma EntriesBalance(ledger: seq<LedgerEntry>, fill: TradeExecution, txId: nat, currency: Currency)
    ensures Balance(ledger + Entries(fill, txId), currency) == Balance(ledger, currency)
  {
    hide Value, Balance;
    var e := Entries(fill, txId);
    var l1 := ledger + [e[0]];
    var l2 := l1 + [e[1]];
    var l3 := l2 + [e[2]];
    assert ledger + e == l3 + [e[3]];
    BalanceAppend(ledger, e[0], currency);
    BalanceAppend(l1, e[1], currency);
    BalanceAppend(l2, e[2], currency);
    BalanceAppend(l3, e[3], currency);
  }

  lemma NetAppend(ledger: seq<LedgerEntry>, e: LedgerEntry, user: string, currency: Currency)
    ensures NetOf(ledger + [e], user, currency) == NetOf(ledger, user, currency) + if e.userId == user
            then Signed(e, currency) else 0.0
  {
    assert (ledger + [e])[..|ledger|] == ledger;
  }

  lemma NetEntries(ledger: seq<LedgerEntry>, fill: TradeExecution, txId: nat, user: string)
    ensures var l, usd := ledger + Entries(fill, txId), Value(fill.price, fill.quantity);
            && NetOf(l, user, USD) == NetOf(ledger, user, USD) - (if user == fill.buyerId then usd else 0.0)
                                                               + (if user == fill.sellerId then usd else 0.0)
            && NetOf(l, user, BTC) == NetOf(ledger, user, BTC) - (if user == fill.sellerId then fill.quantity else 0.0)
                                                               + (if user == fill.buyerId then fill.quantity else 0.0)
  {
    hide Value, NetOf;
    var e := Entries(fill, txId);
    var l1 := ledger + [e[0]];
    var l2 := l1 + [e[1]];
    var l3 := l2 + [e[2]];
    assert ledger + e == l3 + [e[3]];
    forall c: Currency ensures NetOf(ledger + e, user, c) == NetOf(ledger, user, c)
        + (if e[0].userId == user then Signed(e[0], c) else 0.0)
            + (if e[1].userId == user then Signed(e[1], c) else 0.0)
        + (if e[2].userId == user then Signed(e[2], c) else 0.0)
            + (if e[3].userId == user then Signed(e[3], c) else 0.0)
    {
      NetAppend(ledger, e[0], user, c);
      NetAppend(l1, e[1], user, c);
      NetAppend(l2, e[2], user, c);
      NetAppend(l3, e[3], user, c);
    }
  }

  lemma SettleJournalled(f: Funds, side: Side, bot: string, maker: OrderData, fill: TradeExecution)
    requires bot in f.accounts && maker.userId in f.accounts && bot != maker.userId && Settles(fill, side, bot, maker)
    requires Journalled(f.accounts, f.ledger)
    ensures Journalled(Settle(f, bot, fill).accounts, Settle(f, bot, fill).ledger)
  {
    hide Value, NetOf, Entries;
    SettledAccounts(f, side, bot, maker, fill);
    var f' := Settle(f, bot, fill);
    forall u, s: Side | u in f'.accounts
      ensures f'.accounts[u].Of(s).Total() == InitialOf(s) + NetOf(f'.ledger, u, CurrencyOf(s))
    {
      NetEntries(f.ledger, fill, fill.number, u);
      assert u == fill.sellerId || u == fill.buyerId || f'.accounts[u] == f.accounts[u];
      assert f.accounts[u].Of(s).Total() == InitialOf(s) + NetOf(f.ledger, u, CurrencyOf(s));
    }
  }

  lemma MoveJournalled(accounts: map<string, Purse>, ledger: seq<LedgerEntry>, id: string, side: Side, amount: real)
    requires id in accounts && Journalled(accounts, ledger)
    ensures Journalled(LockIn(accounts, id, side, amount), ledger)
            && Journalled(Unlock(accounts, id, side, amount), ledger)
  {
    hide NetOf;
    forall a: map<string, Purse> | a == LockIn(accounts, id, side, amount) || a == Unlock(accounts, id, side, amount)
      ensures Journalled(a, ledger)
    {
      forall u, s: Side | u in a ensures a[u].Of(s).Total() == InitialOf(s) + NetOf(ledger, u, CurrencyOf(s)) {
        assert a[u].Of(s).Total() == accounts[u].Of(s).Total();
      }
    }
  }

  /** A fill moves USD one way and BTC the other, and its entries cancel out. */
  lemma SettleConserves(bots: Bots, f: Funds, side: Side, bot: string, maker: OrderData, fill: TradeExecution,
                        usd: real, btc: real)
    requires bots.Ok() && f.accounts.Keys == (set u | u in bots.All())
    requires bot in f.accounts && maker.userId in f.accounts && bot != maker.userId && Settles(fill, side, bot, maker)
    requires Conserved(bots, f.accounts, f.ledger, usd, btc)
    ensures Conserved(bots, Settle(f, bot, fill).accounts, Settle(f, bot, fill).ledger, usd, btc)
  {
    hide Value;
    var (a, a') := (f.accounts, Settle(f, bot, fill).accounts);
    SettledAccounts(f, side, bot, maker, fill);
    var seller, buyer := fill.sellerId, fill.buyerId;
    var paid := a[seller := a'[seller]];
    assert a' == paid[buyer := a'[buyer]];
    assert seller in bots.All() && buyer in bots.All();
    forall s: Side ensures TotalOf(bots.All(), a', s) == TotalOf(bots.All(), a, s) {
      TotalChanges(bots.All(), a, seller, a'[seller], s);
      TotalChanges(bots.All(), paid, buyer, a'[buyer], s);
    }
    SettleJournalled(f, side, bot, maker, fill);
    EntriesBalance(f.ledger, fill, fill.number, USD);
    EntriesBalance(f.ledger, fill, fill.number, BTC);
  }

  // ---------- one iteration ----------

  ghost predicate NamesBots(bots: Bots, fill: TradeExecution) {
    fill.buyerId in bots.All() && fill.sellerId in bots.All()
  }

  /** Every fill is between two of the bots. */
  lemma {:induction false} FillsNameBots(bots: Bots, m: Match, cutoff: Option<real>, n: nat)
    requires Ready(m) && Plain(bots, m.queue, m.taker.side.Opposite()) && bots.Trades(m.taker.userId, m.taker.side)
    requires |m.trades| <= n < |Run(m, cutoff).trades|
    ensures NamesBots(bots, Run(m, cutoff).trades[n])
    decreases Sum(Effort, m.queue), if Remaining(m.taker) > 0.0 then 1 else 0
  {
    if !Stops(m, cutoff) {
      Continue(m, cutoff);
      FirstTrade(m, cutoff);
      PlainStep(m);
      assert bots.Trades(m.queue[0].userId, m.taker.side.Opposite());
      if n > |m.trades| {
        FillsNameBots(bots, Step(m), cutoff, n);
      }
    }
  }

  /** Matching the whole order and settling all of its fills. */
  lemma {:induction false} SettleRun(bots: Bots, m: Match, cutoff: Option<real>, own: seq<OrderData>, f0: Funds,
                                     usd: real, btc: real)
    requires var f := SettleAll(f0, m.taker.userId, m.trades);
             Synced(bots, m, cutoff, own, f) && Conserved(bots, f.accounts, f.ledger, usd, btc)
    ensures var r := Run(m, cutoff);
            var f := SettleAll(f0, m.taker.userId, r.trades);
            Synced(bots, r, cutoff, own, f) && Conserved(bots, f.accounts, f.ledger, usd, btc)
    decreases Sum(Effort, m.queue), if Remaining(m.taker) > 0.0 then 1 else 0
  {
    if !Stops(m, cutoff) {
      var f := SettleAll(f0, m.taker.userId, m.trades);
      hide Plain, Listed, BothBacked, Solvent, Covered, Value, Worth, AfterFill, Settle, Conserved, Settles;
      Continue(m, cutoff);
      HeadFacts(bots, m, cutoff, own, f);
      SettleInStep(bots, m, cutoff, own, f);
      SettleConserves(bots, f, m.taker.side, m.taker.userId, m.queue[0], NextFill(m), usd, btc);
      assert Step(m).trades[..|m.trades|] == m.trades;
      SettleRun(bots, Step(m), cutoff, own, f0, usd, btc);
    }
  }

  predicate InBand(d: Draw) {
    BASE_PRICE - 750.0 <= d.limitPrice <= BASE_PRICE + 750.0 && d.quantity > 0.0
  }

  /** A draw of one of the bots, within the random ranges, under a new id. */
  ghost predicate Drawn(bots: Bots, s: Sim, d: Draw) {
    && bots.Trades(d.botId, d.Side()) && InBand(d) && !Blank(d.orderId)
    && Client(d.orderId) !in s.active
  }

  function CutoffOf(d: Draw): Option<real> {
    if d.isMarket then None else LimitOf(OrderOf(d))
  }

  /** Both sides alike, seen from an incoming order. */
  lemma FromSide(bots: Bots, b: Book, accounts: map<string, Purse>, active: map<OrderId, Commitment>, side: Side)
    ensures FundsMatch(bots, b, accounts, active) <==>
              && accounts.Keys == (set u | u in bots.All())
              && Plain(bots, b.Queue(side), side) && Plain(bots, b.Queue(side.Opposite()), side.Opposite())
              && Listed(active, b.Queue(side.Opposite()), b.Queue(side))
              && Backed(accounts, side, b.Queue(side), "", 0.0)
              && Backed(accounts, side.Opposite(), b.Queue(side.Opposite()), "", 0.0) && Solvent(accounts)
  {
    hide Plain, Backed, Solvent, Mirrors;
  }

  lemma DrawnOrder(bots: Bots, s: Sim, d: Draw)
    requires Inv(bots, s) && Drawn(bots, s, d)
    ensures var (e, o) := (s.engine, OrderOf(d));
            && Submittable(e, o) && Validate(e.books.Keys, o).None? && !IsConditional(o)
            && Fresh(o) && Good(e.books[SYMBOL]) && IsNew(e.books[SYMBOL], o) && e.books[SYMBOL].symbol == SYMBOL
            && AllResting(e.books[SYMBOL].Queue(d.Side().Opposite()))
            && d.botId in s.accounts
  {
    hide Backed, Sorted, Distinct, Worth, Value;
    GoodQueues(s.engine.books[SYMBOL]);
    assert forall id, t :: id !in Ids(s.engine.registry.Of(t));
    assert !Blank(d.botId) by { assert d.botId in bots.All(); }
    assert SYMBOL in s.engine.books.Keys;
  }

  lemma LockedIn(accounts: map<string, Purse>, id: string, side: Side, amount: real, q: seq<OrderData>,
                 other: seq<OrderData>)
    requires id in accounts && accounts[id].Of(side).available >= amount
    requires Backed(accounts, side, q, "", 0.0) && Backed(accounts, side.Opposite(), other, "", 0.0)
             && Solvent(accounts)
    ensures var a := LockIn(accounts, id, side, amount);
            && a.Keys == accounts.Keys && Backed(a, side, q, id, amount)
            && Backed(a, side.Opposite(), other, "", 0.0) && Solvent(a)
  {
    hide Sum;
  }

  lemma EnteringCovered(bots: Bots, q: seq<OrderData>, d: Draw)
    requires Plain(bots, q, d.Side().Opposite()) && forall o :: o in q ==> o.side == d.Side().Opposite()
    ensures Covered(q, CutoffOf(d), d.Side(), LockedPrice(d))
  {
  }

  /** Locking funds for a new order. */
  lemma EnteringSynced(bots: Bots, s: Sim, d: Draw)
    requires Inv(bots, s) && Drawn(bots, s, d) && d.botId in s.accounts && Affordable(s, d)
    ensures var b := s.engine.books[SYMBOL];
            Synced(bots, Start(b, OrderOf(d)), CutoffOf(d), b.Queue(d.Side()), Entering(s, d))
  {
    hide Value, Worth, Listed, Backed, Solvent, Covered, Plain, FundsMatch, Sorted, Distinct, Resting;
    var (b, o, side) := (s.engine.books[SYMBOL], OrderOf(d), d.Side());
    GoodQueues(b);
    FromSide(bots, b, s.accounts, s.active, side);
    EnteringCovered(bots, b.Queue(side.Opposite()), d);
    LockedIn(s.accounts, d.botId, side, Worth(side, LockedPrice(d), d.quantity), b.Queue(side),
             b.Queue(side.Opposite()));
    assert Remaining(o) == d.quantity;
  }

  // ---------- after the sweep ----------

  /** What a LIMIT order has left over rests, with its commitment. */
  lemma RestedListed(active: map<OrderId, Commitment>, q: seq<OrderData>, own: seq<OrderData>, o: OrderData)
    requires Listed(active, q, own) && Sorted(own) && o.id !in Ids(q) && o.id !in Ids(own)
    ensures Listed(active[o.id := CommitmentOf(o)], q, Insert(own, o))
  {
    InsertKeeps(own, o);
    var active' := active[o.id := CommitmentOf(o)];
    forall x | x in q || x in own ensures x.id in active' && active'[x.id] == CommitmentOf(x) {
      assert x.id in Ids(q) || x.id in Ids(own);
    }
  }

  lemma RestedBacked(accounts: map<string, Purse>, own: seq<OrderData>, o: OrderData)
    requires Backed(accounts, o.side, own, o.userId, Worth(o.side, o.price, Remaining(o)))
    ensures Backed(accounts, o.side, Insert(own, o), "", 0.0)
  {
    hide Value, Worth;
    forall u | u in accounts ensures accounts[u].Of(o.side).locked == Sum(Stake(u), Insert(own, o)) {
      SumInsert(Stake(u), own, o);
    }
  }

  /** What cannot rest is released, or nothing is left to release. */
  lemma Released(accounts: map<string, Purse>, id: string, side: Side, amount: real, q: seq<OrderData>,
                 other: seq<OrderData>)
    requires id in accounts && amount >= 0.0
    requires Backed(accounts, side, q, id, amount) && Backed(accounts, side.Opposite(), other, "", 0.0)
             && Solvent(accounts)
    ensures var a := Unlock(accounts, id, side, amount);
            && a.Keys == accounts.Keys && Backed(a, side, q, "", 0.0)
            && Backed(a, side.Opposite(), other, "", 0.0) && Solvent(a)
  {
    hide Sum;
  }

  /** The book and the order after a bot's order has been matched. */
  ghost predicate MatchedAs(b: Book, d: Draw, m: Match, r: Outcome) {
    var left := Remaining(m.taker);
    && r.trades == m.trades && 0.0 <= left && m.taker == OrderOf(d).(filledQuantity := m.taker.filledQuantity)
    && r.order == m.taker.(status := r.order.status)
    && r.order.status == (if left <= 0.0 then FILLED else if d.isMarket then CANCELLED
                          else StatusFor(m.taker.filledQuantity))
    && IsNew(b, OrderOf(d)) && Client(d.orderId) !in Ids(m.queue)
    && r.book.Queue(d.Side().Opposite()) == m.queue
    && r.book.Queue(d.Side()) == (if left > 0.0 && !d.isMarket then Insert(b.Queue(d.Side()), r.order)
                                  else b.Queue(d.Side()))
  }

  lemma MatchedOrder(b: Book, d: Draw)
    requires Good(b) && Fresh(OrderOf(d)) && AllResting(b.Queue(d.Side().Opposite())) && IsNew(b, OrderOf(d))
    ensures MatchedAs(b, d, Run(Start(b, OrderOf(d)), CutoffOf(d)), Add(b, OrderOf(d)))
  {
    GoodQueues(b);
    var m := Start(b, OrderOf(d));
    RunKeeps(m, CutoffOf(d));
    FillClosedForm(m, CutoffOf(d));
    ReachPositive(m.queue, CutoffOf(d));
  }

  /** Handling the remainder restores the invariant. */
  lemma RemainderMatches(bots: Bots, d: Draw, b: Book, m: Match, f: Funds, r: Outcome)
    requires Synced(bots, m, CutoffOf(d), b.Queue(d.Side()), f) && f.incoming.lockedPrice == LockedPrice(d) && InBand(d)
    requires MatchedAs(b, d, m, r) && Plain(bots, b.Queue(d.Side()), d.Side()) && Sorted(b.Queue(d.Side()))
    ensures FundsMatch(bots, r.book, Remainder(f, r.order).accounts, Remainder(f, r.order).active)
  {
    var (side, left, order, own) := (d.Side(), Remaining(m.taker), r.order, b.Queue(d.Side()));
    hide Value, Worth, Listed, Backed, Solvent, Covered, QueueOk, FundsMatch, Ready, Sum, CutoffOf, Sorted;
    assert order.userId in f.accounts by {
      assert order.userId in bots.All();
    }
    FromSide(bots, r.book, Remainder(f, order).accounts, Remainder(f, order).active, side);
    WorthOf(side, LockedPrice(d), left);
    if left > 0.0 && !d.isMarket {
      assert CommitmentOf(order) == f.incoming && order.price == LockedPrice(d);
      RestedListed(f.active, m.queue, own, order);
      RestedBacked(f.accounts, own, order);
      InsertMembers(own, order);
    } else if left > 0.0 {
      Released(f.accounts, d.botId, side, Worth(side, LockedPrice(d), left), own, m.queue);
    } else {
      NothingHeld(f.accounts, side, own, d.botId, Worth(side, LockedPrice(d), left));
    }
  }

  lemma NothingHeld(accounts: map<string, Purse>, side: Side, q: seq<OrderData>, user: string, extra: real)
    requires Backed(accounts, side, q, user, extra) && extra == 0.0
    ensures Backed(accounts, side, q, "", 0.0)
  {
  }

  lemma RemainderConserves(bots: Bots, f: Funds, order: OrderData, usd: real, btc: real)
    requires bots.Ok() && Conserved(bots, f.accounts, f.ledger, usd, btc)
    ensures Conserved(bots, Remainder(f, order).accounts, Remainder(f, order).ledger, usd, btc)
  {
    if order.userId in f.accounts {
      var amount := Worth(order.side, f.incoming.lockedPrice, f.incoming.remainingQty);
      MoveConserves(bots, f.accounts, order.userId, order.side, amount);
      MoveJournalled(f.accounts, f.ledger, order.userId, order.side, amount);
    }
  }

  lemma MoveConserves(bots: Bots, accounts: map<string, Purse>, id: string, side: Side, amount: real)
    requires bots.Ok() && id in accounts
    ensures forall s: Side ::
            TotalOf(bots.All(), LockIn(accounts, id, side, amount), s) == TotalOf(bots.All(), accounts, s)
    ensures forall s: Side ::
            TotalOf(bots.All(), Unlock(accounts, id, side, amount), s) == TotalOf(bots.All(), accounts, s)
  {
    forall s: Side
      ensures TotalOf(bots.All(), LockIn(accounts, id, side, amount), s) == TotalOf(bots.All(), accounts, s)
      ensures TotalOf(bots.All(), Unlock(accounts, id, side, amount), s) == TotalOf(bots.All(), accounts, s)
    {
      TotalChanges(bots.All(), accounts, id, LockIn(accounts, id, side, amount)[id], s);
      TotalChanges(bots.All(), accounts, id, Unlock(accounts, id, side, amount)[id], s);
    }
  }

  /** An engine with one book and no pending order: submitting is matching. */
  lemma SubmitPlain(e: EngineState, o: OrderData)
    requires OneBook(e) && Submittable(e, o) && Validate(e.books.Keys, o).None? && !IsConditional(o)
             && o.symbol == SYMBOL
    ensures AllResting(e.books[SYMBOL].Queue(o.side.Opposite())) && Good(e.books[SYMBOL])
    ensures var r := Add(e.books[SYMBOL], o);
            && Submit(e, o) == (e.(books := e.books[SYMBOL := r.book]), Accepted(Effect(r.order, r.trades, [])))
            && OneBook(Submit(e, o).0)
  {
    SubmitInSteps(e, o);
    ExecuteKeeps(e, Submitting(o));
    var r := Add(e.books[SYMBOL], o);
    assert e.registry.Of(SYMBOL) == [];
    assert r.trades + [] == r.trades;
    var b := SweepStops(r.book, []);
    assert b == (r.book, [], []);
    assert e.books[SYMBOL := r.book][SYMBOL := r.book] == e.books[SYMBOL := r.book];
    assert e.books[SYMBOL := r.book].Keys == {SYMBOL};
  }

  /** Settling all fills of an order keeps step with matching it. */
  lemma TradeSettled(bots: Bots, s: Sim, d: Draw, usd: real, btc: real)
    requires Inv(bots, s) && Drawn(bots, s, d) && Conserved(bots, s.accounts, s.ledger, usd, btc)
    requires d.botId in s.accounts && Affordable(s, d) && AllResting(s.engine.books[SYMBOL].Queue(d.Side().Opposite()))
    ensures var b := s.engine.books[SYMBOL];
            var m := Run(Start(b, OrderOf(d)), CutoffOf(d));
            var f := SettleAll(Entering(s, d), d.botId, m.trades);
            && Synced(bots, m, CutoffOf(d), b.Queue(d.Side()), f) && f.incoming.lockedPrice == LockedPrice(d)
            && Conserved(bots, f.accounts, f.ledger, usd, btc)
  {
    var b, f := s.engine.books[SYMBOL], Entering(s, d);
    var m := Start(b, OrderOf(d));
    EnteringSynced(bots, s, d);
    MoveConserves(bots, s.accounts, d.botId, d.Side(), Worth(d.Side(), LockedPrice(d), d.quantity));
    MoveJournalled(s.accounts, s.ledger, d.botId, d.Side(), Worth(d.Side(), LockedPrice(d), d.quantity));
    hide Synced, Inv, Value, Worth, Drawn;
    SettleRun(bots, m, CutoffOf(d), b.Queue(d.Side()), f, usd, btc);
    SettleAllKeepsPrice(f, d.botId, Run(m, CutoffOf(d)).trades);
    TakerStays(m, CutoffOf(d));
  }

  lemma TakerStays(m: Match, cutoff: Option<real>)
    requires Ready(m)
    ensures Run(m, cutoff).taker.userId == m.taker.userId
  {
    RunKeeps(m, cutoff);
  }

  /** Lock, match, settle and rest or release: the invariant holds again. */
  lemma TradeKeeps(bots: Bots, s: Sim, d: Draw, usd: real, btc: real)
    requires Inv(bots, s) && Drawn(bots, s, d) && Conserved(bots, s.accounts, s.ledger, usd, btc)
    requires Submittable(s.engine, OrderOf(d)) && d.botId in s.accounts && Affordable(s, d)
    ensures var t := Trade(s, d); Inv(bots, t) && Conserved(bots, t.accounts, t.ledger, usd, btc)
  {
    hide FundsMatch, Blank, Plain, Sorted, AllResting, GoodEngine, Add, Validate, Submit, Submittable, Remainder,
         MatchedAs, Synced, Conserved, Good, Fresh, IsNew, Affordable;
    var (b, o) := (s.engine.books[SYMBOL], OrderOf(d));
    DrawnOrder(bots, s, d);
    OwnSide(bots, s, d.Side());
    SubmitPlain(s.engine, o);
    MatchedOrder(b, d);
    TradeSettled(bots, s, d, usd, btc);
    var m := Run(Start(b, o), CutoffOf(d));
    var f := SettleAll(Entering(s, d), d.botId, m.trades);
    SameTrades(b, d, m, Add(b, o));
    RemainderMatches(bots, d, b, m, f, Add(b, o));
    RemainderConserves(bots, f, Add(b, o).order, usd, btc);
  }

  lemma SameTrades(b: Book, d: Draw, m: Match, r: Outcome)
    requires MatchedAs(b, d, m, r)
    ensures r.trades == m.trades
  {
  }

  lemma OwnSide(bots: Bots, s: Sim, side: Side)
    requires Inv(bots, s)
    ensures Plain(bots, s.engine.books[SYMBOL].Queue(side), side) && Sorted(s.engine.books[SYMBOL].Queue(side))
  {
    GoodQueues(s.engine.books[SYMBOL]);
  }

  lemma {:induction false} SettleAllKeepsPrice(f: Funds, botId: string, fills: seq<TradeExecution>)
    ensures SettleAll(f, botId, fills).incoming.lockedPrice == f.incoming.lockedPrice
  {
    if fills != [] {
      SettleAllKeepsPrice(f, botId, fills[..|fills| - 1]);
    }
  }

  // ---------- cancelling ----------

  /** An active commitment is the resting order of its id, on its own side. */
  lemma ActiveRests(bots: Bots, s: Sim, id: OrderId)
    requires Inv(bots, s) && id in s.active
    ensures var (b, c) := (s.engine.books[SYMBOL], s.active[id]);
            && id in Ids(b.Queue(c.side)) && id !in Ids(b.Queue(c.side.Opposite()))
            && CommitmentOf(Find(b.Queue(c.side), id)) == c && Find(b.Queue(c.side), id).side == c.side
            && c.userId in s.accounts && c.lockedPrice > 0.0 && c.remainingQty >= 0.0
  {
    var b := s.engine.books[SYMBOL];
    GoodQueues(b);
    var side := if id in Ids(b.bids) then BUY else SELL;
    var o :| o in b.Queue(side) && o.id == id;
    assert s.active[id] == CommitmentOf(o) && o.side == side && Resting(o);
    FindMember(b.Queue(side), o);
    assert bots.Trades(o.userId, side) && o.userId in bots.All();
  }

  lemma CancelledListed(active: map<OrderId, Commitment>, q: seq<OrderData>, own: seq<OrderData>, id: OrderId)
    requires Listed(active, q, own) && Distinct(own) && id in Ids(own)
    ensures Listed(active - {id}, q, Remove(own, id))
  {
    RemoveKeeps(own, id);
    forall o | o in Remove(own, id) || o in q ensures o.id in active && o.id != id && active[o.id] == CommitmentOf(o) {
      assert o in q ==> o.id in Ids(q);
      assert o in Remove(own, id) ==> o.id in Ids(Remove(own, id)) && o in own;
    }
  }

  lemma CancelledBacked(accounts: map<string, Purse>, own: seq<OrderData>, id: OrderId)
    requires id in Ids(own)
    ensures var o := Find(own, id);
            Backed(accounts, o.side, own, "", 0.0) ==>
              Backed(accounts, o.side, Remove(own, id), o.userId, Worth(o.side, o.price, Remaining(o)))
  {
    hide Value, Worth;
    forall u ensures Sum(Stake(u), Remove(own, id)) == Sum(Stake(u), own) - Stake(u)(Find(own, id)) {
      SumRemove(Stake(u), own, id);
    }
  }

  /** Cancelling in an engine with one book and no pending order. */
  lemma CancelPlain(e: EngineState, id: OrderId, side: Side)
    requires OneBook(e) && id in Ids(e.books[SYMBOL].Queue(side)) && id !in Ids(e.books[SYMBOL].Queue(side.Opposite()))
    ensures var b := e.books[SYMBOL];
            var b' := b.With(side, Remove(b.Queue(side), id), b.counter);
            && CancelIn(e, SYMBOL, id)
               == (e.(books := e.books[SYMBOL := b']), Cancelled(Some(Find(b.Queue(side), id).(status := CANCELLED))))
            && OneBook(CancelIn(e, SYMBOL, id).0)
  {
    CancelKeeps(e, SYMBOL, id);
    assert SYMBOL in e.books;
  }

  /** Taking an order out of the book, its commitment away and its funds back. */
  lemma CancelMatches(bots: Bots, b: Book, accounts: map<string, Purse>, active: map<OrderId, Commitment>,
                      o: OrderData, side: Side)
    requires Good(b) && FundsMatch(bots, b, accounts, active) && o.id in Ids(b.Queue(side))
             && Find(b.Queue(side), o.id) == o
    requires o.side == side && o.userId in accounts && Worth(side, o.price, Remaining(o)) >= 0.0
    ensures FundsMatch(bots, b.With(side, Remove(b.Queue(side), o.id), b.counter),
                       Unlock(accounts, o.userId, side, Worth(side, o.price, Remaining(o))), active - {o.id})
  {
    hide Listed, Backed, Solvent, Worth, Value, FundsMatch, Sorted, Mirrors, Resting, Unlock, Find, Ids, Remove;
    var own, other := b.Queue(side), b.Queue(side.Opposite());
    GoodQueues(b);
    FromSide(bots, b, accounts, active, side);
    CancelledListed(active, other, own, o.id);
    CancelledBacked(accounts, own, o.id);
    Released(accounts, o.userId, side, Worth(side, o.price, Remaining(o)), Remove(own, o.id), other);
    RemoveKeeps(own, o.id);
    FromSide(bots, b.With(side, Remove(own, o.id), b.counter),
             Unlock(accounts, o.userId, side, Worth(side, o.price, Remaining(o))), active - {o.id}, side);
  }

  lemma ChurnIs(s: Sim, botId: string, id: OrderId)
    requires id in s.active && s.active[id].userId == botId && botId in s.accounts
    requires CancelIn(s.engine, SYMBOL, id).1.Cancelled? && CancelIn(s.engine, SYMBOL, id).1.order.Some?
    ensures var c := s.active[id];
            Churn(s, botId, Some(id))
            == Sim(CancelIn(s.engine, SYMBOL, id).0,
                   Unlock(s.accounts, botId, c.side, Worth(c.side, c.lockedPrice, c.remainingQty)),
                   s.active - {id}, s.ledger)
  {
  }

  /** The cancel of a bot's own active order never misses, and gives back
      exactly what the order held. */
  lemma ChurnKeeps(bots: Bots, s: Sim, botId: string, target: Option<OrderId>, usd: real, btc: real)
    requires Inv(bots, s) && Conserved(bots, s.accounts, s.ledger, usd, btc)
    ensures var t := Churn(s, botId, target); Inv(bots, t) && Conserved(bots, t.accounts, t.ledger, usd, btc)
    ensures target.Some? && target.value in s.active && s.active[target.value].userId == botId ==>
              Churn(s, botId, target).active == s.active - {target.value}
  {
    if target.Some? && target.value in s.active && s.active[target.value].userId == botId {
      hide CancelIn, Worth, Value, FundsMatch, Conserved, Churn, Unlock;
      var (id, b, c) := (target.value, s.engine.books[SYMBOL], s.active[target.value]);
      ActiveRests(bots, s, id);
      CancelPlain(s.engine, id, c.side);
      hide GoodEngine;
      ChurnIs(s, botId, id);
      WorthOf(c.side, c.lockedPrice, c.remainingQty);
      CancelMatches(bots, b, s.accounts, s.active, Find(b.Queue(c.side), id), c.side);
      ReleaseConserves(bots, s.accounts, botId, c.side, Worth(c.side, c.lockedPrice, c.remainingQty), s.ledger, usd,
                       btc);
    }
  }

  lemma ReleaseConserves(bots: Bots, accounts: map<string, Purse>, id: string, side: Side, amount: real,
                         ledger: seq<LedgerEntry>, usd: real, btc: real)
    requires bots.Ok() && id in accounts && Conserved(bots, accounts, ledger, usd, btc)
    ensures Conserved(bots, Unlock(accounts, id, side, amount), ledger, usd, btc)
  {
    MoveConserves(bots, accounts, id, side, amount);
    MoveJournalled(accounts, ledger, id, side, amount);
  }

  // ---------- runs ----------

  /** Ids in use are client ids among those drawn so far. */
  ghost predicate UsedOnly(s: Sim, used: set<string>) {
    forall id :: id in s.active ==> id.Client? && id.name in used
  }

  /** Any interleaving: each bot on its own side, amounts within the random
      ranges, ids never drawn twice. */
  ghost predicate Schedule(bots: Bots, draws: seq<Draw>, used: set<string>) {
    draws != [] ==>
      && bots.Trades(draws[0].botId, draws[0].Side()) && InBand(draws[0])
      && !Blank(draws[0].orderId) && draws[0].orderId !in used
      && Schedule(bots, draws[1..], used + {draws[0].orderId})
  }

  /** One loop iteration of one bot keeps every invariant. */
  lemma IterateKeeps(bots: Bots, s: Sim, d: Draw, used: set<string>, usd: real, btc: real)
    requires Inv(bots, s) && Conserved(bots, s.accounts, s.ledger, usd, btc) && UsedOnly(s, used)
    requires bots.Trades(d.botId, d.Side()) && InBand(d) && !Blank(d.orderId) && d.orderId !in used
    ensures Submittable(s.engine, OrderOf(d)) && d.botId in s.accounts
    ensures var t := Iterate(s, d);
            && Inv(bots, t) && Conserved(bots, t.accounts, t.ledger, usd, btc) && UsedOnly(t, used + {d.orderId})
  {
    DrawnOrder(bots, s, d);
    if Affordable(s, d) {
      TradeKeeps(bots, s, d, usd, btc);
      TradeKeys(bots, s, d);
      ChurnKeeps(bots, Trade(s, d), d.botId, d.target, usd, btc);
      KeysUsed(s, Iterate(s, d), used, d.orderId);
    }
  }

  lemma {:induction false} SettlingAddsNone(f: Funds, botId: string, fills: seq<TradeExecution>)
    ensures SettleAll(f, botId, fills).active.Keys <= f.active.Keys
  {
    if fills != [] {
      SettlingAddsNone(f, botId, fills[..|fills| - 1]);
    }
  }

  lemma OrderKeepsId(b: Book, d: Draw)
    requires Good(b) && Fresh(OrderOf(d)) && AllResting(b.Queue(d.Side().Opposite())) && IsNew(b, OrderOf(d))
    ensures Add(b, OrderOf(d)).order.id == Client(d.orderId)
  {
    MatchedOrder(b, d);
  }

  lemma RemainderKeys(f: Funds, order: OrderData)
    ensures Remainder(f, order).active.Keys <= f.active.Keys + {order.id}
  {
  }

  lemma TradeKeys(bots: Bots, s: Sim, d: Draw)
    requires Inv(bots, s) && Drawn(bots, s, d)
    requires Submittable(s.engine, OrderOf(d)) && d.botId in s.accounts && Affordable(s, d)
    ensures Trade(s, d).active.Keys <= s.active.Keys + {Client(d.orderId)}
  {
    DrawnOrder(bots, s, d);
    hide Add, Submit, Submittable, Validate, GoodEngine, FundsMatch, Value, SettleAll, Good, Fresh, IsNew, Remainder,
         Drawn,
         Affordable, LockIn, AllResting;
    var r := Add(s.engine.books[SYMBOL], OrderOf(d));
    SubmitPlain(s.engine, OrderOf(d));
    OrderKeepsId(s.engine.books[SYMBOL], d);
    SettlingAddsNone(Entering(s, d), d.botId, r.trades);
    RemainderKeys(SettleAll(Entering(s, d), d.botId, r.trades), r.order);
  }

  lemma KeysUsed(s: Sim, t: Sim, used: set<string>, name: string)
    requires UsedOnly(s, used) && t.active.Keys <= s.active.Keys + {Client(name)}
    ensures UsedOnly(t, used + {name})
  {
  }

  ghost function RunDraws(bots: Bots, s: Sim, draws: seq<Draw>, used: set<string>, usd: real, btc: real): Sim
    requires Inv(bots, s) && Conserved(bots, s.accounts, s.ledger, usd, btc) && UsedOnly(s, used)
    requires Schedule(bots, draws, used)
    decreases |draws|
  {
    if draws == [] then s
    else
      IterateKeeps(bots, s, draws[0], used, usd, btc);
      RunDraws(bots, Iterate(s, draws[0]), draws[1..], used + {draws[0].orderId}, usd, btc)
  }

  // ---------- the four checked invariants ----------

  /** What the commitments of a user on one side amount to. */
  ghost function Committed(active: map<OrderId, Commitment>, ids: set<OrderId>, user: string, side: Side): real {
    if ids == {} then 0.0
    else
      var id :| id in ids;
      Committed(active, ids - {id}, user, side) + Claim(active, id, user, side)
  }

  function Claim(active: map<OrderId, Commitment>, id: OrderId, user: string, side: Side): real {
    if id in active && active[id].userId == user && active[id].side == side
    then Worth(side, active[id].lockedPrice, active[id].remainingQty) else 0.0
  }

  /** The order of summation does not matter. */
  lemma {:induction false} CommittedSplits(active: map<OrderId, Commitment>, ids: set<OrderId>, id: OrderId,
                                           user: string, side: Side)
    requires id in ids
    ensures Committed(active, ids, user, side) == Committed(active, ids - {id}, user, side)
            + Claim(active, id, user, side)
    decreases |ids|
  {
    var picked :| picked in ids && Committed(active, ids, user, side)
                                   == Committed(active, ids - {picked}, user, side) + Claim(active, picked, user, side);
    if picked != id {
      CommittedSplits(active, ids - {picked}, id, user, side);
      CommittedSplits(active, ids - {id}, picked, user, side);
      assert ids - {picked} - {id} == ids - {id} - {picked};
    }
  }

  lemma {:induction false} CommittedIsStakes(active: map<OrderId, Commitment>, q: seq<OrderData>, user: string,
                                             side: Side)
    requires Mirrors(active, q) && Distinct(q) && forall o :: o in q ==> o.side == side
    ensures Committed(active, Ids(q), user, side) == Sum(Stake(user), q)
  {
    if q != [] {
      IdsCons(q);
      CommittedSplits(active, Ids(q), q[0].id, user, side);
      assert Ids(q) - {q[0].id} == Ids(q[1..]);
      CommittedIsStakes(active, q[1..], user, side);
      assert q[0] in q;
    }
  }

  lemma {:induction false} CommittedElsewhere(active: map<OrderId, Commitment>, ids: set<OrderId>, q: seq<OrderData>,
                                              user: string, side: Side)
    requires Mirrors(active, q) && Distinct(q) && Ids(q) <= ids && forall o :: o in q ==> o.side != side
    ensures Committed(active, ids, user, side) == Committed(active, ids - Ids(q), user, side)
  {
    if q == [] {
      assert ids - Ids(q) == ids;
    } else {
      IdsCons(q);
      assert q[0] in q;
      CommittedSplits(active, ids, q[0].id, user, side);
      CommittedElsewhere(active, ids - {q[0].id}, q[1..], user, side);
      assert ids - {q[0].id} - Ids(q[1..]) == ids - Ids(q);
    }
  }

  /** Locked balances are the user's own commitments, and none is negative. */
  lemma LockedIsCommitted(bots: Bots, s: Sim, user: string)
    requires Inv(bots, s) && user in s.accounts
    ensures s.accounts[user].usd.locked == Committed(s.active, s.active.Keys, user, BUY) >= 0.0
    ensures s.accounts[user].btc.locked == Committed(s.active, s.active.Keys, user, SELL) >= 0.0
  {
    var b := s.engine.books[SYMBOL];
    GoodQueues(b);
    CommittedElsewhere(s.active, s.active.Keys, b.asks, user, BUY);
    CommittedElsewhere(s.active, s.active.Keys, b.bids, user, SELL);
    assert s.active.Keys - Ids(b.asks) == Ids(b.bids) && s.active.Keys - Ids(b.bids) == Ids(b.asks);
    CommittedIsStakes(s.active, b.bids, user, BUY);
    CommittedIsStakes(s.active, b.asks, user, SELL);
    StakesNonNegative(bots, b.bids, BUY, user);
    StakesNonNegative(bots, b.asks, SELL, user);
  }

  lemma StakesNonNegative(bots: Bots, q: seq<OrderData>, side: Side, user: string)
    requires Plain(bots, q, side) && AllResting(q)
    ensures Sum(Stake(user), q) >= 0.0
  {
    forall o | o in q ensures Stake(user)(o) >= 0.0 {
      assert Resting(o);
      WorthOf(o.side, o.price, Remaining(o));
    }
    SumNonNegative(Stake(user), q);
  }

  /** The state before the bots start. */
  function Opening(bots: Bots): Sim {
    Sim(EmptyEngine({SYMBOL}),
        map u | u in bots.All() :: Purse(Account(INITIAL_USD, 0.0), Account(INITIAL_BTC, 0.0)), map[], [])
  }

  function StartingAssets(bots: Bots, side: Side): real {
    InitialOf(side) * |bots.All()| as real
  }

  lemma OpeningHolds(bots: Bots)
    requires bots.Ok()
    ensures Inv(bots, Opening(bots)) && UsedOnly(Opening(bots), {})
    ensures Conserved(bots, Opening(bots).accounts, [], StartingAssets(bots, BUY), StartingAssets(bots, SELL))
  {
    hide Inv;
    OpeningInv(bots);
    OpeningTotal(bots, bots.All());
  }

  lemma OpeningInv(bots: Bots)
    requires bots.Ok()
    ensures Inv(bots, Opening(bots))
  {
    assert Opening(bots).engine.books == map[SYMBOL := EmptyBook(SYMBOL)];
    assert FundsMatch(bots, EmptyBook(SYMBOL), Opening(bots).accounts, map[]);
  }

  lemma {:induction false} OpeningTotal(bots: Bots, ids: seq<string>)
    requires forall id :: id in ids ==> id in bots.All()
    ensures TotalOf(ids, Opening(bots).accounts, BUY) == INITIAL_USD * |ids| as real
    ensures TotalOf(ids, Opening(bots).accounts, SELL) == INITIAL_BTC * |ids| as real
  {
    if ids != [] {
      OpeningTotal(bots, ids[1..]);
      assert |ids| as real == 1.0 + |ids[1..]| as real;
    }
  }

  /** The four checked invariants: no negative balance, credits equal to debits
      (and each bot's balances as its own entries say), total assets unchanged,
      and locked balances equal to the user's own commitments, which are exactly
      the resting orders. */
  ghost predicate AllFour(bots: Bots, s: Sim)
  {
    && SYMBOL in s.engine.books
    && var b := s.engine.books[SYMBOL];
    && s.accounts.Keys == (set u | u in bots.All())
    && (forall u :: u in s.accounts ==>
          && s.accounts[u].usd.available >= 0.0 && s.accounts[u].btc.available >= 0.0
          && s.accounts[u].usd.locked == Committed(s.active, s.active.Keys, u, BUY) >= 0.0
          && s.accounts[u].btc.locked == Committed(s.active, s.active.Keys, u, SELL) >= 0.0)
    && Balance(s.ledger, USD) == 0.0 && Balance(s.ledger, BTC) == 0.0 && Journalled(s.accounts, s.ledger)
    && (forall side: Side :: TotalOf(bots.All(), s.accounts, side) == StartingAssets(bots, side))
    && s.active.Keys == Ids(b.bids) + Ids(b.asks)
    && Mirrors(s.active, b.bids) && Mirrors(s.active, b.asks)
  }

  /** The state after a schedule of iterations of any of the bots. */
  ghost function Simulated(bots: Bots, draws: seq<Draw>): Sim
    requires bots.Ok() && Schedule(bots, draws, {})
  {
    OpeningHolds(bots);
    RunDraws(bots, Opening(bots), draws, {}, StartingAssets(bots, BUY), StartingAssets(bots, SELL))
  }

  /** After every interleaving of the bots' iterations all four hold. */
  lemma EveryInterleaving(bots: Bots, draws: seq<Draw>)
    requires bots.Ok() && Schedule(bots, draws, {})
    ensures AllFour(bots, Simulated(bots, draws))
  {
    OpeningHolds(bots);
    RunKeepsAll(bots, Opening(bots), draws, {}, StartingAssets(bots, BUY), StartingAssets(bots, SELL));
    InvariantsHold(bots, Simulated(bots, draws));
  }

  lemma InvariantsHold(bots: Bots, s: Sim)
    requires Inv(bots, s) && Conserved(bots, s.accounts, s.ledger, StartingAssets(bots, BUY),
                                       StartingAssets(bots, SELL))
    ensures AllFour(bots, s)
  {
    hide Committed, Sum, Plain, Backed, TotalOf, Balance, Journalled;
    forall u | u in s.accounts
      ensures s.accounts[u].usd.locked == Committed(s.active, s.active.Keys, u, BUY) >= 0.0
      ensures s.accounts[u].btc.locked == Committed(s.active, s.active.Keys, u, SELL) >= 0.0
    {
      LockedIsCommitted(bots, s, u);
    }
  }

  lemma {:induction false} RunKeepsAll(bots: Bots, s: Sim, draws: seq<Draw>, used: set<string>, usd: real, btc: real)
    requires Inv(bots, s) && Conserved(bots, s.accounts, s.ledger, usd, btc) && UsedOnly(s, used)
    requires Schedule(bots, draws, used)
    ensures var t := RunDraws(bots, s, draws, used, usd, btc);
            Inv(bots, t) && Conserved(bots, t.accounts, t.ledger, usd, btc)
    decreases |draws|
  {
    if draws != [] {
      IterateKeeps(bots, s, draws[0], used, usd, btc);
      RunKeepsAll(bots, Iterate(s, draws[0]), draws[1..], used + {draws[0].orderId}, usd, btc);
    }
  }

  // ---------- a schedule under way ----------

  /** After `k` draws of a schedule the run stands at `s`. */
  ghost predicate Under(bots: Bots, draws: seq<Draw>, k: nat, s: Sim, used: set<string>) {
    var usd, btc := StartingAssets(bots, BUY), StartingAssets(bots, SELL);
    && bots.Ok() && Schedule(bots, draws, {}) && k <= |draws|
    && Inv(bots, s) && Conserved(bots, s.accounts, s.ledger, usd, btc)
    && UsedOnly(s, used) && Schedule(bots, draws[k..], used)
    && RunDraws(bots, s, draws[k..], used, usd, btc) == Simulated(bots, draws)
  }

  lemma UnderAtFirst(bots: Bots, draws: seq<Draw>)
    requires bots.Ok() && Schedule(bots, draws, {})
    ensures Under(bots, draws, 0, Opening(bots), {})
  {
    OpeningHolds(bots);
    assert draws[0..] == draws;
    hide Inv, Conserved;
  }

  lemma UnderNext(bots: Bots, draws: seq<Draw>, k: nat, s: Sim, used: set<string>)
    requires Under(bots, draws, k, s, used) && k < |draws|
    ensures Inv(bots, s) && Drawn(bots, s, draws[k]) && Submittable(s.engine, OrderOf(draws[k]))
            && draws[k].botId in s.accounts
    ensures Under(bots, draws, k + 1, Iterate(s, draws[k]), used + {draws[k].orderId})
  {
    hide Inv, Conserved, Submittable, Iterate;
    assert draws[k..][0] == draws[k] && draws[k..][1..] == draws[k + 1..];
    IterateKeeps(bots, s, draws[k], used, StartingAssets(bots, BUY), StartingAssets(bots, SELL));
  }

  lemma UnderAtLast(bots: Bots, draws: seq<Draw>, s: Sim, used: set<string>)
    requires Under(bots, draws, |draws|, s, used)
    ensures s == Simulated(bots, draws)
  {
    assert draws[|draws|..] == [];
  }
}
