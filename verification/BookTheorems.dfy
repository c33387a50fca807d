/** Properties of the book as a whole: what every order type and cancellation keep. */
module BookTheorems {
  import opened Types
  import opened Queues
  import opened Matching
  import opened SweepTheorems

  /** Quantity one side still holds, visible and hidden. */
  function Volume(b: Book, side: Side): real {
    Sum(Depth, b.Queue(side))
  }

  function Visible(b: Book, side: Side): real {
    Sum(Remaining, b.Queue(side))
  }

  ghost predicate Uncrossed(b: Book) {
    forall bid, ask :: bid in b.bids && ask in b.asks ==> bid.price < ask.price
  }

  /** Taker of a sweep: any order with something left to fill. */
  ghost predicate Takes(b: Book, o: OrderData) {
    Good(b) && o.filledQuantity <= o.quantity
  }

  lemma GoodQueues(b: Book)
    requires Good(b)
    ensures QueueOk(b.Queue(BUY), BUY, b.counter) && QueueOk(b.Queue(SELL), SELL, b.counter)
    ensures AllResting(b.bids) && AllResting(b.asks)
  {
  }

  // ---------- well-formedness ----------

  lemma SweepKeeps(b: Book, o: OrderData, cutoff: Option<real>)
    requires Takes(b, o)
    ensures AllResting(b.Queue(o.side.Opposite()))
    ensures var r := Sweep(b, o, cutoff);
            && Good(r.book) && r.book.symbol == b.symbol
            && r.book.Queue(o.side) == b.Queue(o.side)
            && r.book.counter == b.counter + |r.trades|
            && Prices(r.book.Queue(o.side.Opposite())) <= Prices(b.Queue(o.side.Opposite()))
            && (o.id.Client? && IsNew(b, o) ==> IsNew(r.book, o))
            && r.order == o.(filledQuantity := r.order.filledQuantity, status := r.order.status)
            && o.filledQuantity <= r.order.filledQuantity <= o.quantity
            && r.order.status == (if r.order.filledQuantity == o.quantity then FILLED else o.status)
  {
    hide Sorted, Distinct, Run, Reach, Traded, Resting;
    GoodQueues(b);
    var m := Start(b, o);
    RunKeeps(m, cutoff);
    FillClosedForm(m, cutoff);
    ReachPositive(m.queue, cutoff);
    var r := Sweep(b, o, cutoff);
    forall id | id in Ids(b.Queue(o.side)) ensures id !in Ids(Run(m, cutoff).queue) {
      assert id.Slice? ==> id.stamp <= b.counter by {
        var x :| x in b.Queue(o.side) && x.id == id;
      }
    }
    assert QueueOk(r.book.Queue(o.side), o.side, r.book.counter);
  }

  /** One fill keeps the whole book well formed. */
  lemma StepKeepsGood(b: Book, m: Match)
    requires Good(b) && Ready(m) && m.queue == b.Queue(m.taker.side.Opposite()) && m.counter == b.counter
    requires m.queue != [] && Remaining(m.taker) > 0.0
    ensures Good(b.With(m.taker.side.Opposite(), Step(m).queue, m.counter + 1))
    ensures Hidden(m.queue[0]) > 0.0 ==> IsNew(b, NextSlice(m.queue[0], m.counter + 1))
  {
    StepKeeps(m);
    var own, id := b.Queue(m.taker.side), Slice(m.queue[0].id, m.counter + 1);
    Raise(own, m.taker.side, m.counter);
    assert id !in Ids(own) && id !in Ids(m.queue);
  }

  lemma Raise(q: seq<OrderData>, side: Side, n: nat)
    requires QueueOk(q, side, n)
    ensures QueueOk(q, side, n + 1)
    ensures forall id :: id in Ids(q) ==> StampedUpTo(id, n)
  {
  }

  lemma RestKeeps(b: Book, o: OrderData)
    requires Good(b) && Resting(o) && IsNew(b, o) && StampedUpTo(o.id, b.counter)
    ensures Good(Rest(b, o))
  {
    var q := b.Queue(o.side);
    InsertKeeps(q, o);
  }

  lemma FirstSliceRests(o: OrderData)
    requires Fresh(o) && o.kind == ICEBERG
    ensures Resting(FirstSlice(o)) && Depth(FirstSlice(o)) == o.quantity
    ensures FirstSlice(o).id == o.id && FirstSlice(o).side == o.side && FirstSlice(o).price == o.price
  {
  }

  /** Every order type keeps the book well formed: sides sorted, ids distinct,
      every resting order partly unfilled with the matching status. */
  lemma AddKeepsGood(b: Book, o: OrderData)
    requires Good(b) && Fresh(o) && IsNew(b, o)
    ensures AllResting(b.Queue(o.side.Opposite()))
    ensures Good(Add(b, o).book)
    ensures Add(b, o).book.counter == b.counter + |Add(b, o).trades|
  {
    hide Good, Insert, Run;
    GoodQueues(b);
    SweepKeeps(b, o, None);
    SweepKeeps(b, o, LimitOf(o));
    if o.kind == ICEBERG {
      FirstSliceRests(o);
      RestKeeps(b, FirstSlice(o));
    } else if o.kind == LIMIT && Add(b, o).order.status != FILLED {
      RestKeeps(Sweep(b, o, LimitOf(o)).book, Add(b, o).order);
    }
  }

  lemma CancelKeepsGood(b: Book, id: OrderId)
    requires Good(b)
    ensures Good(Cancel(b, id).0)
  {
    RemoveKeeps(b.bids, id);
    RemoveKeeps(b.asks, id);
  }

  // ---------- closed forms ----------

  /** A LIMIT order fills the smaller of its quantity and all liquidity at
      acceptable prices, is FILLED exactly when that is its quantity, and
      otherwise rests with the status of what it filled. */
  lemma LimitClosedForm(b: Book, o: OrderData)
    requires Good(b) && Fresh(o) && IsNew(b, o) && o.kind == LIMIT
    ensures AllResting(b.Queue(o.side.Opposite()))
    ensures var r, reach := Add(b, o), Sum(Reach(LimitOf(o)), b.Queue(o.side.Opposite()));
            && r.order.filledQuantity == Traded(r.trades) == Min(o.quantity, reach)
            && (r.order.status == FILLED <==> o.quantity <= reach)
            && (r.order.status != FILLED ==> r.order in r.book.Queue(o.side) && Resting(r.order))
            && (r.order.status == FILLED ==> IsNew(r.book, o))
  {
    GoodQueues(b);
    var cutoff := LimitOf(o);
    SweepKeeps(b, o, cutoff);
    FillClosedForm(Start(b, o), cutoff);
    ReachPositive(b.Queue(o.side.Opposite()), cutoff);
    var s := Sweep(b, o, cutoff);
    if s.order.filledQuantity < o.quantity {
      InsertMembers(s.book.Queue(o.side), Add(b, o).order);
    }
  }

  /** A MARKET order fills the same minimum over the whole opposite side; it is
      FILLED when that is its quantity and CANCELLED otherwise, never resting. */
  lemma MarketClosedForm(b: Book, o: OrderData)
    requires Good(b) && Fresh(o) && IsNew(b, o) && o.kind == MARKET
    ensures AllResting(b.Queue(o.side.Opposite()))
    ensures var r := Add(b, o);
            && r.order.filledQuantity == Traded(r.trades) == Min(o.quantity, Volume(b, o.side.Opposite()))
            && r.order.status == (if o.quantity <= Volume(b, o.side.Opposite()) then FILLED else CANCELLED)
            && IsNew(r.book, o) && r.book.Queue(o.side) == b.Queue(o.side)
  {
    GoodQueues(b);
    SweepKeeps(b, o, None);
    FillClosedForm(Start(b, o), None);
    SumAgree(Reach(None), Depth, b.Queue(o.side.Opposite()));
  }

  /** FILL_OR_KILL is atomic: with too little visible depth nothing at all
      happens, otherwise it fills completely. It is never cancelled after a sweep. */
  lemma FillOrKillAtomic(b: Book, o: OrderData)
    requires Good(b) && Fresh(o) && IsNew(b, o) && o.kind == FILL_OR_KILL
    ensures AllResting(b.Queue(o.side.Opposite()))
    ensures var r := Add(b, o);
            if Visible(b, o.side.Opposite()) < o.quantity
            then r == Outcome(b, o.(status := CANCELLED), [])
            else r.order.status == FILLED && r.order.filledQuantity == o.quantity == Traded(r.trades)
  {
    GoodQueues(b);
    var q := b.Queue(o.side.Opposite());
    SweepKeeps(b, o, None);
    FillClosedForm(Start(b, o), None);
    SumAgree(Reach(None), Depth, q);
    VisibleWithinDepth(q);
  }

  lemma {:induction false} VisibleWithinDepth(q: seq<OrderData>)
    requires AllResting(q)
    ensures 0.0 <= Sum(Remaining, q) <= Sum(Depth, q)
  {
    if q != [] {
      assert Resting(q[0]);
      VisibleWithinDepth(q[1..]);
    }
  }

  // ---------- crossing ----------

  lemma SweepKeepsUncrossed(b: Book, o: OrderData, cutoff: Option<real>)
    requires Takes(b, o) && Uncrossed(b)
    ensures AllResting(b.Queue(o.side.Opposite()))
    ensures Uncrossed(Sweep(b, o, cutoff).book)
  {
    SweepKeeps(b, o, cutoff);
    FewerPricesStayUncrossed(b, Sweep(b, o, cutoff).book);
  }

  lemma FewerPricesStayUncrossed(b: Book, b': Book)
    requires Uncrossed(b) && Prices(b'.bids) <= Prices(b.bids) && Prices(b'.asks) <= Prices(b.asks)
    ensures Uncrossed(b')
  {
    forall bid, ask | bid in b'.bids && ask in b'.asks ensures bid.price < ask.price {
      assert bid.price in Prices(b'.bids) && ask.price in Prices(b'.asks);
      var x :| x in b.bids && x.price == bid.price;
      var y :| y in b.asks && y.price == ask.price;
    }
  }

  lemma RestUncrossed(b: Book, o: OrderData)
    requires Uncrossed(b)
    ensures Uncrossed(Rest(b, o)) <==>
            forall x :: x in b.Queue(o.side.Opposite()) ==> Rank(x) > RankOf(x.side, o.price) || x.side == o.side
    requires forall x :: x in b.bids ==> x.side == BUY
    requires forall x :: x in b.asks ==> x.side == SELL
  {
    InsertMembers(b.Queue(o.side), o);
    var r := Rest(b, o);
    assert o in r.Queue(o.side);
    assert r.Queue(o.side.Opposite()) == b.Queue(o.side.Opposite());
  }

  /** Best bid stays below best ask under LIMIT, MARKET and FILL_OR_KILL orders,
      replenished icebergs included. */
  lemma AddKeepsUncrossed(b: Book, o: OrderData)
    requires Good(b) && Uncrossed(b) && Fresh(o) && IsNew(b, o) && o.kind != ICEBERG
    ensures AllResting(b.Queue(o.side.Opposite()))
    ensures Uncrossed(Add(b, o).book)
  {
    hide Uncrossed, Insert, Run, Resting, Distinct;
    GoodQueues(b);
    SweepKeepsUncrossed(b, o, None);
    var cutoff := LimitOf(o);
    SweepKeepsUncrossed(b, o, cutoff);
    SweepKeeps(b, o, cutoff);
    var s := Sweep(b, o, cutoff);
    if o.kind == LIMIT && s.order.filledQuantity < o.quantity {
      RunKeeps(Start(b, o), cutoff);
      NothingInReach(s.book.Queue(o.side.Opposite()), cutoff);
      RestUncrossed(s.book, Add(b, o).order);
    }
  }

  /** An ICEBERG rests without matching: it keeps the book uncrossed exactly
      when its price does not reach any opposite order on entry. */
  lemma IcebergUncrossedExactly(b: Book, o: OrderData)
    requires Good(b) && Uncrossed(b) && Fresh(o) && o.kind == ICEBERG
    ensures AllResting(b.Queue(o.side.Opposite()))
    ensures Uncrossed(Add(b, o).book) <==>
            forall x :: x in b.Queue(o.side.Opposite()) ==> !Accepts(LimitOf(o), x)
  {
    GoodQueues(b);
    RestUncrossed(b, FirstSlice(o));
  }

  /** An ICEBERG bid at 101 over an ask at 100 rests all the same: the book is crossed. */
  lemma IcebergCrosses()
    ensures var ask := OrderData(Client("a"), "u", "s", SELL, LIMIT, 100.0, 1.0, 0.0, OPEN, None, None, None, None);
            var bid := OrderData(Client("b"), "v", "s", BUY, ICEBERG, 101.0, 5.0, 0.0, PENDING, None, None, Some(1.0),
                                 None);
            var b := Book("s", [], [ask], 0);
            && Good(b) && Uncrossed(b) && Fresh(bid) && IsNew(b, bid)
            && AllResting(b.asks) && !Uncrossed(Add(b, bid).book)
  {
    var ask := OrderData(Client("a"), "u", "s", SELL, LIMIT, 100.0, 1.0, 0.0, OPEN, None, None, None, None);
    var bid := OrderData(Client("b"), "v", "s", BUY, ICEBERG, 101.0, 5.0, 0.0, PENDING, None, None, Some(1.0), None);
    var b := Book("s", [], [ask], 0);
    assert "a" != "b" by { assert "a"[0] != "b"[0]; }
    assert [ask][1..] == [] && Ids([ask]) == {Client("a")} && Ids([]) == {};
    assert Sorted([ask]) && Distinct([ask]) && Sorted([]) && Distinct([]);
    assert forall o :: o in [ask] ==> o == ask;
    assert ask in b.asks && Accepts(LimitOf(bid), ask);
    IcebergUncrossedExactly(b, bid);
  }

  lemma CancelKeepsUncrossed(b: Book, id: OrderId)
    requires Uncrossed(b)
    ensures Uncrossed(Cancel(b, id).0)
  {
    RemoveKeeps(b.bids, id);
    RemoveKeeps(b.asks, id);
  }

  // ---------- cancellation ----------

  /** Cancelling finds exactly the resting orders, takes out only that order
      and leaves every other one in its place. */
  lemma CancelExact(b: Book, id: OrderId) returns (side: Side, k: nat)
    requires Good(b)
    ensures Cancel(b, id).1.Some? <==> id in Ids(b.bids) + Ids(b.asks)
    ensures Cancel(b, id).1.None? ==> Cancel(b, id).0 == b
    ensures Cancel(b, id).1.Some? ==>
              && k < |b.Queue(side)| && b.Queue(side)[k].id == id
              && Cancel(b, id).1.value == b.Queue(side)[k].(status := CANCELLED)
              && Cancel(b, id).0.Queue(side) == b.Queue(side)[..k] + b.Queue(side)[k + 1..]
              && Cancel(b, id).0.Queue(side.Opposite()) == b.Queue(side.Opposite())
              && Cancel(b, id).0.counter == b.counter
              && id !in Ids(Cancel(b, id).0.bids) + Ids(Cancel(b, id).0.asks)
  {
    hide Remove, Find, Sorted;
    side, k := BUY, 0;
    if id in Ids(b.bids) + Ids(b.asks) {
      side := if id in Ids(b.bids) then BUY else SELL;
      var q := b.Queue(side);
      k := RemovePlaces(q, id);
      RemoveKeeps(q, id);
      FindMember(q, q[k]);
    }
  }

  /** Cancelling a LIMIT order that crossed nothing, right after adding it,
      restores the book. */
  lemma CancelUndoesRestingAdd(b: Book, o: OrderData)
    requires Good(b) && Fresh(o) && IsNew(b, o) && o.kind == LIMIT
    requires forall x :: x in b.Queue(o.side.Opposite()) ==> !Accepts(LimitOf(o), x)
    ensures AllResting(b.Queue(o.side.Opposite()))
    ensures Add(b, o).trades == [] && Add(b, o).order.status == OPEN
    ensures Cancel(Add(b, o).book, o.id) == (b, Some(o.(status := CANCELLED)))
  {
    GoodQueues(b);
    var rested := o.(status := OPEN);
    assert b.Queue(o.side.Opposite()) != [] ==> b.Queue(o.side.Opposite())[0] in b.Queue(o.side.Opposite());
    assert Stops(Start(b, o), LimitOf(o));
    RestKeeps(b, rested);
    RemoveUndoesInsert(b.Queue(o.side), rested);
    InsertMembers(b.Queue(o.side), rested);
    FindMember(Rest(b, rested).Queue(o.side), rested);
  }

  // ---------- volume ----------

  /** What an order takes in but neither trades nor leaves in the book. */
  function Dropped(o: OrderData): real {
    if o.status == CANCELLED then Remaining(o) else 0.0
  }

  /** Volume is conserved on both sides by every order: the taker's quantity is
      traded, dropped or resting, and the opposite side loses what is traded. */
  lemma AddConserves(b: Book, o: OrderData)
    requires Good(b) && Fresh(o) && IsNew(b, o) && o.kind in {LIMIT, MARKET, ICEBERG, FILL_OR_KILL}
    ensures AllResting(b.Queue(o.side.Opposite()))
    ensures var r := Add(b, o);
            && Volume(b, o.side) + o.quantity == Volume(r.book, o.side) + Traded(r.trades) + Dropped(r.order)
            && Volume(b, o.side.Opposite()) == Volume(r.book, o.side.Opposite()) + Traded(r.trades)
  {
    hide Good, Insert, Run, Resting, Rank, Accepts, IsNew;
    GoodQueues(b);
    match o.kind {
      case ICEBERG =>
        FirstSliceRests(o);
        SumInsert(Depth, b.Queue(o.side), FirstSlice(o));
      case LIMIT =>
        SweepConserves(b, o, LimitOf(o));
        SweepKeeps(b, o, LimitOf(o));
        if Sweep(b, o, LimitOf(o)).order.filledQuantity < o.quantity {
          SumInsert(Depth, b.Queue(o.side), Add(b, o).order);
        }
      case FILL_OR_KILL =>
        SweepConserves(b, o, None);
        FillOrKillAtomic(b, o);
      case _ =>
        SweepConserves(b, o, None);
        SweepKeeps(b, o, None);
    }
  }

  lemma SweepConserves(b: Book, o: OrderData, cutoff: Option<real>)
    requires Takes(b, o)
    ensures AllResting(b.Queue(o.side.Opposite()))
    ensures var r := Sweep(b, o, cutoff);
            && r.order.filledQuantity == o.filledQuantity + Traded(r.trades)
            && Volume(b, o.side.Opposite()) == Volume(r.book, o.side.Opposite()) + Traded(r.trades)
            && r.book.Queue(o.side) == b.Queue(o.side)
  {
    SweepKeeps(b, o, cutoff);
    FillClosedForm(Start(b, o), cutoff);
  }

  lemma CancelConserves(b: Book, id: OrderId)
    requires Good(b)
    ensures var (b', o) := Cancel(b, id);
            forall side :: Volume(b, side) == Volume(b', side)
                                            + if o.Some? && o.value.side == side then Depth(o.value) else 0.0
  {
    if id in Ids(b.bids) {
      SumRemove(Depth, b.bids, id);
    } else if id in Ids(b.asks) {
      SumRemove(Depth, b.asks, id);
    }
  }
}
