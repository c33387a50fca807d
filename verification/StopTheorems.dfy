/** Conditional orders from the tick to their end: which fire, at what stop, and
    what each of them fills when its turn comes. */
module StopTheorems {
  import opened Types
  import opened Queues
  import opened Matching
  import opened SweepTheorems
  import opened BookTheorems
  import opened Triggers
  import opened Engine

  /** A valid conditional order is accepted without trading: it waits, pending and
      otherwise as submitted, behind those of its symbol, and no book, mark or
      other list changes. */
  lemma ConditionalWaits(e: EngineState, o: OrderData)
    requires GoodEngine(e) && Submittable(e, o) && o.kind in {STOP_LOSS, TRAILING_STOP}
    requires Submit(e, o).1.Accepted?
    ensures var (e', effect) := (Submit(e, o).0, Submit(e, o).1.effect);
            && effect.order == o && o.status == PENDING && effect.trades == [] && effect.stops == []
            && e'.books == e.books && e'.registry.low == e.registry.low && e'.registry.high == e.registry.high
            && e'.registry.Of(o.symbol) == e.registry.Of(o.symbol) + [o]
            && forall s :: s != o.symbol ==> e'.registry.Of(s) == e.registry.Of(s)
  {
    assert o.(status := PENDING) == o;
    RegisterKeeps(e.registry, o);
  }

  /** The marks that a tick leaves: the extreme prices so far. */
  lemma TickMarks(r: Registry, symbol: string, price: real)
    requires r.Of(symbol) != []
    ensures var r' := Tick(r, symbol, price).0;
            && symbol in r'.low && symbol in r'.high
            && r'.low[symbol] == (if symbol in r.low then Min(r.low[symbol], price) else price)
            && r'.high[symbol] == (if symbol in r.high then Max(r.high[symbol], price) else price)
            && forall s :: s != symbol ==>
                 Mark(r'.low, s) == Mark(r.low, s) && Mark(r'.high, s) == Mark(r.high, s)
  {
  }

  /** Where a pending order's stop stands after a tick that left these marks. */
  function StopAt(o: OrderData, low: real, high: real): Option<real> {
    if o.stopPrice.None? || o.kind != TRAILING_STOP || o.trailingDelta.None? then o.stopPrice
    else if o.side == SELL then Some(Max(o.stopPrice.value, high - o.trailingDelta.value))
    else Some(Min(o.stopPrice.value, low + o.trailingDelta.value))
  }

  /** A pending order fires exactly when the tick's price is at or through its
      trailed stop: a SELL's at or below, a BUY's at or above it. It is activated
      as a MARKET order that is otherwise as registered, and goes on waiting if
      it does not fire. */
  lemma FiresExactly(r: Registry, symbol: string, price: real, o: OrderData)
    requires RegistryOk(r) && o in r.Of(symbol)
    ensures var (r', fired) := Tick(r, symbol, price);
            && symbol in r'.low && symbol in r'.high
            && var stop := StopAt(o, r'.low[symbol], r'.high[symbol]);
               var fires := stop.Some? && ((o.side == SELL && price <= stop.value)
                                           || (o.side == BUY && price >= stop.value));
               && (o.id in Ids(fired) <==> fires)
               && (o.id in Ids(r'.Of(symbol)) <==> !fires)
               && (fires ==> o.(kind := MARKET, status := OPEN, stopPrice := stop) in fired)
               && (!fires ==> o.(stopPrice := stop) in r'.Of(symbol))
  {
    hide RegistryOk, Fired, Waiting, TrailAll, ShouldTrigger;
    var (r', fired) := Tick(r, symbol, price);
    TickMarks(r, symbol, price);
    TickKeeps(r, symbol, price);
    var (q, low, high) := (r.Of(symbol), r'.low[symbol], r'.high[symbol]);
    TrailKeeps(q, low, high);
    FiringMembers(TrailAll(q, low, high), price);
    var k :| 0 <= k < |q| && q[k] == o;
    assert Trail(o, low, high) in TrailAll(q, low, high);
    TrailedStop(o, low, high);
    TriggeredStop(Trail(o, low, high), price);
  }

  lemma TrailedStop(o: OrderData, low: real, high: real)
    ensures Trail(o, low, high) == o.(stopPrice := StopAt(o, low, high))
  {
  }

  lemma TriggeredStop(o: OrderData, price: real)
    ensures ShouldTrigger(o, price) <==>
              o.stopPrice.Some? && ((o.side == SELL && price <= o.stopPrice.value)
                                    || (o.side == BUY && price >= o.stopPrice.value))
  {
  }

  // ---------- their turn ----------

  /** Activated stops are swept in their order: each finds the book as the ones
      before it left it, fills the smaller of its quantity and all that the
      opposite side then holds, and exactly that leaves the opposite side. */
  lemma {:induction false} StopFillsAtItsTurn(b: Book, fired: seq<OrderData>, k: nat)
    requires Good(b) && Takers(fired) && k < |fired|
    ensures |SweepStops(b, fired).2| == |fired| && Good(SweepStops(b, fired[..k]).0)
    ensures var (o, end) := (fired[k], SweepStops(b, fired).2[k]);
            var (turn, after) := (SweepStops(b, fired[..k]).0, SweepStops(b, fired[..k + 1]).0);
            && end == o.(filledQuantity := end.filledQuantity, status := end.status)
            && end.filledQuantity == Min(o.quantity, Volume(turn, o.side.Opposite()))
            && Volume(after, o.side.Opposite()) == Volume(turn, o.side.Opposite()) - end.filledQuantity
            && after.Queue(o.side) == turn.Queue(o.side)
    decreases |fired|
  {
    hide Good, Sweep, Volume;
    SweepKeeps(b, fired[0], None);
    var r := Sweep(b, fired[0], None);
    if k == 0 {
      FirstStop(b, fired);
    } else {
      StopFillsAtItsTurn(r.book, fired[1..], k - 1);
      assert fired[..k][1..] == fired[1..][..k - 1] && fired[..k + 1][1..] == fired[1..][..k];
    }
    StopsLength(b, fired);
  }

  lemma {:induction false} StopsLength(b: Book, fired: seq<OrderData>)
    requires Good(b) && Takers(fired)
    ensures |SweepStops(b, fired).2| == |fired|
    decreases |fired|
  {
    hide Good, Sweep;
    if fired != [] {
      SweepKeeps(b, fired[0], None);
      StopsLength(Sweep(b, fired[0], None).book, fired[1..]);
    }
  }

  lemma FirstStop(b: Book, fired: seq<OrderData>)
    requires Good(b) && Takers(fired) && fired != []
    ensures AllResting(b.Queue(fired[0].side.Opposite()))
    ensures var (o, r) := (fired[0], Sweep(b, fired[0], None));
            && fired[..0] == [] && fired[..1] == [o]
            && Good(r.book) && SweepStops(b, fired[..1]).0 == r.book
            && SweepStops(b, fired).2 != [] && SweepStops(b, fired).2[0] == r.order.(status := StopStatus(r.order))
            && r.order == o.(filledQuantity := r.order.filledQuantity, status := r.order.status)
            && r.order.filledQuantity == Min(o.quantity, Volume(b, o.side.Opposite()))
            && Volume(r.book, o.side.Opposite()) == Volume(b, o.side.Opposite()) - r.order.filledQuantity
            && r.book.Queue(o.side) == b.Queue(o.side)
  {
    hide Good, Sorted, Distinct, Run;
    var o := fired[0];
    GoodQueues(b);
    SweepKeeps(b, o, None);
    SweepConserves(b, o, None);
    FillClosedForm(Start(b, o), None);
    SumAgree(Reach(None), Depth, b.Queue(o.side.Opposite()));
    assert fired[..1] == [o] && [o][1..] == [];
  }

  lemma SweepLeftover(b: Book, o: OrderData)
    requires Takes(b, o)
    ensures AllResting(b.Queue(o.side.Opposite()))
    ensures var r := Sweep(b, o, None);
            && (r.order.filledQuantity < o.quantity ==> r.book.Queue(o.side.Opposite()) == [])
            && (b.Queue(o.side.Opposite()) == [] ==> r.book.Queue(o.side.Opposite()) == [])
  {
    hide Sorted, Distinct;
    GoodQueues(b);
    SweepKeeps(b, o, None);
    RunKeeps(Start(b, o), None);
    SweepConserves(b, o, None);
    var r := Sweep(b, o, None);
    if b.Queue(o.side.Opposite()) == [] {
      assert Stops(Start(b, o), None);
    }
  }

  lemma {:induction false} StopsLeaveEmpty(b: Book, fired: seq<OrderData>, side: Side)
    requires Good(b) && Takers(fired) && b.Queue(side) == []
    ensures SweepStops(b, fired).0.Queue(side) == []
    decreases |fired|
  {
    hide Good, Sweep;
    if fired != [] {
      SweepKeeps(b, fired[0], None);
      SweepLeftover(b, fired[0]);
      assert side == fired[0].side || side == fired[0].side.Opposite();
      StopsLeaveEmpty(Sweep(b, fired[0], None).book, fired[1..], side);
    }
  }

  lemma {:induction false} UnfilledStops(b: Book, fired: seq<OrderData>, x: OrderData)
    requires Good(b) && Takers(fired) && x in SweepStops(b, fired).2 && x.filledQuantity < x.quantity
    ensures SweepStops(b, fired).0.Queue(x.side.Opposite()) == []
    decreases |fired|
  {
    hide Good, Sweep;
    SweepKeeps(b, fired[0], None);
    SweepLeftover(b, fired[0]);
    var r := Sweep(b, fired[0], None);
    if x in SweepStops(r.book, fired[1..]).2 {
      UnfilledStops(r.book, fired[1..], x);
    } else {
      StopsLeaveEmpty(r.book, fired[1..], x.side.Opposite());
    }
  }

  /** No activated stop goes short while there is anything to trade with: one
      that a submission leaves unfilled has left its opposite side empty. */
  lemma UnfilledStopsLeaveNothing(e: EngineState, o: OrderData, x: OrderData)
    requires GoodEngine(e) && Submittable(e, o) && Submit(e, o).1.Accepted?
    requires x in Submit(e, o).1.effect.stops && x.filledQuantity < x.quantity
    ensures o.symbol in Submit(e, o).0.books
    ensures Submit(e, o).0.books[o.symbol].Queue(x.side.Opposite()) == []
  {
    hide GoodEngine, Submittable, Good, Add, Tick, Fresh, IsNew, SweepStops, Validate;
    if !IsConditional(o) {
      SubmitToBook(e, o);
      var r := Add(e.books[o.symbol], o);
      var last := r.trades[|r.trades| - 1].price;
      FiredAreTakers(e, o.symbol, last);
      UnfilledStops(r.book, Tick(e.registry, o.symbol, last).1, x);
    }
  }

  // ---------- rejections ----------

  /** A rejection names the first of the checks that fails. */
  lemma RejectedByFirstCheck(e: EngineState, o: OrderData)
    requires GoodEngine(e) && Submittable(e, o) && Submit(e, o).1.Rejected?
    ensures var reason := Submit(e, o).1.reason;
            var named := !Blank(NameOf(o.id));
            var known := named && !Blank(o.userId);
            var listed := known && o.symbol in e.books;
            var sized := listed && o.quantity > 0.0;
            && (reason == InvalidId <==> !named)
            && (reason == InvalidUser <==> named && Blank(o.userId))
            && (reason == UnsupportedSymbol <==> known && o.symbol !in e.books)
            && (reason == NonPositiveQuantity <==> listed && o.quantity <= 0.0)
            && (reason == NonPositivePrice <==> sized && o.kind in {LIMIT, ICEBERG} && o.price <= 0.0)
            && (reason == MissingStopPrice <==> sized && o.kind in {STOP_LOSS, TRAILING_STOP}
                                                && (o.stopPrice.None? || o.stopPrice.value <= 0.0))
  {
    hide GoodEngine, Submittable, Blank;
    AcceptedExactly(e, o);
    if Validate(e.books.Keys, o).None? && !IsConditional(o) {
      SubmitToBook(e, o);
    }
  }

  // ---------- cancels ----------

  /** A cancel is for a supported symbol, and finds an order exactly if its id
      rests in that symbol's book or waits in any pending list; it takes that one
      order out of where it is, and a cancel that finds none changes nothing. */
  lemma CancelsExactly(e: EngineState, s: string, id: OrderId)
    requires GoodEngine(e)
    ensures var (e', r) := CancelIn(e, s, id);
            var resting := s in e.books && id in Ids(e.books[s].bids) + Ids(e.books[s].asks);
            && (r == Unsupported <==> s !in e.books) && !r.Submitted?
            && (r.Cancelled? ==> (r.order.Some? <==> resting || IsPending(e.registry, id)))
            && (r.Cancelled? && r.order.Some? ==> r.order.value.id == id && r.order.value.status == CANCELLED)
            && (resting ==>
                  && e'.registry == e.registry && e'.books.Keys == e.books.Keys
                  && id !in Ids(e'.books[s].bids) + Ids(e'.books[s].asks)
                  && forall t :: t in e.books && t != s ==> e'.books[t] == e.books[t])
            && (!resting ==> e'.books == e.books)
            && (s in e.books && !resting && IsPending(e.registry, id) ==> !IsPending(e'.registry, id))
            && ((s !in e.books || (!resting && !IsPending(e.registry, id))) ==> e' == e)
  {
    hide Remove, RegistryOk, PendingFresh, Good;
    if s in e.books {
      var side, k := CancelExact(e.books[s], id);
      if IsPending(e.registry, id) {
        var t :| id in Ids(e.registry.Of(t));
        CancelPendingExact(e.registry, id, t);
      }
    }
  }
}
