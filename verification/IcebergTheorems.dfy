/** What icebergs show: the slice they enter with, the slices that follow, and
    that no resting iceberg ever shows more than its display quantity. */
module IcebergTheorems {
  import opened Types
  import opened Queues
  import opened Matching
  import opened SweepTheorems
  import opened BookTheorems
  import opened Triggers
  import opened Engine
  import opened EngineTheorems

  // ---------- entering and replenishing ----------

  /** An iceberg enters without trading and rests on its own side. It shows its
      display quantity, by default a tenth of the order and at least one unit,
      and never more than it has; the rest is hidden. */
  lemma IcebergEnters(b: Book, o: OrderData)
    requires Good(b) && Fresh(o) && IsNew(b, o) && o.kind == ICEBERG
    ensures AllResting(b.Queue(o.side.Opposite()))
    ensures var r := Add(b, o);
            var size := if o.displayQty.Some? && o.displayQty.value > 0.0 then o.displayQty.value
                        else Max(1.0, o.quantity / 10.0);
            && r.trades == [] && r.order in r.book.Queue(o.side)
            && r.order.id == o.id && r.order.userId == o.userId && r.order.price == o.price
            && r.order.displayQty == Some(size) && Remaining(r.order) == Min(size, o.quantity)
            && Hidden(r.order) == o.quantity - Min(size, o.quantity)
            && Visible(r.book, o.side) == Visible(b, o.side) + Min(size, o.quantity)
            && r.book.Queue(o.side.Opposite()) == b.Queue(o.side.Opposite())
  {
    GoodQueues(b);
    hide Good, Insert;
    InsertMembers(b.Queue(o.side), FirstSlice(o));
    SumInsert(Remaining, b.Queue(o.side), FirstSlice(o));
  }

  /** A fill that takes the last of a visible slice brings the next one: an
      unfilled order of the same user, side, price and display quantity, showing
      that quantity or all that was hidden, with the rest still hidden. */
  lemma SliceFollows(m: Match, cutoff: Option<real>) returns (slice: OrderData)
    requires Ready(m) && !Stops(m, cutoff) && Hidden(m.queue[0]) > 0.0 && FillSize(m) == Remaining(m.queue[0])
    ensures var (head, size) := (m.queue[0], m.queue[0].displayQty);
            && slice in Step(m).queue && slice.id == Slice(head.id, m.counter + 1)
            && slice.userId == head.userId && slice.symbol == head.symbol
            && slice.side == head.side && slice.price == head.price && slice.kind == ICEBERG
            && slice.filledQuantity == 0.0 && slice.status == OPEN
            && size.Some? && slice.displayQty == size
            && Remaining(slice) == Min(size.value, Hidden(head))
            && Hidden(slice) == Hidden(head) - Min(size.value, Hidden(head))
    ensures Sum(Remaining, Step(m).queue) == Sum(Remaining, m.queue) - FillSize(m) + Remaining(slice)
  {
    hide Sorted, Distinct, Insert;
    Continue(m, cutoff);
    slice := NextSlice(m.queue[0], m.counter + 1);
    InsertMembers(m.queue[1..], slice);
    SumInsert(Remaining, m.queue[1..], slice);
  }

  // ---------- resting ----------

  /** An iceberg shows at most its display quantity, and just that while
      anything of it is hidden. */
  predicate ShowsSlice(o: OrderData) {
    o.kind == ICEBERG && o.displayQty.Some? ==>
      && o.quantity <= o.displayQty.value
      && (Hidden(o) > 0.0 ==> o.quantity == o.displayQty.value)
  }

  ghost predicate AllShow(q: seq<OrderData>) {
    forall o :: o in q ==> ShowsSlice(o)
  }

  lemma StepShows(m: Match, cutoff: Option<real>)
    requires Ready(m) && !Stops(m, cutoff) && AllShow(m.queue)
    ensures AllShow(Step(m).queue)
  {
    hide Sorted, Distinct, Insert;
    Continue(m, cutoff);
    var (q, h) := (m.queue, m.queue[0]);
    assert q == [h] + q[1..] && ShowsSlice(h);
    if Hidden(h) > 0.0 {
      InsertMembers(q[1..], NextSlice(h, m.counter + 1));
    }
  }

  lemma {:induction false} RunShows(m: Match, cutoff: Option<real>)
    requires Ready(m) && AllShow(m.queue)
    ensures AllShow(Run(m, cutoff).queue)
    decreases Sum(Effort, m.queue), if Remaining(m.taker) > 0.0 then 1 else 0
  {
    hide AllShow;
    if !Stops(m, cutoff) {
      Continue(m, cutoff);
      StepShows(m, cutoff);
      RunShows(Step(m), cutoff);
    }
  }

  ghost predicate BookShows(b: Book) {
    AllShow(b.bids) && AllShow(b.asks)
  }

  lemma SweepShows(b: Book, o: OrderData, cutoff: Option<real>)
    requires Takes(b, o) && BookShows(b)
    ensures AllResting(b.Queue(o.side.Opposite())) && BookShows(Sweep(b, o, cutoff).book)
  {
    hide AllShow, Run;
    GoodQueues(b);
    RunShows(Start(b, o), cutoff);
  }

  lemma RestShows(b: Book, o: OrderData)
    requires BookShows(b) && ShowsSlice(o)
    ensures BookShows(Rest(b, o))
  {
    InsertMembers(b.Queue(o.side), o);
  }

  lemma AddShows(b: Book, o: OrderData)
    requires Good(b) && Fresh(o) && IsNew(b, o) && BookShows(b)
    ensures AllResting(b.Queue(o.side.Opposite())) && BookShows(Add(b, o).book)
  {
    hide BookShows, Good, Run, Insert;
    GoodQueues(b);
    SweepShows(b, o, None);
    SweepShows(b, o, LimitOf(o));
    SweepKeeps(b, o, LimitOf(o));
    if o.kind == ICEBERG {
      RestShows(b, FirstSlice(o));
    } else if o.kind == LIMIT && Add(b, o).order.status != FILLED {
      RestShows(Sweep(b, o, LimitOf(o)).book, Add(b, o).order);
    }
  }

  lemma CancelShows(b: Book, id: OrderId)
    requires BookShows(b)
    ensures BookShows(Cancel(b, id).0)
  {
    RemoveKeeps(b.bids, id);
    RemoveKeeps(b.asks, id);
  }

  lemma {:induction false} StopsShow(b: Book, fired: seq<OrderData>)
    requires Good(b) && Takers(fired) && BookShows(b)
    ensures BookShows(SweepStops(b, fired).0)
    decreases |fired|
  {
    hide BookShows, Good, Sweep;
    if fired != [] {
      SweepKeeps(b, fired[0], None);
      SweepShows(b, fired[0], None);
      StopsShow(Sweep(b, fired[0], None).book, fired[1..]);
    }
  }

  ghost predicate EngineShows(e: EngineState) {
    forall s :: s in e.books ==> BookShows(e.books[s])
  }

  lemma CommandShows(e: EngineState, c: Command)
    requires Admissible(e, c) && EngineShows(e)
    ensures EngineShows(Execute(e, c).0)
  {
    hide BookShows, Good, GoodEngine, Submittable, Add, Cancel, CancelPending, Fresh, IsNew, Tick, Validate, SweepStops;
    ExecuteKeeps(e, c);
    match c {
      case Submitting(o) =>
        if Validate(e.books.Keys, o).None? && !IsConditional(o) {
          SubmitToBook(e, o);
          AddShows(e.books[o.symbol], o);
          var r := Add(e.books[o.symbol], o);
          if r.trades != [] {
            var last := r.trades[|r.trades| - 1].price;
            FiredAreTakers(e, o.symbol, last);
            StopsShow(r.book, Tick(e.registry, o.symbol, last).1);
          }
        }
      case Cancelling(s, id) =>
        if s in e.books {
          CancelShows(e.books[s], id);
        }
    }
  }

  lemma {:induction false} RunShowsSlices(e: EngineState, commands: seq<Command>)
    requires AdmissibleRun(e, commands) && EngineShows(e)
    ensures EngineShows(RunCommands(e, commands))
    decreases |commands|
  {
    hide EngineShows, Execute, Admissible;
    if commands != [] {
      CommandShows(e, commands[0]);
      RunShowsSlices(Execute(e, commands[0]).0, commands[1..]);
    }
  }

  /** After any run of an engine that starts empty, every resting iceberg shows
      at most its display quantity, and a whole slice while it hides anything. */
  lemma IcebergsShowSlices(symbols: set<string>, commands: seq<Command>, s: string, o: OrderData)
    requires UniqueIds(commands, {})
    ensures AdmissibleRun(EmptyEngine(symbols), commands)
    ensures var e := RunCommands(EmptyEngine(symbols), commands);
            s in e.books && (o in e.books[s].bids || o in e.books[s].asks) && o.kind == ICEBERG ==>
              && o.displayQty.Some? && o.hiddenQty.Some?
              && 0.0 < o.quantity <= o.displayQty.value && o.hiddenQty.value >= 0.0
              && (o.hiddenQty.value > 0.0 ==> o.quantity == o.displayQty.value)
  {
    var e := EmptyEngine(symbols);
    forall t ensures Keeps(e.registry, t) {
    }
    UniqueIdsAreAdmissible(e, commands, {});
    RunShowsSlices(e, commands);
    RunKeepsGood(e, commands);
  }

  lemma {:induction false} RunKeepsGood(e: EngineState, commands: seq<Command>)
    requires AdmissibleRun(e, commands) && GoodEngine(e)
    ensures GoodEngine(RunCommands(e, commands))
    decreases |commands|
  {
    hide GoodEngine, Execute;
    if commands != [] {
      ExecuteKeeps(e, commands[0]);
      RunKeepsGood(Execute(e, commands[0]).0, commands[1..]);
    }
  }
}
