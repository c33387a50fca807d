/** Whole runs of the engine: volume, crossing, activated stops and registration order. */
module EngineTheorems {
  import opened Types
  import opened Queues
  import opened Matching
  import opened SweepTheorems
  import opened BookTheorems
  import opened Triggers
  import opened Engine

  // ---------- runs ----------

  ghost predicate AdmissibleRun(e: EngineState, commands: seq<Command>)
    decreases |commands|
  {
    commands != [] ==>
      && Admissible(e, commands[0])
      && AdmissibleRun(Execute(e, commands[0]).0, commands[1..])
  }

  ghost function RunCommands(e: EngineState, commands: seq<Command>): EngineState
    requires AdmissibleRun(e, commands)
    decreases |commands|
  {
    if commands == [] then e else RunCommands(Execute(e, commands[0]).0, commands[1..])
  }

  /** What clients must see to: proper new orders under ids never used before. */
  predicate UniqueIds(commands: seq<Command>, used: set<OrderId>) {
    commands != [] ==>
      match commands[0]
      case Submitting(o) =>
        && o.id.Client? && o.id !in used && o.filledQuantity == 0.0 && o.hiddenQty == None && o.status == PENDING
        && UniqueIds(commands[1..], used + {o.id})
      case Cancelling(_, _) => UniqueIds(commands[1..], used)
  }

  /** Client ids in a book or pending are among those used so far. */
  ghost predicate OnlyUses(e: EngineState, used: set<OrderId>) {
    && (forall s, o: OrderData :: s in e.books && o.id.Client? && o.id !in used ==> IsNew(e.books[s], o))
    && forall id :: IsPending(e.registry, id) ==> id in used
  }

  lemma {:induction false} UniqueIdsAreAdmissible(e: EngineState, commands: seq<Command>, used: set<OrderId>)
    requires GoodEngine(e) && OnlyUses(e, used) && UniqueIds(commands, used)
    ensures AdmissibleRun(e, commands)
    decreases |commands|
  {
    if commands != [] {
      var c := commands[0];
      var used' := UsedNext(e, c, used);
      UniqueIdsAreAdmissible(Execute(e, c).0, commands[1..], used');
    }
  }

  lemma UsedNext(e: EngineState, c: Command, used: set<OrderId>) returns (used': set<OrderId>)
    requires GoodEngine(e) && OnlyUses(e, used) && UniqueIds([c], used)
    ensures used' == if c.Submitting? then used + {c.order.id} else used
    ensures Admissible(e, c) && GoodEngine(Execute(e, c).0) && OnlyUses(Execute(e, c).0, used')
  {
    used' := if c.Submitting? then used + {c.order.id} else used;
    match c {
      case Submitting(o) =>
        ExecuteKeeps(e, c);
        SubmitUses(e, o, used);
      case Cancelling(s, id) =>
        ExecuteKeeps(e, c);
        CancelUses(e, s, id, used);
    }
  }

  lemma BookUses(b: Book, o: OrderData)
    requires Good(b) && Fresh(o) && IsNew(b, o)
    ensures AllResting(b.Queue(o.side.Opposite()))
    ensures forall x: OrderData :: x.id.Client? && IsNew(b, x) && x.id != o.id ==> IsNew(Add(b, o).book, x)
  {
    GoodQueues(b);
    AddKeepsGood(b, o);
    SweepAddsNoClient(b, o, LimitOf(o));
    SweepAddsNoClient(b, o, None);
    RestAddsOne(b, FirstSlice(o));
    var s := Sweep(b, o, LimitOf(o));
    RestAddsOne(s.book, s.order.(status := StatusFor(s.order.filledQuantity)));
    SweepKeeps(b, o, LimitOf(o));
    forall x: OrderData | x.id.Client? && IsNew(b, x) && x.id != o.id ensures IsNew(Add(b, o).book, x) {
      assert IsNew(s.book, x);
      match o.kind {
        case ICEBERG =>
        case LIMIT =>
        case _ =>
      }
    }
  }

  lemma RestAddsOne(b: Book, o: OrderData)
    ensures forall x: OrderData :: IsNew(b, x) && x.id != o.id ==> IsNew(Rest(b, o), x)
  {
    InsertMembers(b.Queue(o.side), o);
  }

  lemma SubmitUses(e: EngineState, o: OrderData, used: set<OrderId>)
    requires GoodEngine(e) && Submittable(e, o) && OnlyUses(e, used)
    ensures OnlyUses(Submit(e, o).0, used + {o.id})
  {
    if Validate(e.books.Keys, o).None? {
      FreshAfterValidation(e, o);
      if IsConditional(o) {
        RegisterPends(e.registry, o);
      } else {
        SubmitToBook(e, o);
        BookUses(e.books[o.symbol], o);
        var r := Add(e.books[o.symbol], o);
        if r.trades != [] {
          var last := r.trades[|r.trades| - 1].price;
          FiredAreTakers(e, o.symbol, last);
          TickPends(e.registry, o.symbol, last);
          SweepStopsKeeps(r.book, Tick(e.registry, o.symbol, last).1);
        }
      }
    }
  }

  lemma CancelKeepsNew(b: Book, id: OrderId)
    ensures forall x :: IsNew(b, x) ==> IsNew(Cancel(b, id).0, x)
  {
    RemoveKeeps(b.bids, id);
    RemoveKeeps(b.asks, id);
  }

  lemma CancelUses(e: EngineState, s: string, id: OrderId, used: set<OrderId>)
    requires GoodEngine(e) && OnlyUses(e, used)
    ensures OnlyUses(CancelIn(e, s, id).0, used)
  {
    hide Good, PendingFresh, RegistryOk, IsNew, Cancel;
    if s in e.books {
      CancelKeepsNew(e.books[s], id);
      if IsPending(e.registry, id) {
        var t :| id in Ids(e.registry.Of(t));
        CancelPends(e.registry, id, t);
      }
    }
  }

  // ---------- volume ----------

  function OnSide(side: Side): OrderData -> real {
    (o: OrderData) => if o.side == side then Remaining(o) else 0.0
  }

  /** Quantity of a symbol and side still in the engine: visible, hidden, and pending. */
  ghost function Outstanding(e: EngineState, symbol: string, side: Side): real {
    (if symbol in e.books then Volume(e.books[symbol], side) else 0.0) + Sum(OnSide(side), e.registry.Of(symbol))
  }

  /** Quantity one command brings into a symbol and side. */
  function Entered(c: Command, r: Response, symbol: string, side: Side): real {
    if c.Submitting? && r.Submitted? && r.reply.Accepted? && c.order.symbol == symbol && c.order.side == side
    then c.order.quantity else 0.0
  }

  /** Total quantity of the trades one command makes in a symbol. */
  function TradedIn(c: Command, r: Response, symbol: string): real {
    if c.Symbol() == symbol && r.Submitted? && r.reply.Accepted? then Traded(r.reply.effect.trades) else 0.0
  }

  /** What the orders of one side fill when an order is added: the order itself
      on its own side, the resting orders, hidden quantity included, on the other. */
  ghost function FilledByAdd(b: Book, o: OrderData, side: Side): real
    requires AllResting(b.Queue(o.side.Opposite()))
  {
    if side == o.side then Add(b, o).order.filledQuantity else Volume(b, side) - Volume(Add(b, o).book, side)
  }

  /** The same for activated stops, swept one after the other. */
  ghost function FilledByStops(b: Book, fired: seq<OrderData>, side: Side): real
    requires Good(b) && Takers(fired)
    decreases |fired|
  {
    if fired == [] then 0.0
    else
      SweepKeeps(b, fired[0], None);
      var r := Sweep(b, fired[0], None);
      (if side == fired[0].side then r.order.filledQuantity else Volume(b, side) - Volume(r.book, side))
      + FilledByStops(r.book, fired[1..], side)
  }

  /** What one command fills of the orders of one side, as takers, as makers and
      as activated stops. */
  ghost function FilledIn(e: EngineState, c: Command, symbol: string, side: Side): real
    requires Admissible(e, c)
  {
    if c.Submitting? && c.order.symbol == symbol && Validate(e.books.Keys, c.order).None?
        && !IsConditional(c.order) then
      FreshAfterValidation(e, c.order);
      AddKeepsGood(e.books[symbol], c.order);
      var r := Add(e.books[symbol], c.order);
      FilledByAdd(e.books[symbol], c.order, side) +
      if r.trades == [] then 0.0
      else
        FiredAreTakers(e, symbol, r.trades[|r.trades| - 1].price);
        FilledByStops(r.book, Tick(e.registry, symbol, r.trades[|r.trades| - 1].price).1, side)
    else 0.0
  }

  lemma AddFillsTraded(b: Book, o: OrderData, side: Side)
    requires Good(b) && Fresh(o) && IsNew(b, o) && !IsConditional(o)
    ensures AllResting(b.Queue(o.side.Opposite()))
    ensures FilledByAdd(b, o, side) == Traded(Add(b, o).trades)
  {
    hide Fresh, IsNew, Good;
    assert o.kind == LIMIT || o.kind == MARKET || o.kind == ICEBERG || o.kind == FILL_OR_KILL;
    AddConserves(b, o);
    AddFills(b, o);
    assert side == o.side || side == o.side.Opposite();
  }

  lemma AddFills(b: Book, o: OrderData)
    requires Good(b) && Fresh(o)
    ensures AllResting(b.Queue(o.side.Opposite()))
    ensures Add(b, o).order.filledQuantity == Traded(Add(b, o).trades)
  {
    GoodQueues(b);
    hide Good, Volume, Run, Traded;
    SweepConserves(b, o, None);
    SweepConserves(b, o, LimitOf(o));
    assert Traded([]) == 0.0;
  }

  lemma {:induction false} StopsFillTraded(b: Book, fired: seq<OrderData>, side: Side)
    requires Good(b) && Takers(fired)
    ensures FilledByStops(b, fired, side) == Traded(SweepStops(b, fired).1)
    decreases |fired|
  {
    hide Good, Volume, Sweep;
    if fired != [] {
      SweepKeeps(b, fired[0], None);
      SweepConserves(b, fired[0], None);
      var r := Sweep(b, fired[0], None);
      StopsFillTraded(r.book, fired[1..], side);
      TradedConcat(r.trades, SweepStops(r.book, fired[1..]).1);
      assert side == fired[0].side || side == fired[0].side.Opposite();
    }
  }

  /** Buyers and sellers fill the same: on either side, exactly what is traded. */
  lemma FilledIsTraded(e: EngineState, c: Command, symbol: string, side: Side)
    requires Admissible(e, c)
    ensures FilledIn(e, c, symbol, side) == TradedIn(c, Execute(e, c).1, symbol)
  {
    hide GoodEngine, Good, Submittable, Fresh, IsNew, FilledByAdd, FilledByStops, SweepStops, Tick;
    assert Traded([]) == 0.0;
    if c.Submitting? && c.order.symbol == symbol && Validate(e.books.Keys, c.order).None? && !IsConditional(c.order) {
      SubmitToBook(e, c.order);
      var (b, r) := (e.books[symbol], Add(e.books[symbol], c.order));
      AddFillsTraded(b, c.order, side);
      if r.trades != [] {
        var last := r.trades[|r.trades| - 1].price;
        FiredAreTakers(e, symbol, last);
        StopsFillTraded(r.book, Tick(e.registry, symbol, last).1, side);
        TradedConcat(r.trades, SweepStops(r.book, Tick(e.registry, symbol, last).1).1);
      }
    }
  }

  /** Quantity one command drops: unfilled MARKET remainders, rejected
      FILL_OR_KILLs, activated stops that end off the book, and cancellations. */
  ghost function DroppedIn(e: EngineState, c: Command, r: Response, symbol: string, side: Side): real {
    match c
    case Submitting(o) =>
      if r.Submitted? && r.reply.Accepted? && o.symbol == symbol then
        (if o.side == side then Dropped(r.reply.effect.order) else 0.0) + Sum(OnSide(side), r.reply.effect.stops)
      else 0.0
    case Cancelling(s, id) =>
      if s !in e.books then 0.0
      else if Cancel(e.books[s], id).1.Some? then
        var o := Cancel(e.books[s], id).1.value;
        if s == symbol && o.side == side then Depth(o) else 0.0
      else if IsPending(e.registry, id) then
        var o := CancelPending(e.registry, id).1.value;
        if o.symbol == symbol && o.side == side then Remaining(o) else 0.0
      else 0.0
  }

  lemma {:induction false} TradedConcat(a: seq<TradeExecution>, b: seq<TradeExecution>)
    ensures Traded(a + b) == Traded(a) + Traded(b)
  {
    if b == [] {
      assert a + b == a;
    } else {
      assert (a + b)[..|a + b| - 1] == a + b[..|b| - 1];
      TradedConcat(a, b[..|b| - 1]);
    }
  }

  lemma {:induction false} TickConserves(q: seq<OrderData>, low: real, high: real, price: real, side: Side)
    ensures var trailed := TrailAll(q, low, high);
            Sum(OnSide(side), q) == Sum(OnSide(side), Fired(trailed, price))
                + Sum(OnSide(side), Waiting(trailed, price))
  {
    if q != [] {
      TickConserves(q[1..], low, high, price, side);
      var t, rest := TrailAll(q, low, high), TrailAll(q[1..], low, high);
      assert t[0] == Trail(q[0], low, high) && t[1..] == rest;
      SumConcat(OnSide(side), [Promoted(t[0])], Fired(rest, price));
      SumConcat(OnSide(side), [t[0]], Waiting(rest, price));
      assert Sum(OnSide(side), [Promoted(t[0])]) == Sum(OnSide(side), [t[0]]) == OnSide(side)(q[0]);
      if ShouldTrigger(t[0], price) {
        assert Waiting(t, price) == Waiting(rest, price);
      } else {
        assert Fired(t, price) == Fired(rest, price);
      }
    }
  }

  /** Activated stops: what they trade leaves the opposite side, what they do not is dropped. */
  lemma {:induction false} StopsConserve(b: Book, fired: seq<OrderData>, side: Side)
    requires Good(b) && Takers(fired)
    ensures var (b', trades, stops) := SweepStops(b, fired);
            Volume(b, side) + Sum(OnSide(side), fired)
            == Volume(b', side) + Traded(trades) + Sum(OnSide(side), stops)
    decreases |fired|
  {
    if fired != [] {
      var o := fired[0];
      SweepKeeps(b, o, None);
      SweepConserves(b, o, None);
      var r := Sweep(b, o, None);
      StopsConserve(r.book, fired[1..], side);
      var (b', trades, stops) := SweepStops(b, fired);
      var rest := SweepStops(r.book, fired[1..]);
      TradedConcat(r.trades, rest.1);
      assert stops[1..] == rest.2;
      assert side == o.side || side == o.side.Opposite();
    }
  }

  lemma ActivateConserves(e: EngineState, symbol: string, b: Book, last: real, side: Side)
    requires GoodEngine(e) && Good(b) && symbol in e.books && b.symbol == symbol
    ensures var (e', trades, stops) := Activate(e, symbol, b, last);
            Volume(b, side) + Sum(OnSide(side), e.registry.Of(symbol))
            == Outstanding(e', symbol, side) + Traded(trades) + Sum(OnSide(side), stops)
  {
    FiredAreTakers(e, symbol, last);
    var q := e.registry.Of(symbol);
    var (registry, fired) := Tick(e.registry, symbol, last);
    if q != [] {
      var high, low := Raised(Mark(e.registry.high, symbol), last), Lowered(Mark(e.registry.low, symbol), last);
      TickConserves(q, low, high, last, side);
      assert registry.Of(symbol) == Waiting(TrailAll(q, low, high), last);
    }
    StopsConserve(b, fired, side);
  }

  /** Volume is conserved by every command, on every symbol and both sides. */
  lemma CommandConserves(e: EngineState, c: Command, symbol: string, side: Side)
    requires Admissible(e, c)
    ensures var (e', r) := Execute(e, c);
            Outstanding(e, symbol, side) + Entered(c, r, symbol, side)
            == Outstanding(e', symbol, side) + FilledIn(e, c, symbol, side) + DroppedIn(e, c, r, symbol, side)
  {
    FilledIsTraded(e, c, symbol, side);
    match c {
      case Submitting(o) =>
        if Validate(e.books.Keys, o).None? {
          FreshAfterValidation(e, o);
          if o.symbol == symbol {
            SubmitConserves(e, o, side);
          } else {
            SubmitElsewhere(e, o, symbol);
          }
        }
      case Cancelling(s, id) =>
        CancelConservesIn(e, s, id, symbol, side);
    }
  }

  lemma SubmitElsewhere(e: EngineState, o: OrderData, symbol: string)
    requires GoodEngine(e) && Submittable(e, o) && Validate(e.books.Keys, o).None? && o.symbol != symbol
    ensures Submit(e, o).0.registry.Of(symbol) == e.registry.Of(symbol)
    ensures symbol in Submit(e, o).0.books <==> symbol in e.books
    ensures symbol in e.books ==> Submit(e, o).0.books[symbol] == e.books[symbol]
  {
    if IsConditional(o) {
      RegisterKeeps(e.registry, o);
    } else {
      SubmitToBook(e, o);
      var r := Add(e.books[o.symbol], o);
      if r.trades != [] {
        TickKeeps(e.registry, o.symbol, r.trades[|r.trades| - 1].price);
      }
    }
  }

  lemma SubmitConserves(e: EngineState, o: OrderData, side: Side)
    requires GoodEngine(e) && Submittable(e, o) && Validate(e.books.Keys, o).None?
    ensures var (e', reply) := Submit(e, o);
            && reply.Accepted?
            && Outstanding(e, o.symbol, side) + (if o.side == side then o.quantity else 0.0)
               == Outstanding(e', o.symbol, side) + Traded(reply.effect.trades)
                + (if o.side == side then Dropped(reply.effect.order) else 0.0) + Sum(OnSide(side), reply.effect.stops)
  {
    hide Good, RegistryOk, PendingFresh, Volume, Add, Activate, IsPending, Fresh, IsNew;
    FreshAfterValidation(e, o);
    if IsConditional(o) {
      RegisterConserves(e.registry, o, side);
    } else {
      SubmitToBook(e, o);
      AddConservesOn(e.books[o.symbol], o, side);
      var r := Add(e.books[o.symbol], o);
      if r.trades != [] {
        var last := r.trades[|r.trades| - 1].price;
        ActivateConserves(e, o.symbol, r.book, last, side);
        TradedConcat(r.trades, Activate(e, o.symbol, r.book, last).1);
      }
    }
  }

  lemma RegisterConserves(r: Registry, o: OrderData, side: Side)
    requires RegistryOk(r) && IsConditional(o) && !IsPending(r, o.id) && o.filledQuantity == 0.0
    ensures Sum(OnSide(side), Register(r, o).Of(o.symbol))
         == Sum(OnSide(side), r.Of(o.symbol)) + (if o.side == side then o.quantity else 0.0)
  {
    var p := o.(status := PENDING);
    RegisterKeeps(r, o);
    SumConcat(OnSide(side), r.Of(o.symbol), [p]);
    assert Sum(OnSide(side), [p]) == OnSide(side)(p);
  }

  lemma AddConservesOn(b: Book, o: OrderData, side: Side)
    requires Good(b) && Fresh(o) && IsNew(b, o) && !IsConditional(o)
    ensures AllResting(b.Queue(o.side.Opposite()))
    ensures var r := Add(b, o);
            Volume(b, side) + (if o.side == side then o.quantity else 0.0)
            == Volume(r.book, side) + Traded(r.trades) + (if o.side == side then Dropped(r.order) else 0.0)
  {
    assert o.kind == LIMIT || o.kind == MARKET || o.kind == ICEBERG || o.kind == FILL_OR_KILL;
    AddConserves(b, o);
    assert side == o.side || side == o.side.Opposite();
  }

  lemma CancelConservesIn(e: EngineState, s: string, id: OrderId, symbol: string, side: Side)
    requires GoodEngine(e)
    ensures var (e', r) := CancelIn(e, s, id);
            Outstanding(e, symbol, side)
            == Outstanding(e', symbol, side) + DroppedIn(e, Command.Cancelling(s, id), r, symbol, side)
  {
    hide Cancel, Volume, Good, PendingFresh, Find, Remove;
    if s in e.books {
      if Cancel(e.books[s], id).1.Some? {
        CancelConserves(e.books[s], id);
      } else if IsPending(e.registry, id) {
        PendingCancelConserves(e.registry, id, symbol, side);
      }
    }
  }

  lemma PendingCancelConserves(r: Registry, id: OrderId, symbol: string, side: Side)
    requires RegistryOk(r) && IsPending(r, id)
    ensures var (r', o) := CancelPending(r, id);
            && o.Some?
            && Sum(OnSide(side), r.Of(symbol))
               == Sum(OnSide(side), r'.Of(symbol))
                   + (if o.value.symbol == symbol && o.value.side == side then Remaining(o.value) else 0.0)
  {
    var t :| id in Ids(r.Of(t));
    CancelPendingExact(r, id, t);
    SumRemove(OnSide(side), r.Of(t), id);
    assert Keeps(r, t);
    var o := Find(r.Of(t), id);
    assert o in r.Of(t) && o.symbol == t;
  }

  /** Totals of a run for one symbol and side. */
  datatype Totals = Totals(entered: real, filled: real, dropped: real)

  ghost function Tally(e: EngineState, commands: seq<Command>, symbol: string, side: Side): Totals
    requires AdmissibleRun(e, commands)
    decreases |commands|
  {
    if commands == [] then Totals(0.0, 0.0, 0.0)
    else
      var c := commands[0];
      var (e', r) := Execute(e, c);
      var t := Tally(e', commands[1..], symbol, side);
      Totals(Entered(c, r, symbol, side) + t.entered, FilledIn(e, c, symbol, side) + t.filled,
             DroppedIn(e, c, r, symbol, side) + t.dropped)
  }

  /** Total quantity of all trades of a run in one symbol. */
  ghost function TradedOver(e: EngineState, commands: seq<Command>, symbol: string): real
    requires AdmissibleRun(e, commands)
    decreases |commands|
  {
    if commands == [] then 0.0
    else
      var (e', r) := Execute(e, commands[0]);
      TradedIn(commands[0], r, symbol) + TradedOver(e', commands[1..], symbol)
  }

  lemma {:induction false} RunConserves(e: EngineState, commands: seq<Command>, symbol: string, side: Side)
    requires AdmissibleRun(e, commands)
    ensures var t := Tally(e, commands, symbol, side);
            && Outstanding(e, symbol, side) + t.entered
               == Outstanding(RunCommands(e, commands), symbol, side) + t.filled + t.dropped
            && t.filled == TradedOver(e, commands, symbol)
    decreases |commands|
  {
    if commands != [] {
      CommandConserves(e, commands[0], symbol, side);
      FilledIsTraded(e, commands[0], symbol, side);
      RunConserves(Execute(e, commands[0]).0, commands[1..], symbol, side);
    }
  }

  /** Over any run of an engine that starts empty, whatever clients submit under
      unique ids: submitted quantity is filled, resting (visible, hidden or
      pending) or dropped, on each side; and what either side fills as takers,
      makers and stops is the total of all trades. */
  lemma VolumeConserved(symbols: set<string>, commands: seq<Command>, symbol: string, side: Side)
    requires UniqueIds(commands, {})
    ensures AdmissibleRun(EmptyEngine(symbols), commands)
    ensures var e, t := EmptyEngine(symbols), Tally(EmptyEngine(symbols), commands, symbol, side);
            && t.entered == t.filled + Outstanding(RunCommands(e, commands), symbol, side) + t.dropped
            && t.filled == TradedOver(e, commands, symbol) == Tally(e, commands, symbol, side.Opposite()).filled
  {
    var e := EmptyEngine(symbols);
    forall s ensures Keeps(e.registry, s) {
    }
    UniqueIdsAreAdmissible(e, commands, {});
    RunConserves(e, commands, symbol, side);
    RunConserves(e, commands, symbol, side.Opposite());
  }

  // ---------- crossing ----------

  ghost predicate AllUncrossed(e: EngineState) {
    forall s :: s in e.books ==> Uncrossed(e.books[s])
  }

  /** An iceberg that does not reach the opposite side when it enters. */
  ghost predicate EntersUncrossed(e: EngineState, c: Command) {
    c.Submitting? && c.order.kind == ICEBERG && c.order.symbol in e.books ==>
      forall x :: x in e.books[c.order.symbol].Queue(c.order.side.Opposite()) ==> !Accepts(LimitOf(c.order), x)
  }

  /** No command crosses a book, stop activations included; an iceberg only if its own price crosses. */
  lemma CommandKeepsUncrossed(e: EngineState, c: Command)
    requires Admissible(e, c) && AllUncrossed(e) && EntersUncrossed(e, c)
    ensures AllUncrossed(Execute(e, c).0)
  {
    match c {
      case Submitting(o) =>
        if Validate(e.books.Keys, o).None? && !IsConditional(o) {
          SubmitKeepsUncrossed(e, o);
        }
      case Cancelling(s, id) =>
        if s in e.books {
          CancelKeepsUncrossed(e.books[s], id);
        }
    }
  }

  lemma SubmitKeepsUncrossed(e: EngineState, o: OrderData)
    requires GoodEngine(e) && Submittable(e, o) && Validate(e.books.Keys, o).None? && !IsConditional(o)
    requires AllUncrossed(e) && EntersUncrossed(e, Submitting(o))
    ensures AllUncrossed(Submit(e, o).0)
  {
    hide Good, Add, Fresh, IsNew, Uncrossed, Accepts, Tick;
    SubmitToBook(e, o);
    var b := e.books[o.symbol];
    if o.kind == ICEBERG {
      IcebergUncrossedExactly(b, o);
    } else {
      AddKeepsUncrossed(b, o);
    }
    var r := Add(b, o);
    if r.trades != [] {
      var last := r.trades[|r.trades| - 1].price;
      FiredAreTakers(e, o.symbol, last);
      SweepStopsKeeps(r.book, Tick(e.registry, o.symbol, last).1);
    }
  }

  ghost predicate AllEnterUncrossed(e: EngineState, commands: seq<Command>)
    requires AdmissibleRun(e, commands)
    decreases |commands|
  {
    commands != [] ==>
      EntersUncrossed(e, commands[0]) && AllEnterUncrossed(Execute(e, commands[0]).0, commands[1..])
  }

  lemma {:induction false} RunKeepsUncrossed(e: EngineState, commands: seq<Command>)
    requires AdmissibleRun(e, commands) && AllUncrossed(e) && AllEnterUncrossed(e, commands)
    ensures AllUncrossed(RunCommands(e, commands))
    decreases |commands|
  {
    if commands != [] {
      CommandKeepsUncrossed(e, commands[0]);
      RunKeepsUncrossed(Execute(e, commands[0]).0, commands[1..]);
    }
  }

  // ---------- activated stops ----------

  /** An activated stop never rests: it ends FILLED, PARTIALLY_FILLED or
      CANCELLED by what it filled, and in each case off the book. */
  lemma {:induction false} StopsEndOffBook(b: Book, fired: seq<OrderData>, k: nat)
    requires Good(b) && Takers(fired) && k < |fired|
    requires forall o :: o in fired ==> o.id.Client? && IsNew(b, o)
    ensures var (b', _, stops) := SweepStops(b, fired);
            && |stops| == |fired| && stops[k].id == fired[k].id && IsNew(b', stops[k])
            && 0.0 <= stops[k].filledQuantity <= fired[k].quantity == stops[k].quantity
            && (stops[k].status == FILLED <==> stops[k].filledQuantity == fired[k].quantity)
            && (stops[k].status == CANCELLED <==> stops[k].filledQuantity == 0.0)
            && (stops[k].status == PARTIALLY_FILLED <==> 0.0 < stops[k].filledQuantity < fired[k].quantity)
    decreases |fired|
  {
    hide Good, Sweep, AllResting;
    SweepKeeps(b, fired[0], None);
    SweepAddsNoClient(b, fired[0], None);
    var r := Sweep(b, fired[0], None);
    SweepStopsKeeps(r.book, fired[1..]);
    SweepStopsLength(r.book, fired[1..]);
    if k > 0 {
      StopsEndOffBook(r.book, fired[1..], k - 1);
    }
  }

  lemma {:induction false} SweepStopsLength(b: Book, fired: seq<OrderData>)
    requires Good(b) && Takers(fired)
    ensures |SweepStops(b, fired).2| == |fired|
    decreases |fired|
  {
    if fired != [] {
      SweepKeeps(b, fired[0], None);
      SweepStopsLength(Sweep(b, fired[0], None).book, fired[1..]);
    }
  }

  // ---------- registration order ----------

  lemma {:induction false} TrailKeepsBefore(q: seq<OrderData>, low: real, high: real, a: OrderId, b: OrderId)
    requires Before(q, a, b)
    ensures Before(TrailAll(q, low, high), a, b)
  {
    TrailKeeps(q[1..], low, high);
    assert TrailAll(q, low, high)[1..] == TrailAll(q[1..], low, high);
    if !(q[0].id == a && b in Ids(q[1..])) {
      TrailKeepsBefore(q[1..], low, high, a, b);
    }
  }

  lemma {:induction false} FiringKeepsBefore(q: seq<OrderData>, price: real, a: OrderId, b: OrderId)
    requires Distinct(q) && Before(q, a, b)
    ensures a in Ids(Fired(q, price)) && b in Ids(Fired(q, price)) ==> Before(Fired(q, price), a, b)
    ensures a in Ids(Waiting(q, price)) && b in Ids(Waiting(q, price)) ==> Before(Waiting(q, price), a, b)
  {
    var f, w, fs, ws := Fired(q, price), Waiting(q, price), Fired(q[1..], price), Waiting(q[1..], price);
    BeforeMembers(q, a, b);
    IdsCons(q);
    FiringIds(q[1..], price);
    if ShouldTrigger(q[0], price) {
      assert f == [Promoted(q[0])] + fs && f[1..] == fs && w == ws;
      IdsCons(f);
    } else {
      assert w == [q[0]] + ws && w[1..] == ws && f == fs;
      IdsCons(w);
    }
    if q[0].id != a {
      FiringKeepsBefore(q[1..], price, a, b);
    }
  }

  /** Orders are activated, and go on waiting, in the order of their registration. */
  lemma ActivatedInOrder(r: Registry, symbol: string, price: real, a: OrderId, b: OrderId)
    requires RegistryOk(r) && Before(r.Of(symbol), a, b)
    ensures var (r', fired) := Tick(r, symbol, price);
            && (a in Ids(fired) && b in Ids(fired) ==> Before(fired, a, b))
            && (a in Ids(r'.Of(symbol)) && b in Ids(r'.Of(symbol)) ==> Before(r'.Of(symbol), a, b))
  {
    var q := r.Of(symbol);
    assert Keeps(r, symbol);
    var high, low := Raised(Mark(r.high, symbol), price), Lowered(Mark(r.low, symbol), price);
    TrailKeeps(q, low, high);
    TrailKeepsBefore(q, low, high, a, b);
    FiringKeepsBefore(TrailAll(q, low, high), price, a, b);
  }

  /** A registered order goes behind every order of its symbol. */
  lemma RegisteredLast(r: Registry, o: OrderData, a: OrderId)
    requires RegistryOk(r) && IsConditional(o) && !IsPending(r, o.id) && a in Ids(r.Of(o.symbol))
    ensures Before(Register(r, o).Of(o.symbol), a, o.id)
  {
    RegisterKeeps(r, o);
    AppendedLast(r.Of(o.symbol), o.(status := PENDING), a);
  }

  lemma {:induction false} AppendedLast(q: seq<OrderData>, o: OrderData, a: OrderId)
    requires a in Ids(q)
    ensures Before(q + [o], a, o.id)
  {
    var p := q + [o];
    assert p[1..] == q[1..] + [o];
    if q[0].id == a {
      assert o in p[1..];
    } else {
      AppendedLast(q[1..], o, a);
    }
  }

  lemma {:induction false} AppendKeepsBefore(q: seq<OrderData>, o: OrderData, a: OrderId, b: OrderId)
    requires Before(q, a, b)
    ensures Before(q + [o], a, b)
  {
    var p := q + [o];
    assert p[1..] == q[1..] + [o];
    if q[0].id == a && b in Ids(q[1..]) {
      assert forall x :: x in q[1..] ==> x in p[1..];
    } else {
      AppendKeepsBefore(q[1..], o, a, b);
    }
  }

  lemma {:induction false} RemoveKeepsBefore(q: seq<OrderData>, id: OrderId, a: OrderId, b: OrderId)
    requires Before(q, a, b) && Distinct(q) && a != id && b != id
    ensures Before(Remove(q, id), a, b)
  {
    BeforeMembers(q, a, b);
    if q[0].id == id {
      assert !(q[0].id == a);
    } else {
      var p := Remove(q, id);
      assert p[1..] == Remove(q[1..], id);
      if q[0].id == a {
        RemoveKeeps(q[1..], id);
      } else {
        RemoveKeepsBefore(q[1..], id, a, b);
      }
    }
  }

  /** An event leaves the order of what it leaves pending as it was. */
  lemma EventKeepsBefore(r: Registry, e: Event, symbol: string, a: OrderId, b: OrderId)
    requires RegistryOk(r) && Before(r.Of(symbol), a, b)
    requires e.Registering? ==> IsConditional(e.order) && !IsPending(r, e.order.id)
    requires a in Ids(Apply(r, e).0.Of(symbol)) && b in Ids(Apply(r, e).0.Of(symbol))
    ensures Before(Apply(r, e).0.Of(symbol), a, b)
  {
    match e {
      case Registering(o) =>
        RegisterKeeps(r, o);
        if o.symbol == symbol {
          AppendKeepsBefore(r.Of(symbol), o.(status := PENDING), a, b);
        }
      case Cancelling(id) =>
        if IsPending(r, id) {
          var s :| id in Ids(r.Of(s));
          CancelPendingExact(r, id, s);
          if s == symbol {
            assert Keeps(r, s);
            RemoveKeeps(r.Of(s), id);
            RemoveKeepsBefore(r.Of(s), id, a, b);
          }
        }
      case Ticking(s, p) =>
        TickKeeps(r, s, p);
        if s == symbol {
          ActivatedInOrder(r, s, p, a, b);
        }
    }
  }

  /** What is pending after an event and not registered by it was pending before. */
  lemma ListedBefore(r: Registry, e: Event, symbol: string, id: OrderId)
    requires RegistryOk(r) && id in Ids(Apply(r, e).0.Of(symbol))
    requires e.Registering? ==> IsConditional(e.order) && !IsPending(r, e.order.id) && e.order.id != id
    ensures id in Ids(r.Of(symbol))
  {
    match e {
      case Registering(o) =>
        RegisterKeeps(r, o);
        AppendIds(r.Of(o.symbol), o.(status := PENDING));
      case Cancelling(x) =>
        if IsPending(r, x) {
          var s :| x in Ids(r.Of(s));
          CancelPendingExact(r, x, s);
          assert Keeps(r, s);
          RemoveKeeps(r.Of(s), x);
        }
      case Ticking(s, p) =>
        TickKeeps(r, s, p);
    }
  }

  /** Two registrations of one symbol, the first before the second. */
  ghost predicate RegisteredInTurn(events: seq<Event>, i: nat, j: nat) {
    && i < j < |events| && events[i].Registering? && events[j].Registering?
    && events[i].order.symbol == events[j].order.symbol
  }

  /** Over any run of registrations, cancellations and ticks, the pending list
      of a symbol stays in the order of registration. */
  lemma {:induction false} ListedInOrder(r: Registry, events: seq<Event>, i: nat, j: nat)
    requires RegistryOk(r) && FreshRegistrations(r, events) && RegisteredInTurn(events, i, j)
    ensures var (a, b, list) := (events[i].order.id, events[j].order.id,
                                 RunAll(r, events).0.Of(events[i].order.symbol));
            a in Ids(list) && b in Ids(list) ==> Before(list, a, b)
  {
    hide RegistryOk, Register, CancelPending, Tick;
    var n := |events| - 1;
    var before, e := events[..n], events[n];
    var (a, b, symbol) := (events[i].order.id, events[j].order.id, events[i].order.symbol);
    PrefixFresh(r, events, n);
    ActivatedOnce(r, before);
    NotYetRegistered(r, events);
    var r1 := RunAll(r, before).0;
    var list := Apply(r1, e).0.Of(symbol);
    assert list == RunAll(r, events).0.Of(symbol);
    if a in Ids(list) && b in Ids(list) {
      ListedBefore(r1, e, symbol, a);
      if j == n {
        RegisteredLast(r1, e.order, a);
      } else {
        ListedBefore(r1, e, symbol, b);
        ListedInOrder(r, before, i, j);
        EventKeepsBefore(r1, e, symbol, a, b);
      }
    }
  }

  /** The last registration of a run is of an id that is not pending then. */
  lemma NotYetRegistered(r: Registry, events: seq<Event>)
    requires RegistryOk(r) && FreshRegistrations(r, events) && events != []
    ensures var (before, e) := (events[..|events| - 1], events[|events| - 1]);
            e.Registering? ==> IsConditional(e.order) && !IsPending(RunAll(r, before).0, e.order.id)
  {
    hide RegistryOk, IsPending;
    PrefixFresh(r, events, |events| - 1);
    ActivatedOnce(r, events[..|events| - 1]);
  }

  /** Whatever a tick in such a run activates at once, it activates in the order
      of registration. */
  lemma ActivatedInRegistrationOrder(r: Registry, events: seq<Event>, i: nat, j: nat, n: nat)
    requires RegistryOk(r) && FreshRegistrations(r, events) && RegisteredInTurn(events, i, j) && j < n < |events|
    requires events[n].Ticking? && events[n].symbol == events[i].order.symbol
    ensures var (a, b, fired) := (events[i].order.id, events[j].order.id, Apply(RunAll(r, events[..n]).0, events[n]).1);
            a in Ids(fired) && b in Ids(fired) ==> Before(fired, a, b)
  {
    hide RegistryOk, Tick, Before;
    var (a, b, symbol) := (events[i].order.id, events[j].order.id, events[i].order.symbol);
    var r1 := RunAll(r, events[..n]).0;
    PrefixFresh(r, events, n);
    ActivatedOnce(r, events[..n]);
    ListedInOrder(r, events[..n], i, j);
    TickKeeps(r1, symbol, events[n].price);
    if a in Ids(r1.Of(symbol)) && b in Ids(r1.Of(symbol)) {
      ActivatedInOrder(r1, symbol, events[n].price, a, b);
    }
  }
}
