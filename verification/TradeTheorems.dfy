/** What the trades themselves say: their numbers and symbol, and the orders and
    users they name, over sweeps, commands and whole runs. */
module TradeTheorems {
  import opened Types
  import opened Queues
  import opened Matching
  import opened SweepTheorems
  import opened BookTheorems
  import opened Triggers
  import opened Engine
  import opened EngineTheorems

  // ---------- numbers ----------

  /** Numbered one after the other behind a counter, and all of one symbol. */
  ghost predicate Numbered(trades: seq<TradeExecution>, symbol: string, from: nat) {
    forall n :: 0 <= n < |trades| ==> trades[n].number == from + 1 + n && trades[n].symbol == symbol
  }

  /** The trades of a sweep carry the next numbers of the book and its symbol. */
  lemma {:induction false} RunNumbers(m: Match, cutoff: Option<real>, n: nat)
    requires Ready(m) && |m.trades| <= n < |Run(m, cutoff).trades|
    ensures Run(m, cutoff).trades[n].number == m.counter + 1 + n - |m.trades|
    ensures Run(m, cutoff).trades[n].symbol == m.symbol
    decreases Sum(Effort, m.queue), if Remaining(m.taker) > 0.0 then 1 else 0
  {
    if !Stops(m, cutoff) {
      Continue(m, cutoff);
      FirstTrade(m, cutoff);
      if n > |m.trades| {
        RunNumbers(Step(m), cutoff, n);
      }
    }
  }

  lemma SweepNumbers(b: Book, o: OrderData, cutoff: Option<real>)
    requires Takes(b, o)
    ensures AllResting(b.Queue(o.side.Opposite()))
    ensures Numbered(Sweep(b, o, cutoff).trades, b.symbol, b.counter)
  {
    GoodQueues(b);
    forall n | 0 <= n < |Sweep(b, o, cutoff).trades|
      ensures var t := Sweep(b, o, cutoff).trades[n]; t.number == b.counter + 1 + n && t.symbol == b.symbol
    {
      RunNumbers(Start(b, o), cutoff, n);
    }
  }

  /** Whatever its type, an order's trades are numbered on from the book's last
      trade, and the book goes on from there. */
  lemma AddNumbers(b: Book, o: OrderData)
    requires Good(b) && Fresh(o) && IsNew(b, o)
    ensures AllResting(b.Queue(o.side.Opposite()))
    ensures Numbered(Add(b, o).trades, b.symbol, b.counter)
    ensures Add(b, o).book.counter == b.counter + |Add(b, o).trades| && Add(b, o).book.symbol == b.symbol
  {
    hide Numbered, Run, Good;
    AddKeepsGood(b, o);
    AddKeepsSymbol(b, o);
    SweepNumbers(b, o, None);
    SweepNumbers(b, o, LimitOf(o));
    NoneNumbered(b.symbol, b.counter);
  }

  lemma NumberedConcat(a: seq<TradeExecution>, c: seq<TradeExecution>, symbol: string, from: nat)
    requires Numbered(a, symbol, from) && Numbered(c, symbol, from + |a|)
    ensures Numbered(a + c, symbol, from)
  {
  }

  lemma {:induction false} StopsNumber(b: Book, fired: seq<OrderData>)
    requires Good(b) && Takers(fired)
    ensures var (b', trades, _) := SweepStops(b, fired);
            Numbered(trades, b.symbol, b.counter) && b'.counter == b.counter + |trades| && b'.symbol == b.symbol
    decreases |fired|
  {
    hide Numbered, Sweep, Good;
    if fired == [] {
      NoneNumbered(b.symbol, b.counter);
    } else {
      SweepKeeps(b, fired[0], None);
      SweepNumbers(b, fired[0], None);
      var r := Sweep(b, fired[0], None);
      StopsNumber(r.book, fired[1..]);
      NumberedConcat(r.trades, SweepStops(r.book, fired[1..]).1, b.symbol, b.counter);
    }
  }

  lemma NoneNumbered(symbol: string, from: nat)
    ensures Numbered([], symbol, from)
  {
  }

  /** All trades of a submission, of the order itself and then of the stops it
      sets off, in the order in which the book made them. */
  lemma SubmitNumbers(e: EngineState, o: OrderData)
    requires GoodEngine(e) && Submittable(e, o) && o.symbol in e.books
    ensures var (e', reply) := Submit(e, o);
            var trades := if reply.Accepted? then reply.effect.trades else [];
            && o.symbol in e'.books && e'.books[o.symbol].counter == e.books[o.symbol].counter + |trades|
            && Numbered(trades, o.symbol, e.books[o.symbol].counter)
  {
    hide Numbered, Good, GoodEngine, Submittable, Add, Tick, Fresh, IsNew, SweepStops, Validate;
    NoneNumbered(o.symbol, e.books[o.symbol].counter);
    if Validate(e.books.Keys, o).None? && !IsConditional(o) {
      SubmitToBook(e, o);
      SameSymbol(e, o.symbol);
      AddNumbers(e.books[o.symbol], o);
      var r := Add(e.books[o.symbol], o);
      if r.trades != [] {
        var last := r.trades[|r.trades| - 1].price;
        FiredAreTakers(e, o.symbol, last);
        StopsNumber(r.book, Tick(e.registry, o.symbol, last).1);
        NumberedConcat(r.trades, SweepStops(r.book, Tick(e.registry, o.symbol, last).1).1, o.symbol,
                       e.books[o.symbol].counter);
      }
    }
  }

  lemma SameSymbol(e: EngineState, s: string)
    requires GoodEngine(e) && s in e.books
    ensures e.books[s].symbol == s
  {
  }

  /** The trades that one command makes in a symbol. */
  function TradesIn(c: Command, r: Response, symbol: string): seq<TradeExecution> {
    if c.Submitting? && c.order.symbol == symbol && r.Submitted? && r.reply.Accepted? then r.reply.effect.trades else []
  }

  lemma CommandNumbers(e: EngineState, c: Command, s: string)
    requires Admissible(e, c) && s in e.books
    ensures var (e', r) := Execute(e, c);
            && s in e'.books && e'.books[s].counter == e.books[s].counter + |TradesIn(c, r, s)|
            && Numbered(TradesIn(c, r, s), s, e.books[s].counter)
  {
    hide Numbered, GoodEngine, Submittable, Submit, Cancel, CancelPending;
    ExecuteKeeps(e, c);
    NoneNumbered(s, e.books[s].counter);
    match c {
      case Submitting(o) =>
        if o.symbol == s {
          SubmitNumbers(e, o);
        }
      case Cancelling(symbol, id) =>
        CancelKeepsCounter(e, symbol, id, s);
    }
  }

  lemma CancelKeepsCounter(e: EngineState, symbol: string, id: OrderId, s: string)
    requires s in e.books
    ensures var e' := CancelIn(e, symbol, id).0; s in e'.books && e'.books[s].counter == e.books[s].counter
  {
  }

  /** All trades of a run in one symbol. */
  ghost function TradesOver(e: EngineState, commands: seq<Command>, symbol: string): seq<TradeExecution>
    requires AdmissibleRun(e, commands)
    decreases |commands|
  {
    if commands == [] then []
    else
      var (e', r) := Execute(e, commands[0]);
      TradesIn(commands[0], r, symbol) + TradesOver(e', commands[1..], symbol)
  }

  /** Over any run, cancels and activated stops included, the trades of a symbol
      are numbered without gap or repetition, in the order in which they happen. */
  lemma {:induction false} RunIsNumbered(e: EngineState, commands: seq<Command>, s: string)
    requires AdmissibleRun(e, commands) && s in e.books
    ensures s in RunCommands(e, commands).books
    ensures var trades := TradesOver(e, commands, s);
            && (forall n :: 0 <= n < |trades| ==>
                  trades[n].number == e.books[s].counter + 1 + n && trades[n].symbol == s)
            && RunCommands(e, commands).books[s].counter == e.books[s].counter + |trades|
    decreases |commands|
  {
    hide Execute, Admissible, TradesIn;
    if commands != [] {
      var (e', r) := Execute(e, commands[0]);
      CommandNumbers(e, commands[0], s);
      RunIsNumbered(e', commands[1..], s);
    }
  }

  // ---------- orders and users ----------

  /** The order a client once submitted, behind an order or any of its slices. */
  function Root(id: OrderId): OrderId {
    match id
    case Client(_) => id
    case Slice(parent, _) => Root(parent)
  }

  /** Same client order, user and price. */
  predicate Same(o: OrderData, p: OrderData) {
    Root(o.id) == Root(p.id) && o.userId == p.userId && o.price == p.price
  }

  lemma StepDescends(m: Match)
    requires m.queue != []
    ensures forall o :: o in Step(m).queue ==> exists p :: p in m.queue && Same(o, p)
  {
    var q, h, q' := m.queue, m.queue[0], Step(m).queue;
    assert q == [h] + q[1..] && h in q;
    if Hidden(h) > 0.0 {
      InsertMembers(q[1..], NextSlice(h, m.counter + 1));
    }
    forall o | o in q' ensures exists p :: p in q && Same(o, p) {
      if o in q[1..] {
        assert o in q && Same(o, o);
      } else {
        assert Same(o, h);
      }
    }
  }

  /** Every trade names the taker and its user on the taker's side, and on the
      other an order that was in the queue, or a slice of it, with its user and
      at its price. */
  lemma {:induction false} TradeParties(m: Match, cutoff: Option<real>, n: nat) returns (maker: OrderData)
    requires Ready(m) && |m.trades| <= n < |Run(m, cutoff).trades|
    ensures maker in m.queue
    ensures var t := Run(m, cutoff).trades[n];
            && t.price == maker.price
            && (m.taker.side == BUY ==>
                  && t.buyOrderId == m.taker.id && t.buyerId == m.taker.userId
                  && Root(t.sellOrderId) == Root(maker.id) && t.sellerId == maker.userId)
            && (m.taker.side == SELL ==>
                  && t.sellOrderId == m.taker.id && t.sellerId == m.taker.userId
                  && Root(t.buyOrderId) == Root(maker.id) && t.buyerId == maker.userId)
    decreases Sum(Effort, m.queue), if Remaining(m.taker) > 0.0 then 1 else 0
  {
    hide Sorted, Distinct, Resting, Insert, AfterFill;
    maker := m.taker;
    if !Stops(m, cutoff) {
      Continue(m, cutoff);
      FirstTrade(m, cutoff);
      if n == |m.trades| {
        maker := m.queue[0];
      } else {
        var x := TradeParties(Step(m), cutoff, n);
        StepDescends(m);
        var p :| p in m.queue && Same(x, p);
        maker := p;
      }
    }
  }
}
