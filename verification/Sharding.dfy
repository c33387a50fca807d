/** Splitting one engine into workers that own disjoint sets of symbols. */
module Sharding {
  import opened Types
  import opened Queues
  import opened Matching
  import opened Triggers
  import opened Engine
  import opened EngineTheorems

  /** What an engine keeps for one symbol. */
  datatype Shelf = Shelf(book: Option<Book>, pending: seq<OrderData>, low: Option<real>, high: Option<real>)

  function ShelfOf(e: EngineState, s: string): Shelf {
    Shelf(if s in e.books then Some(e.books[s]) else None, e.registry.Of(s), Mark(e.registry.low, s),
          Mark(e.registry.high, s))
  }

  /** A worker is the restriction of the whole engine to its symbols. */
  ghost predicate Restricts(w: EngineState, e: EngineState, symbols: set<string>) {
    && w.books.Keys == symbols <= e.books.Keys
    && (forall s :: s in symbols ==> ShelfOf(w, s) == ShelfOf(e, s))
    && forall s :: s !in symbols ==> w.registry.Of(s) == []
  }

  /** A cancel that is looked up among the pending orders finds one only on the
      side of the shard boundary that it names. */
  ghost predicate StaysInShard(e: EngineState, symbols: set<string>, c: Command) {
    c.Cancelling? && c.symbol in e.books && Cancel(e.books[c.symbol], c.id).1.None? ==>
      forall t :: c.id in Ids(e.registry.Of(t)) ==> (t in symbols <==> c.symbol in symbols)
  }

  // ---------- what a command reads and writes ----------

  /** A submission writes only the shelf of its symbol. */
  lemma SubmitWritesOwnShelf(e: EngineState, o: OrderData, s: string)
    requires GoodEngine(e) && Submittable(e, o) && s != o.symbol
    ensures ShelfOf(Submit(e, o).0, s) == ShelfOf(e, s)
  {
    hide GoodEngine, Submittable, Add;
    if Validate(e.books.Keys, o).None? {
      SubmitElsewhere(e, o, s);
    }
  }

  lemma TickReadsOwnShelf(r: Registry, q: Registry, s: string, price: real)
    requires r.Of(s) == q.Of(s) && Mark(r.low, s) == Mark(q.low, s) && Mark(r.high, s) == Mark(q.high, s)
    ensures Tick(r, s, price).1 == Tick(q, s, price).1
    ensures var (r', q') := (Tick(r, s, price).0, Tick(q, s, price).0);
            r'.Of(s) == q'.Of(s) && Mark(r'.low, s) == Mark(q'.low, s) && Mark(r'.high, s) == Mark(q'.high, s)
  {
  }

  /** A submission reads only the shelf of its symbol. */
  lemma SubmitReadsOwnShelf(e: EngineState, w: EngineState, o: OrderData)
    requires GoodEngine(e) && GoodEngine(w) && Submittable(e, o) && Submittable(w, o)
    requires ShelfOf(e, o.symbol) == ShelfOf(w, o.symbol)
    ensures Submit(e, o).1 == Submit(w, o).1
    ensures ShelfOf(Submit(e, o).0, o.symbol) == ShelfOf(Submit(w, o).0, o.symbol)
  {
    hide GoodEngine, Submittable, Submit, Validate, Activate;
    SameChecks(e, w, o);
    if Validate(e.books.Keys, o).Some? {
      SubmitRejects(e, o);
      SubmitRejects(w, o);
    } else if IsConditional(o) {
      SubmitRegisters(e, o);
      SubmitRegisters(w, o);
    } else {
      SubmitInSteps(e, o);
      SubmitInSteps(w, o);
      var r := Add(e.books[o.symbol], o);
      if r.trades != [] {
        var e1, w1 := e.(books := e.books[o.symbol := r.book]), w.(books := w.books[o.symbol := r.book]);
        ActivateReadsOwnShelf(e1, w1, o.symbol, r.book, r.trades[|r.trades| - 1].price);
      }
    }
  }

  lemma SameChecks(e: EngineState, w: EngineState, o: OrderData)
    requires ShelfOf(e, o.symbol) == ShelfOf(w, o.symbol)
    ensures Validate(e.books.Keys, o) == Validate(w.books.Keys, o)
    ensures Validate(e.books.Keys, o).None? ==> o.symbol in e.books && o.symbol in w.books
  {
  }

  lemma SubmitRejects(e: EngineState, o: OrderData)
    requires GoodEngine(e) && Submittable(e, o) && Validate(e.books.Keys, o).Some?
    ensures Submit(e, o) == (e, Rejected(Validate(e.books.Keys, o).value))
  {
  }

  lemma SubmitRegisters(e: EngineState, o: OrderData)
    requires GoodEngine(e) && Submittable(e, o) && Validate(e.books.Keys, o).None? && IsConditional(o)
    ensures Submit(e, o) == (e.(registry := Register(e.registry, o)), Accepted(Effect(o.(status := PENDING), [], [])))
  {
  }

  lemma ActivateReadsOwnShelf(e: EngineState, w: EngineState, s: string, b: Book, last: real)
    requires GoodEngine(e) && GoodEngine(w) && Good(b) && ShelfOf(e, s) == ShelfOf(w, s)
    ensures Activate(e, s, b, last).1 == Activate(w, s, b, last).1
            && Activate(e, s, b, last).2 == Activate(w, s, b, last).2
    ensures ShelfOf(Activate(e, s, b, last).0, s) == ShelfOf(Activate(w, s, b, last).0, s)
  {
    FiredAreTakers(e, s, last);
    TickReadsOwnShelf(e.registry, w.registry, s, last);
    hide GoodEngine, Tick;
  }

  /** A cancel writes the shelf of its symbol, or that of the pending order it finds. */
  lemma CancelWrites(e: EngineState, symbol: string, id: OrderId, s: string)
    requires GoodEngine(e)
    ensures var (e', response) := CancelIn(e, symbol, id);
            ShelfOf(e', s) ==
              if symbol !in e.books then ShelfOf(e, s)
              else if Cancel(e.books[symbol], id).1.Some? then
                if s == symbol then ShelfOf(e, s).(book := Some(Cancel(e.books[symbol], id).0)) else ShelfOf(e, s)
              else if id in Ids(e.registry.Of(s)) then ShelfOf(e, s).(pending := Remove(e.registry.Of(s), id))
              else ShelfOf(e, s)
  {
    if symbol in e.books && Cancel(e.books[symbol], id).1.None? && IsPending(e.registry, id) {
      var t :| id in Ids(e.registry.Of(t));
      CancelPendingExact(e.registry, id, t);
      hide GoodEngine, RegistryOk;
    }
  }

  /** What a cancel answers. */
  lemma CancelAnswers(e: EngineState, symbol: string, id: OrderId, s: string)
    requires GoodEngine(e)
    ensures CancelIn(e, symbol, id).1 ==
              if symbol !in e.books then Unsupported
              else if Cancel(e.books[symbol], id).1.Some? then Cancelled(Cancel(e.books[symbol], id).1)
              else if id in Ids(e.registry.Of(s)) then Cancelled(Some(Find(e.registry.Of(s), id).(status := CANCELLED)))
              else CancelIn(e, symbol, id).1
    ensures symbol in e.books && Cancel(e.books[symbol], id).1.None? && !IsPending(e.registry, id) ==>
              CancelIn(e, symbol, id) == (e, Cancelled(None))
  {
    if id in Ids(e.registry.Of(s)) {
      CancelPendingExact(e.registry, id, s);
    }
  }

  // ---------- one command ----------

  lemma AdmissibleAtWorker(w: EngineState, e: EngineState, symbols: set<string>, c: Command)
    requires Restricts(w, e, symbols) && GoodEngine(w) && Admissible(e, c)
    ensures Admissible(w, c)
  {
    if c.Submitting? {
      assert c.order.symbol in symbols ==> ShelfOf(w, c.order.symbol) == ShelfOf(e, c.order.symbol);
      forall s ensures c.order.id !in Ids(w.registry.Of(s)) {
        if s in symbols {
          assert ShelfOf(w, s) == ShelfOf(e, s);
          assert c.order.id !in Ids(e.registry.Of(s));
        }
      }
    }
  }

  /** The worker of a command's symbol answers as the whole engine would, and
      every worker goes on being the restriction of the whole engine. */
  ghost predicate Transparent(w: EngineState, e: EngineState, symbols: set<string>, c: Command)
    requires Admissible(e, c) && Admissible(w, c)
  {
    if c.Symbol() in symbols then
      Restricts(Execute(w, c).0, Execute(e, c).0, symbols) && Execute(w, c).1 == Execute(e, c).1
    else
      Restricts(w, Execute(e, c).0, symbols)
  }

  lemma SubmitTransparent(w: EngineState, e: EngineState, symbols: set<string>, o: OrderData)
    requires Restricts(w, e, symbols) && Admissible(e, Submitting(o)) && Admissible(w, Submitting(o))
    ensures Transparent(w, e, symbols, Submitting(o))
  {
    ExecuteKeeps(e, Submitting(o));
    ExecuteKeeps(w, Submitting(o));
    hide GoodEngine, Submittable, Submit, ShelfOf, Validate;
    var e' := Submit(e, o).0;
    forall s | s in symbols && s != o.symbol ensures ShelfOf(e', s) == ShelfOf(e, s) {
      SubmitWritesOwnShelf(e, o, s);
    }
    if o.symbol in symbols {
      SubmitRestricts(w, e, symbols, o);
    }
  }

  lemma SubmitRestricts(w: EngineState, e: EngineState, symbols: set<string>, o: OrderData)
    requires Restricts(w, e, symbols) && Admissible(e, Submitting(o)) && Admissible(w, Submitting(o))
             && o.symbol in symbols
    requires Submit(e, o).0.books.Keys == e.books.Keys && Submit(w, o).0.books.Keys == w.books.Keys
    ensures Restricts(Submit(w, o).0, Submit(e, o).0, symbols) && Submit(w, o).1 == Submit(e, o).1
  {
    hide GoodEngine, Submittable, Submit, Validate;
    assert ShelfOf(w, o.symbol) == ShelfOf(e, o.symbol);
    var e', w' := Submit(e, o).0, Submit(w, o).0;
    SubmitReadsOwnShelf(e, w, o);
    forall s | s != o.symbol ensures ShelfOf(e', s) == ShelfOf(e, s) && ShelfOf(w', s) == ShelfOf(w, s) {
      SubmitWritesOwnShelf(e, o, s);
      SubmitWritesOwnShelf(w, o, s);
    }
    forall s | s !in symbols ensures w'.registry.Of(s) == [] {
      assert ShelfOf(w', s).pending == ShelfOf(w, s).pending;
    }
  }

  /** Where a cancel of a worker's engine finds a pending order, the whole engine does too. */
  lemma SamePending(w: EngineState, e: EngineState, symbols: set<string>, id: OrderId, s: string)
    requires Restricts(w, e, symbols)
    ensures s in symbols ==> w.registry.Of(s) == e.registry.Of(s)
    ensures id in Ids(w.registry.Of(s)) ==> s in symbols && id in Ids(e.registry.Of(s))
  {
    assert s in symbols ==> ShelfOf(w, s) == ShelfOf(e, s);
  }

  lemma CancelTransparent(w: EngineState, e: EngineState, symbols: set<string>, symbol: string, id: OrderId)
    requires Restricts(w, e, symbols) && GoodEngine(e) && GoodEngine(w)
    requires StaysInShard(e, symbols, Command.Cancelling(symbol, id))
    ensures Transparent(w, e, symbols, Command.Cancelling(symbol, id))
  {
    hide GoodEngine, CancelIn, Cancel;
    var c := Command.Cancelling(symbol, id);
    var e', w' := CancelIn(e, symbol, id).0, CancelIn(w, symbol, id).0;
    CancelKeeps(e, symbol, id);
    CancelKeeps(w, symbol, id);
    assert symbol in symbols ==> ShelfOf(w, symbol) == ShelfOf(e, symbol);
    forall s
      ensures s in symbols ==> ShelfOf(if symbol in symbols then w' else w, s) == ShelfOf(e', s)
      ensures s !in symbols && symbol in symbols ==> w'.registry.Of(s) == []
    {
      CancelWrites(e, symbol, id, s);
      CancelWrites(w, symbol, id, s);
      SamePending(w, e, symbols, id, s);
      assert s in symbols ==> ShelfOf(w, s) == ShelfOf(e, s);
    }
    if symbol in symbols {
      CancelSameAnswer(w, e, symbols, symbol, id);
    }
  }

  lemma CancelSameAnswer(w: EngineState, e: EngineState, symbols: set<string>, symbol: string, id: OrderId)
    requires Restricts(w, e, symbols) && GoodEngine(e) && GoodEngine(w) && symbol in symbols
    requires StaysInShard(e, symbols, Command.Cancelling(symbol, id))
    ensures CancelIn(w, symbol, id).1 == CancelIn(e, symbol, id).1
  {
    assert ShelfOf(w, symbol) == ShelfOf(e, symbol);
    if Cancel(e.books[symbol], id).1.None? && IsPending(e.registry, id) {
      var t :| id in Ids(e.registry.Of(t));
      SamePending(w, e, symbols, id, t);
      CancelAnswers(e, symbol, id, t);
      CancelAnswers(w, symbol, id, t);
    } else {
      CancelAnswers(e, symbol, id, symbol);
      CancelAnswers(w, symbol, id, symbol);
      if IsPending(w.registry, id) {
        var t :| id in Ids(w.registry.Of(t));
        SamePending(w, e, symbols, id, t);
      }
    }
  }

  /** Sharding is transparent for a command exactly when a cancel does not reach
      across the shard boundary: the registry of a single engine looks through
      the pending orders of all symbols, a worker only through its own. */
  lemma TransparentExactly(w: EngineState, e: EngineState, symbols: set<string>, c: Command)
    requires Restricts(w, e, symbols) && Admissible(e, c) && Admissible(w, c)
    ensures Transparent(w, e, symbols, c) <==> StaysInShard(e, symbols, c)
  {
    match c {
      case Submitting(o) =>
        SubmitTransparent(w, e, symbols, o);
      case Cancelling(symbol, id) =>
        if StaysInShard(e, symbols, c) {
          CancelTransparent(w, e, symbols, symbol, id);
        } else {
          var t :| id in Ids(e.registry.Of(t)) && !(t in symbols <==> symbol in symbols);
          AcrossTheBoundary(w, e, symbols, symbol, id, t);
        }
    }
  }

  lemma AcrossTheBoundary(w: EngineState, e: EngineState, symbols: set<string>, symbol: string, id: OrderId, t: string)
    requires Restricts(w, e, symbols) && GoodEngine(e) && GoodEngine(w)
    requires symbol in e.books && Cancel(e.books[symbol], id).1.None?
    requires id in Ids(e.registry.Of(t)) && !(t in symbols <==> symbol in symbols)
    ensures !Transparent(w, e, symbols, Command.Cancelling(symbol, id))
  {
    hide Good, Remove, PendingFresh, Submittable;
    assert forall s :: s in symbols ==> ShelfOf(w, s) == ShelfOf(e, s);
    if symbol in symbols {
      CancelAnswers(e, symbol, id, t);
      CancelAnswers(w, symbol, id, t);
      forall u ensures id !in Ids(w.registry.Of(u)) {
        SamePending(w, e, symbols, id, u);
        assert u != t ==> id !in Ids(e.registry.Of(u));
      }
    } else {
      CancelWrites(e, symbol, id, t);
      RemoveKeeps(e.registry.Of(t), id);
      assert Keeps(e.registry, t);
      assert ShelfOf(CancelIn(e, symbol, id).0, t) != ShelfOf(w, t) by {
        assert id in Ids(w.registry.Of(t)) && id !in Ids(Remove(e.registry.Of(t), id));
      }
    }
  }
}
