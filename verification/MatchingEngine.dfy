/** The matching engine: one book per symbol and one trigger registry. */
module MatchingEngines {
  import opened Types
  import opened Matching
  import opened BookTheorems
  import opened Triggers
  import opened Engine
  import opened BookObjects
  import opened OrderBooks
  import opened TriggerRegistries

  /** The engine's state, and which objects each part of it owns. */
  datatype View = View(state: EngineState, books: map<string, set<object>>, registry: set<object>, owned: set<object>) {
    /** No two parts own an object in common. */
    ghost predicate Apart() {
      && registry <= owned && books.Keys == state.books.Keys
      && (forall s :: s in books ==> books[s] <= owned && books[s] !! registry)
      && forall s, t :: s in books && t in books && s != t ==> books[s] !! books[t]
    }
  }

  ghost predicate BookHeld(b: OrderBook, repr: set<object>, d: Book)
    reads b, repr
  {
    b in repr && b.Repr == repr && b.Valid() && b.State() == d
  }

  /** Every book is as the view says. */
  ghost predicate BooksHeld(books: map<string, OrderBook>, view: View)
    reads view.owned
  {
    && view.Apart() && books.Keys == view.books.Keys
    && forall s :: s in books ==> books[s] in view.books[s] && BookHeld(books[s], view.books[s], view.state.books[s])
  }

  ghost predicate RegistryShown(r: TriggerRegistry, repr: set<object>, d: Registry)
    reads r, repr
  {
    r in repr && r.Repr == repr && r.Valid() && r.State() == d
  }

  ghost predicate RegistryHeld(r: TriggerRegistry, view: View)
    reads view.owned
  {
    view.Apart() && r in view.registry && RegistryShown(r, view.registry, view.state.registry)
  }

  class MatchingEngine {
    var books: map<string, OrderBook>
    const supportedSymbols: set<string>
    const triggerRegistry: TriggerRegistry

    ghost var view: View

    ghost function State(): EngineState
      reads this
    {
      view.state
    }

    ghost function Repr(): set<object>
      reads this
    {
      {this} + view.owned
    }

    ghost predicate Held()
      reads Repr()
    {
      this !in view.owned && RegistryHeld(triggerRegistry, view) && BooksHeld(books, view)
    }

    ghost predicate Valid()
      reads Repr()
    {
      Held() && supportedSymbols == books.Keys && GoodEngine(State())
    }

    lemma SymbolsAgree()
      requires Valid()
      ensures supportedSymbols == books.Keys == State().books.Keys && GoodEngine(State()) && view.registry <= view.owned
    {
    }

    constructor (symbols: set<string>)
      ensures Valid() && fresh(Repr()) && State() == EmptyEngine(symbols)
    {
      supportedSymbols := symbols;
      triggerRegistry := new TriggerRegistry();
      books := map[];
      new;
      hide BooksHeld;
      EmptyIsGood(symbols);
      view := View(EmptyEngine({}), map[], triggerRegistry.Repr, triggerRegistry.Repr);
      NoBooks(books, view);
      OpenBooks();
    }

    method OpenBooks()
      requires Held() && State() == EmptyEngine({}) && books == map[]
      modifies this
      ensures Held() && State() == EmptyEngine(supportedSymbols) && books.Keys == supportedSymbols
              && fresh(Repr() - old(Repr()))
    {
      hide BooksHeld, RegistryHeld;
      var todo := supportedSymbols;
      while todo != {}
        invariant todo <= supportedSymbols && fresh(Repr() - old(Repr())) && Held()
        invariant State() == EmptyEngine(books.Keys) && books.Keys == supportedSymbols - todo
        decreases todo
      {
        var symbol :| symbol in todo;
        OpenBook(symbol);
        todo := todo - {symbol};
      }
      assert supportedSymbols - todo == supportedSymbols;
    }

    method OpenBook(symbol: string)
      requires Held() && State() == EmptyEngine(books.Keys) && symbol !in books
      modifies this
      ensures Held() && books.Keys == old(books.Keys) + {symbol} && State() == EmptyEngine(books.Keys)
      ensures fresh(Repr() - old(Repr()))
    {
      hide BooksHeld, RegistryHeld, BookHeld, OrderBook.Valid, View.Apart, OrderBook.State;
      var book := new OrderBook(symbol);
      BookIs(book);
      Opened(books, view, symbol, book);
      RegistryStays(triggerRegistry, view, symbol, book);
      books := books[symbol := book];
      view := OpenedView(view, symbol, book);
      assert State().books == EmptyEngine(books.Keys).books;
    }

    /** The checks before an order is routed. */
    method ValidateOrder(order: Order) returns (reason: Option<Rejection>)
      ensures reason == Validate(supportedSymbols, order.Data())
    {
      if Blank(NameOf(order.id)) { return Some(InvalidId); }
      if Blank(order.userId) { return Some(InvalidUser); }
      if order.symbol !in supportedSymbols { return Some(UnsupportedSymbol); }
      if order.quantity <= 0.0 { return Some(NonPositiveQuantity); }
      if order.kind == LIMIT && order.price <= 0.0 { return Some(NonPositivePrice); }
      if (order.kind == STOP_LOSS || order.kind == TRAILING_STOP)
         && (order.stopPrice.None? || order.stopPrice.value <= 0.0) {
        return Some(MissingStopPrice);
      }
      if order.kind == ICEBERG && order.price <= 0.0 { return Some(NonPositivePrice); }
      return None;
    }

    /** Validate an order, route it to the registry or to its book, and sweep the
        stops that the last of its fills activates. `matched` is the order after
        its own matching: a stop may then trade with what rests of it. */
    method SubmitOrder(order: Order)
      returns (rejection: Option<Rejection>, trades: seq<TradeExecution>,
               ghost matched: OrderData, ghost stops: seq<OrderData>, ghost added: set<object>)
      requires Valid() && order !in Repr() && Submittable(State(), order.Data())
      modifies Repr(), order
      ensures Valid() && fresh(added) && old(Repr()) <= Repr() <= old(Repr()) + {order} + added
      ensures GoodEngine(old(State())) && State() == Submit(old(State()), old(order.Data())).0
      ensures Replied(Submit(old(State()), old(order.Data())).1, rejection, matched, trades, stops)
      ensures rejection.Some? ==> order.Data() == old(order.Data())
      ensures rejection.None? && stops == [] ==> order.Data() == matched
    {
      hide MatchingEngine.Held, GoodEngine, Fresh, IsNew, Good;
      trades, stops, added, matched := [], [], {}, order.Data();
      SymbolsAgree();
      rejection := ValidateOrder(order);
      if rejection.Some? {
        return;
      }
      if order.kind == STOP_LOSS || order.kind == TRAILING_STOP {
        RegisterOrder(order);
        matched := order.Data();
      } else {
        trades, matched, stops, added := MatchOnBook(order);
      }
    }

    /** What the caller sees of a reply. */
    static ghost predicate Replied(reply: Reply, rejection: Option<Rejection>, order: OrderData,
                                   trades: seq<TradeExecution>, stops: seq<OrderData>) {
      match reply
      case Rejected(reason) => rejection == Some(reason) && trades == [] && stops == []
      case Accepted(effect) => rejection == None && effect == Effect(order, trades, stops)
    }

    method RegisterOrder(order: Order)
      requires Valid() && order !in Repr() && Submittable(State(), order.Data())
      requires Validate(State().books.Keys, order.Data()).None? && IsConditional(order.Data())
      modifies Repr(), order
      ensures Valid() && Repr() == old(Repr()) + {order}
      ensures State() == old(State()).(registry := Triggers.Register(old(State()).registry, old(order.Data())))
      ensures order.Data() == old(order.Data()).(status := PENDING)
    {
      hide BookHeld, TriggerRegistry.Valid, GoodEngine, Submittable;
      NotPending(State(), order.Data());
      RegisterKeepsEngine(State(), order.Data());
      ghost var r := State().registry;
      var accepted := triggerRegistry.Register(order);
      view := view.(state := view.state.(registry := triggerRegistry.State()),
                    registry := triggerRegistry.Repr, owned := view.owned + {order});
    }

    method MatchOnBook(order: Order)
      returns (trades: seq<TradeExecution>, ghost matched: OrderData, ghost stops: seq<OrderData>,
               ghost added: set<object>)
      requires Valid() && order !in Repr() && Submittable(State(), order.Data())
      requires Validate(State().books.Keys, order.Data()).None? && !IsConditional(order.Data())
      modifies Repr(), order
      ensures Valid() && fresh(added) && old(Repr()) <= Repr() <= old(Repr()) + {order} + added
      ensures GoodEngine(old(State()))
      ensures Submit(old(State()), old(order.Data())) == (State(), Accepted(Effect(matched, trades, stops)))
      ensures stops == [] ==> order.Data() == matched
    {
      hide BooksHeld, RegistryHeld, GoodEngine, Submittable, Submit, Activate, Good, Add, Fresh, IsNew, Validate,
           AllResting, Valid;
      SymbolsAgree();
      SubmitToBook(State(), order.Data());
      SubmitInSteps(State(), order.Data());
      trades, added := AddToBook(order);
      matched, stops := order.Data(), [];
      SymbolsAgree();
      if |trades| > 0 {
        var lastTradePrice := trades[|trades| - 1].price;
        ghost var more;
        var stopTrades;
        stopTrades, stops, more := ActivateStops(order.symbol, lastTradePrice, order);
        added := added + more;
        trades := trades + stopTrades;
      }
    }

    /** Record what a book and its objects have become. */
    ghost method Install(symbol: string, book: OrderBook, added: set<object>)
      requires view.Apart() && books.Keys == view.books.Keys && symbol in books && books[symbol] == book
      requires this !in view.owned + added && triggerRegistry in view.registry
      requires RegistryShown(triggerRegistry, view.registry, view.state.registry)
      requires forall s :: s in books && s != symbol ==>
                 books[s] in view.books[s] && BookHeld(books[s], view.books[s], view.state.books[s])
      requires BookHeld(book, book.Repr, book.State()) && book in book.Repr
      requires book.Repr <= view.books[symbol] + added && added !! view.owned
      modifies `view
      ensures Held() && view == Grown(old(view), symbol, book, added)
    {
      hide BookHeld, RegistryShown, OrderBook.State;
      BooksGrown(books, view, symbol, book, added);
      view := Grown(view, symbol, book, added);
    }

    method AddToBook(order: Order) returns (trades: seq<TradeExecution>, ghost added: set<object>)
      requires Valid() && order !in Repr() && order.symbol in books && order.symbol in State().books
      requires Good(State().books[order.symbol]) && Fresh(order.Data())
               && IsNew(State().books[order.symbol], order.Data())
      requires AllResting(State().books[order.symbol].Queue(order.side.Opposite()))
      requires Add(State().books[order.symbol], order.Data()).book.symbol == order.symbol
      modifies Repr(), order
      ensures Valid() && fresh(added) && old(Repr()) <= Repr() <= old(Repr()) + {order} + added
      ensures AllResting(old(State()).books[order.symbol].Queue(order.side.Opposite()))
      ensures var r := Add(old(State()).books[order.symbol], old(order.Data()));
              && State() == old(State()).(books := old(State()).books[order.symbol := r.book])
              && order.Data() == r.order && trades == r.trades
      ensures view.registry == old(view.registry)
    {
      hide BookHeld, RegistryShown, OrderBook.Valid, GoodEngine, Good, Add, Fresh, IsNew, AllResting, OrderBook.State;
      var book := books[order.symbol];
      BookFacts(book, view.books[order.symbol], State().books[order.symbol]);
      AddKeepsGood(book.State(), order.Data());
      GoodWithBook(State(), order.symbol, Add(book.State(), order.Data()).book);
      trades, added := book.AddOrder(order);
      BookIs(book);
      Install(order.symbol, book, {order} + added);
    }

    /** One tick at the last fill price; what it activates is swept at once. */
    method ActivateStops(symbol: string, lastTradePrice: real, ghost taker: Order)
      returns (trades: seq<TradeExecution>, ghost stops: seq<OrderData>, ghost added: set<object>)
      requires Valid() && symbol in books && symbol in State().books
      modifies Repr()
      ensures Valid() && fresh(added) && Repr() == old(Repr()) + added
      ensures GoodEngine(old(State())) && Good(old(State()).books[symbol])
      ensures (State(), trades, stops) == Activate(old(State()), symbol, old(State()).books[symbol], lastTradePrice)
      ensures stops == [] && taker !in old(view.registry) ==> taker.Data() == old(taker.Data())
    {
      hide BooksHeld, RegistryHeld;
      SymbolsAgree();
      ghost var e := State();
      FiredAreTakers(e, symbol, lastTradePrice);
      ActivateKeeps(e, symbol, e.books[symbol], lastTradePrice);
      var activated := TakeFired(symbol, lastTradePrice);
      trades, added := SweepFired(symbol, activated, taker);
      stops := DataOf(activated);
    }

    static ghost function ObjectsOf(list: seq<Order>): set<object> {
      set o | o in list
    }

    /** No object of a list belongs to any part of the engine. */
    static ghost predicate SetFree(list: seq<Order>, view: View) {
      && ObjectsOf(list) <= view.owned && ObjectsOf(list) !! view.registry
      && (forall s :: s in view.books ==> ObjectsOf(list) !! view.books[s])
      && forall j, k :: 0 <= j < k < |list| ==> list[j] != list[k]
    }

    method TakeFired(symbol: string, lastTradePrice: real) returns (activated: seq<Order>)
      requires Held()
      modifies view.registry, `view
      ensures Held() && view.books == old(view.books) && view.owned == old(view.owned)
      ensures State() == old(State()).(registry := Tick(old(State()).registry, symbol, lastTradePrice).0)
      ensures DataOf(activated) == Tick(old(State()).registry, symbol, lastTradePrice).1 && SetFree(activated, view)
    {
      hide BookHeld, Tick, TriggerRegistry.Valid;
      activated := triggerRegistry.OnTradeTick(symbol, lastTradePrice);
      RegistryIs(triggerRegistry);
      view := view.(state := view.state.(registry := triggerRegistry.State()), registry := triggerRegistry.Repr);
    }

    method SweepFired(symbol: string, activated: seq<Order>, ghost taker: Order)
        returns (trades: seq<TradeExecution>, ghost added: set<object>)
      requires Held() && symbol in books && symbol in State().books && SetFree(activated, view)
               && Takers(DataOf(activated))
      modifies view.owned, `view
      ensures Held() && fresh(added) && Repr() == old(Repr()) + added
      ensures Good(old(State()).books[symbol])
      ensures var r := SweepStops(old(State()).books[symbol], old(DataOf(activated)));
              && State() == old(State()).(books := old(State()).books[symbol := r.0])
              && trades == r.1 && DataOf(activated) == r.2
      ensures activated == [] ==> taker.Data() == old(taker.Data())
    {
      hide BookHeld, RegistryShown, OrderBook.Valid, Good, SweepStops, Takers, OrderBook.State;
      var book := books[symbol];
      BookFacts(book, view.books[symbol], State().books[symbol]);
      trades, added := RunStops(book, activated, taker);
      BookIs(book);
      forall s | s in books && s != symbol ensures BookHeld(books[s], view.books[s], view.state.books[s]) {
        assert s in view.books && ObjectsOf(activated) !! view.books[s];
        assert old(BookHeld(books[s], view.books[s], view.state.books[s]));
      }
      Install(symbol, book, added);
    }

    /** Cancel an order of a supported symbol, in its book or else among the
        pending orders of any symbol; null when there is none. */
    method CancelOrder(symbol: string, orderId: OrderId) returns (supported: bool, cancelled: Order?)
      requires Valid()
      modifies Repr()
      ensures Valid() && Repr() == old(Repr()) && GoodEngine(old(State()))
      ensures State() == CancelIn(old(State()), symbol, orderId).0
      ensures CancelledAs(CancelIn(old(State()), symbol, orderId).1, supported, cancelled)
    {
      hide BooksHeld, RegistryHeld, GoodEngine, CancelPending, Cancel, CancelIn;
      SymbolsAgree();
      CancelKeeps(State(), symbol, orderId);
      CancelInSteps(State(), symbol, orderId);
      if symbol !in books {
        return false, null;
      }
      supported := true;
      cancelled := CancelOnBook(symbol, orderId);
      if cancelled == null {
        cancelled := CancelConditional(orderId);
      }
    }

    /** What the caller sees of a cancellation. */
    static ghost predicate CancelledAs(response: Response, supported: bool, cancelled: Order?)
      reads cancelled
    {
      match response
      case Unsupported => !supported && cancelled == null
      case Cancelled(order) => supported && order == if cancelled == null then None else Some(cancelled.Data())
      case Submitted(_) => false
    }

    method CancelOnBook(symbol: string, orderId: OrderId) returns (cancelled: Order?)
      requires Held() && symbol in books && symbol in State().books
      modifies Repr()
      ensures Held() && Repr() == old(Repr()) && books == old(books)
      ensures var r := Cancel(old(State()).books[symbol], orderId);
              && State() == old(State()).(books := old(State()).books[symbol := r.0])
              && r.1 == if cancelled == null then None else Some(cancelled.Data())
    {
      hide BookHeld, RegistryShown, OrderBook.Valid, Cancel, OrderBook.State;
      var book := books[symbol];
      BookFacts(book, view.books[symbol], State().books[symbol]);
      cancelled := book.CancelOrder(orderId);
      BookIs(book);
      Install(symbol, book, {});
    }

    method CancelConditional(orderId: OrderId) returns (cancelled: Order?)
      requires Held()
      modifies Repr()
      ensures Held() && Repr() == old(Repr()) && books == old(books)
      ensures var r := CancelPending(old(State()).registry, orderId);
              && State() == old(State()).(registry := r.0)
              && r.1 == if cancelled == null then None else Some(cancelled.Data())
    {
      hide BookHeld, TriggerRegistry.Valid, CancelPending;
      cancelled := triggerRegistry.Cancel(orderId);
      RegistryIs(triggerRegistry);
      view := view.(state := view.state.(registry := triggerRegistry.State()));
    }

    /** Sweep activated stops in turn; each ends with the status its fills give. */
    static method RunStops(book: OrderBook, activated: seq<Order>, ghost taker: Order)
        returns (trades: seq<TradeExecution>, ghost added: set<object>)
      requires book.Valid() && Takers(DataOf(activated))
      requires forall o :: o in activated ==> o !in book.Repr
      requires forall j, k :: 0 <= j < k < |activated| ==> activated[j] != activated[k]
      modifies book.Repr, activated
      ensures book.Valid() && fresh(added) && book.Repr == old(book.Repr) + added
      ensures Good(old(book.State()))
      ensures (book.State(), trades, DataOf(activated)) == SweepStops(old(book.State()), old(DataOf(activated)))
      ensures activated == [] ==> taker.Data() == old(taker.Data())
    {
      hide Swept, OrderBook.Valid, Good, Takers, SweepStops, OrderBook.State;
      book.IsGood();
      trades, added := [], {};
      ghost var b, fired := book.State(), DataOf(activated);
      assert DataOf(activated[..0]) == [];
      SweptAtFirst(b, fired);
      for k := 0 to |activated|
        invariant book.Valid() && fresh(added) && book.Repr == old(book.Repr) + added
        invariant forall j :: k <= j < |activated| ==> activated[j].Data() == fired[j]
        invariant k == 0 ==> taker.Data() == old(taker.Data())
        invariant |fired| == |activated| && Swept(b, fired, k, book.State(), trades, DataOf(activated[..k]))
      {
        SweptNext(b, fired, k, book.State(), trades, DataOf(activated[..k]));
        trades, added := RunNext(book, activated, k, trades, added);
      }
      assert activated[..|activated|] == activated;
      SweptAtLast(b, fired, book.State(), trades, DataOf(activated));
    }

    static method RunNext(book: OrderBook, activated: seq<Order>, k: nat, trades: seq<TradeExecution>,
                          ghost added: set<object>)
      returns (trades': seq<TradeExecution>, ghost added': set<object>)
      requires book.Valid() && k < |activated| && activated[k] !in book.Repr
      requires activated[k].quantity > 0.0 && activated[k].filledQuantity == 0.0
      requires forall o :: o in activated ==> o !in book.Repr
      requires forall i, j :: 0 <= i < j < |activated| ==> activated[i] != activated[j]
      modifies book.Repr, activated[k]
      ensures book.Valid() && fresh(added' - added) && added <= added' && book.Repr == old(book.Repr) + (added' - added)
      ensures AllResting(old(book.State()).Queue(activated[k].side.Opposite()))
      ensures var r := Sweep(old(book.State()), old(activated[k].Data()), None);
              && book.State() == r.book && trades' == trades + r.trades
              && DataOf(activated[..k + 1]) == old(DataOf(activated[..k])) + [r.order.(status := StopStatus(r.order))]
      ensures forall j :: 0 <= j < |activated| && j != k ==> activated[j].Data() == old(activated[j].Data())
    {
      ghost var more;
      var stopTrades;
      stopTrades, more := RunStop(book, activated[k]);
      added' := added + more;
      trades' := trades + stopTrades;
      assert activated[..k + 1] == activated[..k] + [activated[k]];
    }

    static method RunStop(book: OrderBook, stop: Order) returns (trades: seq<TradeExecution>, ghost added: set<object>)
      requires book.Valid() && stop !in book.Repr && stop.quantity > 0.0 && stop.filledQuantity == 0.0
      modifies book.Repr, stop
      ensures book.Valid() && stop !in book.Repr && fresh(added) && book.Repr == old(book.Repr) + added
      ensures AllResting(old(book.State()).Queue(stop.side.Opposite()))
      ensures var r := Sweep(old(book.State()), old(stop.Data()), None);
              (book.State(), stop.Data(), trades) == (r.book, r.order.(status := StopStatus(r.order)), r.trades)
    {
      trades, added := book.MatchMarketOrder(stop);
      if stop.filledQuantity >= stop.quantity {
        book.SetStatus(stop, FILLED);
      } else if stop.filledQuantity > 0.0 {
        book.SetStatus(stop, PARTIALLY_FILLED);
      } else {
        book.SetStatus(stop, CANCELLED);
      }
    }

    static ghost function DataOf(orders: seq<Order>): seq<OrderData>
      reads orders
    {
      seq(|orders|, i requires 0 <= i < |orders| reads orders => orders[i].Data())
    }
  }

  ghost function OpenedView(view: View, symbol: string, book: OrderBook): View
    reads book
  {
    View(view.state.(books := view.state.books[symbol := book.State()]),
         view.books[symbol := book.Repr], view.registry, view.owned + book.Repr)
  }

  lemma {:induction false} Opened(books: map<string, OrderBook>, view: View, symbol: string, book: OrderBook)
    requires BooksHeld(books, view) && symbol !in books && book.Repr !! view.owned && book in book.Repr
    requires BookHeld(book, book.Repr, book.State())
    ensures BooksHeld(books[symbol := book], OpenedView(view, symbol, book)) && OpenedView(view, symbol, book).Apart()
  {
    hide BookHeld;
  }

  lemma {:induction false} RegistryStays(r: TriggerRegistry, view: View, symbol: string, book: OrderBook)
    requires RegistryHeld(r, view) && OpenedView(view, symbol, book).Apart()
    ensures RegistryHeld(r, OpenedView(view, symbol, book))
  {
  }

  lemma NoBooks(books: map<string, OrderBook>, view: View)
    requires books == map[] && view.books == map[] && view.state.books == map[] && view.registry <= view.owned
    ensures BooksHeld(books, view)
  {
  }

  lemma EmptyIsGood(symbols: set<string>)
    ensures GoodEngine(EmptyEngine(symbols))
  {
  }

  // ---------- activated stops, one by one ----------

  /** The first `k` activated stops have been swept. */
  ghost predicate Swept(b: Book, fired: seq<OrderData>, k: nat, now: Book, trades: seq<TradeExecution>,
                        stops: seq<OrderData>) {
    && k <= |fired| && Good(b) && Takers(fired) && Good(now) && Takers(fired[k..])
    && var rest := SweepStops(now, fired[k..]);
       SweepStops(b, fired) == (rest.0, trades + rest.1, stops + rest.2)
  }

  lemma SweptAtFirst(b: Book, fired: seq<OrderData>)
    requires Good(b) && Takers(fired)
    ensures Swept(b, fired, 0, b, [], [])
  {
    assert fired[0..] == fired;
    var all := SweepStops(b, fired);
    assert [] + all.1 == all.1 && [] + all.2 == all.2;
  }

  lemma SweptNext(b: Book, fired: seq<OrderData>, k: nat, now: Book, trades: seq<TradeExecution>, stops: seq<OrderData>)
    requires Swept(b, fired, k, now, trades, stops) && k < |fired|
    ensures fired[k].quantity > 0.0 && fired[k].filledQuantity == 0.0
    ensures AllResting(now.Queue(fired[k].side.Opposite()))
    ensures var r := Sweep(now, fired[k], None);
            Swept(b, fired, k + 1, r.book, trades + r.trades, stops + [r.order.(status := StopStatus(r.order))])
  {
    assert fired[k..][0] == fired[k] && fired[k..][1..] == fired[k + 1..];
    assert fired[k] in fired;
    SweepKeeps(now, fired[k], None);
    var r := Sweep(now, fired[k], None);
    var rest := SweepStops(r.book, fired[k + 1..]);
    assert trades + (r.trades + rest.1) == (trades + r.trades) + rest.1;
    var stop := r.order.(status := StopStatus(r.order));
    assert stops + ([stop] + rest.2) == (stops + [stop]) + rest.2;
  }

  lemma SweptAtLast(b: Book, fired: seq<OrderData>, now: Book, trades: seq<TradeExecution>, stops: seq<OrderData>)
    requires Swept(b, fired, |fired|, now, trades, stops)
    ensures SweepStops(b, fired) == (now, trades, stops)
  {
    assert fired[|fired|..] == [] && trades + [] == trades && stops + [] == stops;
  }

  lemma NotPending(e: EngineState, o: OrderData)
    requires Submittable(e, o)
    ensures !IsPending(e.registry, o.id)
  {
  }

  lemma BookFacts(b: OrderBook, repr: set<object>, d: Book)
    requires BookHeld(b, repr, d)
    ensures b in repr && b.Repr == repr && b.Valid() && b.State() == d
  {
  }

  /** The view after a book has changed and taken new objects in. */
  ghost function Grown(view: View, symbol: string, book: OrderBook, added: set<object>): View
    reads book
  {
    View(view.state.(books := view.state.books[symbol := book.State()]),
         view.books[symbol := book.Repr], view.registry, view.owned + added)
  }

  lemma BookIs(b: OrderBook)
    requires b.Valid()
    ensures BookHeld(b, b.Repr, b.State()) && b in b.Repr
  {
  }

  lemma RegistryIs(r: TriggerRegistry)
    requires r.Valid()
    ensures r in r.Repr
  {
  }

  lemma BooksGrown(books: map<string, OrderBook>, before: View, symbol: string, book: OrderBook, added: set<object>)
    requires before.Apart() && books.Keys == before.books.Keys && symbol in books && books[symbol] == book
    requires forall s :: s in books && s != symbol ==>
               books[s] in before.books[s] && BookHeld(books[s], before.books[s], before.state.books[s])
    requires BookHeld(book, book.Repr, book.State()) && book in book.Repr
    requires book.Repr <= before.books[symbol] + added && added !! before.owned
    ensures Grown(before, symbol, book, added).Apart() && BooksHeld(books, Grown(before, symbol, book, added))
  {
    hide BookHeld;
    var after := Grown(before, symbol, book, added);
    GrownApart(before, symbol, book.Repr, added, after);
    forall s | s in books
      ensures books[s] in after.books[s] && BookHeld(books[s], after.books[s], after.state.books[s])
    {
    }
  }

  lemma GrownApart(before: View, symbol: string, owned: set<object>, added: set<object>, after: View)
    requires before.Apart() && symbol in before.books
    requires owned <= before.books[symbol] + added && added !! before.owned
    requires after.books == before.books[symbol := owned] && after.owned == before.owned + added
    requires after.registry == before.registry && after.state.books.Keys == before.state.books.Keys
    ensures after.Apart()
  {
    assert forall o :: o in owned && o in before.owned ==> o in before.books[symbol];
    forall s | s in after.books ensures after.books[s] <= after.owned && after.books[s] !! after.registry {
      assert s in before.books;
    }
    forall s, t | s in after.books && t in after.books && s != t ensures after.books[s] !! after.books[t] {
      assert s in before.books && t in before.books;
    }
  }

  /** Looking in the book and then among the pending orders are two steps in a row. */
  lemma CancelInSteps(e: EngineState, symbol: string, id: OrderId)
    ensures CancelIn(e, symbol, id) ==
              if symbol !in e.books then (e, Unsupported)
              else
                var r := Cancel(e.books[symbol], id);
                var e1 := e.(books := e.books[symbol := r.0]);
                if r.1.Some? then (e1, Cancelled(r.1))
                else
                  var p := CancelPending(e1.registry, id);
                  (e1.(registry := p.0), Cancelled(p.1))
  {
    if symbol in e.books && Cancel(e.books[symbol], id).1.None? {
      assert e.books[symbol := e.books[symbol]] == e.books;
    }
  }
}
