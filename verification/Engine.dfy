/** The matching engine as a function of its state: books per symbol, the
    trigger registry, and what one command does to them. */
module Engine {
  import opened Types
  import opened Queues
  import opened Matching
  import opened SweepTheorems
  import opened BookTheorems
  import opened Triggers

  datatype EngineState = EngineState(books: map<string, Book>, registry: Registry)

  datatype Rejection =
    | InvalidId | InvalidUser | UnsupportedSymbol | NonPositiveQuantity
    | NonPositivePrice | MissingStopPrice

  /** What an accepted submission did: the order afterwards, all trades, and the
      stop orders it activated as they ended. */
  datatype Effect = Effect(order: OrderData, trades: seq<TradeExecution>, stops: seq<OrderData>)

  datatype Reply = Rejected(reason: Rejection) | Accepted(effect: Effect)

  /** White space as trimming knows it. */
  predicate White(c: char) {
    || c in {'\t', '\n', '\U{B}', '\U{C}', '\r', ' ', '\U{A0}', '\U{1680}'} || '\U{2000}' <= c <= '\U{200A}'
    || c in {'\U{2028}', '\U{2029}', '\U{202F}', '\U{205F}', '\U{3000}', '\U{FEFF}'}
  }

  predicate Blank(s: string) {
    forall c :: c in s ==> White(c)
  }

  function NameOf(id: OrderId): string {
    match id
    case Client(name) => name
    case Slice(parent, stamp) => NameOf(parent) + "-ice"
  }

  /** The checks of the engine, in its order. */
  function Validate(symbols: set<string>, o: OrderData): Option<Rejection> {
    if Blank(NameOf(o.id)) then Some(InvalidId)
    else if Blank(o.userId) then Some(InvalidUser)
    else if o.symbol !in symbols then Some(UnsupportedSymbol)
    else if o.quantity <= 0.0 then Some(NonPositiveQuantity)
    else if o.kind == LIMIT && o.price <= 0.0 then Some(NonPositivePrice)
    else if IsConditional(o) && (o.stopPrice.None? || o.stopPrice.value <= 0.0) then Some(MissingStopPrice)
    else if o.kind == ICEBERG && o.price <= 0.0 then Some(NonPositivePrice)
    else None
  }

  ghost predicate PendingFresh(r: Registry) {
    forall s, o :: o in r.Of(s) ==> o.id.Client? && o.quantity > 0.0 && o.filledQuantity == 0.0
  }

  ghost predicate GoodEngine(e: EngineState) {
    && (forall s :: s in e.books ==> Good(e.books[s]) && e.books[s].symbol == s)
    && RegistryOk(e.registry) && PendingFresh(e.registry)
    && forall s :: e.registry.Of(s) != [] ==> s in e.books
  }

  function EmptyEngine(symbols: set<string>): EngineState {
    EngineState(map s | s in symbols :: EmptyBook(s), EMPTY_REGISTRY)
  }

  /** An order as a client creates it, under an id that is not in use. */
  ghost predicate Submittable(e: EngineState, o: OrderData) {
    && o.id.Client? && o.filledQuantity == 0.0 && o.hiddenQty == None && o.status == PENDING
    && (o.symbol in e.books ==> IsNew(e.books[o.symbol], o))
    && !IsPending(e.registry, o.id)
  }

  // ---------- stops ----------

  ghost predicate Takers(q: seq<OrderData>) {
    forall o :: o in q ==> o.quantity > 0.0 && o.filledQuantity == 0.0
  }

  /** How an activated stop ends: it never rests. */
  function StopStatus(o: OrderData): OrderStatus {
    if o.filledQuantity >= o.quantity then FILLED
    else if o.filledQuantity > 0.0 then PARTIALLY_FILLED
    else CANCELLED
  }

  /** Sweep the activated stops one after the other, as market orders. */
  ghost function SweepStops(b: Book, fired: seq<OrderData>): (r: (Book, seq<TradeExecution>, seq<OrderData>))
    requires Good(b) && Takers(fired)
    decreases |fired|
  {
    if fired == [] then (b, [], [])
    else
      SweepKeeps(b, fired[0], None);
      var r := Sweep(b, fired[0], None);
      var (b', trades, stops) := SweepStops(r.book, fired[1..]);
      (b', r.trades + trades, [r.order.(status := StopStatus(r.order))] + stops)
  }

  lemma {:induction false} SweepStopsKeeps(b: Book, fired: seq<OrderData>)
    requires Good(b) && Takers(fired)
    ensures Good(SweepStops(b, fired).0) && SweepStops(b, fired).0.symbol == b.symbol
    ensures Uncrossed(b) ==> Uncrossed(SweepStops(b, fired).0)
    ensures forall o: OrderData :: o.id.Client? && IsNew(b, o) ==> IsNew(SweepStops(b, fired).0, o)
    decreases |fired|
  {
    if fired != [] {
      SweepKeeps(b, fired[0], None);
      if Uncrossed(b) {
        SweepKeepsUncrossed(b, fired[0], None);
      }
      SweepAddsNoClient(b, fired[0], None);
      SweepStopsKeeps(Sweep(b, fired[0], None).book, fired[1..]);
    }
  }

  /** A sweep brings no client id into the book. */
  lemma SweepAddsNoClient(b: Book, taker: OrderData, cutoff: Option<real>)
    requires Takes(b, taker)
    ensures AllResting(b.Queue(taker.side.Opposite()))
    ensures forall o: OrderData :: o.id.Client? && IsNew(b, o) ==> IsNew(Sweep(b, taker, cutoff).book, o)
  {
    SweepKeeps(b, taker, cutoff);
    RunKeeps(Start(b, taker), cutoff);
  }

  // ---------- commands ----------

  datatype Command = Submitting(order: OrderData) | Cancelling(symbol: string, id: OrderId) {
    function Symbol(): string {
      match this
      case Submitting(o) => o.symbol
      case Cancelling(s, _) => s
    }
  }

  datatype Response = Submitted(reply: Reply) | Cancelled(order: Option<OrderData>) | Unsupported

  ghost predicate Admissible(e: EngineState, c: Command) {
    GoodEngine(e) && (c.Submitting? ==> Submittable(e, c.order))
  }

  lemma FreshAfterValidation(e: EngineState, o: OrderData)
    requires GoodEngine(e) && Submittable(e, o) && Validate(e.books.Keys, o).None?
    ensures Fresh(o) && o.symbol in e.books && Good(e.books[o.symbol]) && IsNew(e.books[o.symbol], o)
    ensures AllResting(e.books[o.symbol].Queue(o.side.Opposite()))
  {
    GoodQueues(e.books[o.symbol]);
  }

  lemma FreshList(q: seq<OrderData>, low: real, high: real, price: real)
    requires forall o :: o in q ==> o.id.Client? && o.quantity > 0.0 && o.filledQuantity == 0.0
    ensures var trailed := TrailAll(q, low, high);
            forall o :: o in Fired(trailed, price) + Waiting(trailed, price) ==>
              o.id.Client? && o.quantity > 0.0 && o.filledQuantity == 0.0
  {
    hide TrailAll, Fired, Waiting, ShouldTrigger;
    var trailed := TrailAll(q, low, high);
    TrailKeeps(q, low, high);
    FiringMembers(trailed, price);
    forall o | o in trailed ensures o.id.Client? && o.quantity > 0.0 && o.filledQuantity == 0.0 {
      var p :| p in q && o == Trail(p, low, high);
    }
  }

  lemma FiredAreTakers(e: EngineState, symbol: string, price: real)
    requires GoodEngine(e)
    ensures Takers(Tick(e.registry, symbol, price).1)
    ensures forall o :: o in Tick(e.registry, symbol, price).1 ==> o.id.Client?
    ensures PendingFresh(Tick(e.registry, symbol, price).0)
    ensures forall s :: Tick(e.registry, symbol, price).0.Of(s) != [] ==> e.registry.Of(s) != []
  {
    hide TrailAll, Fired, Waiting, RegistryOk, ShouldTrigger;
    var q := e.registry.Of(symbol);
    var (r', fired) := Tick(e.registry, symbol, price);
    TickKeeps(e.registry, symbol, price);
    if q != [] {
      var high, low := Raised(Mark(e.registry.high, symbol), price), Lowered(Mark(e.registry.low, symbol), price);
      FreshList(q, low, high, price);
      var trailed := TrailAll(q, low, high);
      assert r'.Of(symbol) == Waiting(trailed, price) && fired == Fired(trailed, price);
      forall s, o | o in r'.Of(s) ensures o.id.Client? && o.quantity > 0.0 && o.filledQuantity == 0.0 {
        assert s == symbol ==> o in Fired(trailed, price) + Waiting(trailed, price);
        assert s != symbol ==> o in e.registry.Of(s);
      }
      forall o | o in fired ensures o.id.Client? && o.quantity > 0.0 && o.filledQuantity == 0.0 {
        assert o in Fired(trailed, price) + Waiting(trailed, price);
      }
    }
  }

  /** One tick at the last fill price; what it activates is swept without a further tick. */
  ghost function Activate(e: EngineState, symbol: string, b: Book, last: real): (EngineState, seq<TradeExecution>,
      seq<OrderData>)
    requires GoodEngine(e) && Good(b)
  {
    FiredAreTakers(e, symbol, last);
    var (registry, fired) := Tick(e.registry, symbol, last);
    var (book, trades, stops) := SweepStops(b, fired);
    (EngineState(e.books[symbol := book], registry), trades, stops)
  }

  ghost function Submit(e: EngineState, o: OrderData): (EngineState, Reply)
    requires GoodEngine(e) && Submittable(e, o)
  {
    if Validate(e.books.Keys, o).Some? then (e, Rejected(Validate(e.books.Keys, o).value))
    else if IsConditional(o) then
      (e.(registry := Register(e.registry, o)), Accepted(Effect(o.(status := PENDING), [], [])))
    else
      FreshAfterValidation(e, o);
      AddKeepsGood(e.books[o.symbol], o);
      var r := Add(e.books[o.symbol], o);
      if r.trades == [] then
        (e.(books := e.books[o.symbol := r.book]), Accepted(Effect(r.order, [], [])))
      else
        var (e', trades, stops) := Activate(e, o.symbol, r.book, r.trades[|r.trades| - 1].price);
        (e', Accepted(Effect(r.order, r.trades + trades, stops)))
  }

  ghost function CancelIn(e: EngineState, symbol: string, id: OrderId): (EngineState, Response) {
    if symbol !in e.books then (e, Unsupported)
    else
      var (book, order) := Cancel(e.books[symbol], id);
      if order.Some? then (e.(books := e.books[symbol := book]), Cancelled(order))
      else
        var (registry, pending) := CancelPending(e.registry, id);
        (e.(registry := registry), Cancelled(pending))
  }

  ghost function Execute(e: EngineState, c: Command): (EngineState, Response)
    requires Admissible(e, c)
  {
    match c
    case Submitting(o) => var (e', reply) := Submit(e, o); (e', Submitted(reply))
    case Cancelling(s, id) => CancelIn(e, s, id)
  }

  // ---------- what every command keeps ----------

  lemma GoodParts(e: EngineState, symbol: string, book: Book, registry: Registry)
    requires GoodEngine(e) && symbol in e.books && Good(book) && book.symbol == symbol
    requires RegistryOk(registry) && PendingFresh(registry)
    requires forall s :: registry.Of(s) != [] ==> s in e.books
    ensures GoodEngine(EngineState(e.books[symbol := book], registry))
    ensures EngineState(e.books[symbol := book], registry).books.Keys == e.books.Keys
  {
  }

  lemma GoodWithBook(e: EngineState, symbol: string, book: Book)
    requires GoodEngine(e) && symbol in e.books && Good(book) && book.symbol == symbol
    ensures GoodEngine(e.(books := e.books[symbol := book]))
  {
    GoodParts(e, symbol, book, e.registry);
  }

  /** Every command keeps every book well formed and every list of pending
      orders sound, and touches no book but its own. */
  lemma ExecuteKeeps(e: EngineState, c: Command)
    requires Admissible(e, c)
    ensures GoodEngine(Execute(e, c).0) && Execute(e, c).0.books.Keys == e.books.Keys
    ensures forall s :: s in e.books && s != c.Symbol() ==> Execute(e, c).0.books[s] == e.books[s]
  {
    match c {
      case Submitting(o) =>
        if Validate(e.books.Keys, o).None? {
          SubmitKeeps(e, o);
        }
      case Cancelling(s, id) =>
        CancelKeeps(e, s, id);
    }
  }

  lemma CancelKeeps(e: EngineState, s: string, id: OrderId)
    requires GoodEngine(e)
    ensures GoodEngine(CancelIn(e, s, id).0) && CancelIn(e, s, id).0.books.Keys == e.books.Keys
    ensures forall t :: t in e.books && t != s ==> CancelIn(e, s, id).0.books[t] == e.books[t]
  {
    if s in e.books {
      CancelKeepsGood(e.books[s], id);
      GoodParts(e, s, Cancel(e.books[s], id).0, e.registry);
      if IsPending(e.registry, id) {
        CancelPendingKeeps(e, id);
      }
    }
  }

  lemma CancelPendingKeeps(e: EngineState, id: OrderId)
    requires GoodEngine(e) && IsPending(e.registry, id)
    ensures GoodEngine(e.(registry := CancelPending(e.registry, id).0))
  {
    var t :| id in Ids(e.registry.Of(t));
    CancelPendingExact(e.registry, id, t);
    RemoveKeeps(e.registry.Of(t), id);
    var r' := CancelPending(e.registry, id).0;
    forall s, o | o in r'.Of(s) ensures o in e.registry.Of(s) {
    }
    forall s | r'.Of(s) != [] ensures s in e.books {
      assert r'.Of(s)[0] in r'.Of(s);
      assert e.registry.Of(s) != [];
    }
  }

  lemma RegisterKeepsEngine(e: EngineState, o: OrderData)
    requires GoodEngine(e) && Submittable(e, o) && Validate(e.books.Keys, o).None? && IsConditional(o)
    ensures GoodEngine(e.(registry := Register(e.registry, o)))
  {
    RegisterKeeps(e.registry, o);
    var r' := Register(e.registry, o);
    forall s, x | x in r'.Of(s) ensures x.id.Client? && x.quantity > 0.0 && x.filledQuantity == 0.0 {
      assert x in e.registry.Of(s) || x == o.(status := PENDING);
    }
  }

  lemma ActivateKeeps(e: EngineState, symbol: string, b: Book, last: real)
    requires GoodEngine(e) && Good(b) && symbol in e.books && b.symbol == symbol
    ensures GoodEngine(Activate(e, symbol, b, last).0) && Activate(e, symbol, b, last).0.books.Keys == e.books.Keys
    ensures forall s :: s in e.books && s != symbol ==> Activate(e, symbol, b, last).0.books[s] == e.books[s]
  {
    FiredAreTakers(e, symbol, last);
    TickKeeps(e.registry, symbol, last);
    var (registry, fired) := Tick(e.registry, symbol, last);
    SweepStopsKeeps(b, fired);
    GoodParts(e, symbol, SweepStops(b, fired).0, registry);
  }

  /** A valid order for the book, by cases. */
  lemma SubmitToBook(e: EngineState, o: OrderData)
    requires GoodEngine(e) && Submittable(e, o) && Validate(e.books.Keys, o).None? && !IsConditional(o)
    ensures o.symbol in e.books && Good(e.books[o.symbol]) && Fresh(o) && IsNew(e.books[o.symbol], o)
    ensures AllResting(e.books[o.symbol].Queue(o.side.Opposite()))
    ensures var r := Add(e.books[o.symbol], o);
            && Good(r.book) && r.book.symbol == o.symbol
            && Submit(e, o).0 == (if r.trades == [] then EngineState(e.books[o.symbol := r.book], e.registry)
                                  else Activate(e, o.symbol, r.book, r.trades[|r.trades| - 1].price).0)
  {
    FreshAfterValidation(e, o);
    AddKeepsGood(e.books[o.symbol], o);
    AddKeepsSymbol(e.books[o.symbol], o);
  }

  lemma ActivateAfterBook(e: EngineState, symbol: string, b: Book, last: real)
    requires GoodEngine(e) && Good(b) && symbol in e.books && b.symbol == symbol
    ensures GoodEngine(e.(books := e.books[symbol := b]))
    ensures Activate(e.(books := e.books[symbol := b]), symbol, b, last) == Activate(e, symbol, b, last)
  {
    GoodWithBook(e, symbol, b);
    FiredAreTakers(e, symbol, last);
    var book := SweepStops(b, Tick(e.registry, symbol, last).1).0;
    assert e.books[symbol := b][symbol := book] == e.books[symbol := book];
  }

  /** Matching on the book and activating stops are two steps in a row. */
  lemma SubmitInSteps(e: EngineState, o: OrderData)
    requires GoodEngine(e) && Submittable(e, o) && Validate(e.books.Keys, o).None? && !IsConditional(o)
    ensures o.symbol in e.books && AllResting(e.books[o.symbol].Queue(o.side.Opposite()))
    ensures var r := Add(e.books[o.symbol], o);
            var e1 := e.(books := e.books[o.symbol := r.book]);
            && GoodEngine(e1) && Good(r.book)
            && Submit(e, o) ==
                 if r.trades == [] then (e1, Accepted(Effect(r.order, r.trades, [])))
                 else
                   var (e2, trades, stops) := Activate(e1, o.symbol, r.book, r.trades[|r.trades| - 1].price);
                   (e2, Accepted(Effect(r.order, r.trades + trades, stops)))
  {
    hide GoodEngine, Good, Activate;
    SubmitToBook(e, o);
    var r := Add(e.books[o.symbol], o);
    GoodWithBook(e, o.symbol, r.book);
    if r.trades != [] {
      var last := r.trades[|r.trades| - 1].price;
      ActivateAfterBook(e, o.symbol, r.book, last);
    }
  }

  /** A submission is accepted exactly when every condition on its order holds,
      and a rejected one changes nothing. */
  lemma AcceptedExactly(e: EngineState, o: OrderData)
    requires GoodEngine(e) && Submittable(e, o)
    ensures Submit(e, o).1.Accepted? <==>
              && !Blank(NameOf(o.id)) && !Blank(o.userId) && o.symbol in e.books && o.quantity > 0.0
              && (o.kind in {LIMIT, ICEBERG} ==> o.price > 0.0)
              && (o.kind in {STOP_LOSS, TRAILING_STOP} ==> o.stopPrice.Some? && o.stopPrice.value > 0.0)
    ensures !Submit(e, o).1.Accepted? ==> Submit(e, o).0 == e
  {
    hide GoodEngine, Submittable, Add, Activate, Blank;
    if Validate(e.books.Keys, o).None? && !IsConditional(o) {
      SubmitToBook(e, o);
    }
  }

  lemma SubmitKeeps(e: EngineState, o: OrderData)
    requires GoodEngine(e) && Submittable(e, o) && Validate(e.books.Keys, o).None?
    ensures GoodEngine(Submit(e, o).0) && Submit(e, o).0.books.Keys == e.books.Keys
    ensures forall s :: s in e.books && s != o.symbol ==> Submit(e, o).0.books[s] == e.books[s]
  {
    hide Good, Add, RegistryOk, PendingFresh, Fresh, IsNew, Register, Activate;
    if IsConditional(o) {
      RegisterKeepsEngine(e, o);
    } else {
      SubmitToBook(e, o);
      var r := Add(e.books[o.symbol], o);
      if r.trades == [] {
        GoodParts(e, o.symbol, r.book, e.registry);
      } else {
        ActivateKeeps(e, o.symbol, r.book, r.trades[|r.trades| - 1].price);
      }
    }
  }

  lemma AddKeepsSymbol(b: Book, o: OrderData)
    requires Good(b) && Fresh(o) && IsNew(b, o)
    ensures AllResting(b.Queue(o.side.Opposite())) && Add(b, o).book.symbol == b.symbol
  {
    hide Sorted, Distinct, Insert, Run, Resting;
    GoodQueues(b);
  }
}
