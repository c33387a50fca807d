/** Price-time matching on flat queues: a greedy consumer of one sorted queue,
    and the order-type rules of the book on top of it. */
module Matching {
  import opened Types
  import opened Queues

  // ---------- what a resting order looks like ----------

  /** An order as it rests: partly unfilled, its status telling whether any of
      it is filled, an iceberg with a positive slice size. */
  predicate Resting(o: OrderData) {
    && o.kind in {LIMIT, ICEBERG}
    && 0.0 <= o.filledQuantity < o.quantity
    && o.status == StatusFor(o.filledQuantity)
    && (o.kind == ICEBERG ==>
          && o.displayQty.Some? && o.displayQty.value > 0.0
          && o.hiddenQty.Some? && o.hiddenQty.value >= 0.0)
  }

  predicate StampedUpTo(id: OrderId, counter: nat) {
    id.Slice? ==> id.stamp <= counter
  }

  ghost predicate QueueOk(q: seq<OrderData>, side: Side, counter: nat) {
    && Sorted(q) && Distinct(q)
    && forall o :: o in q ==> o.side == side && Resting(o) && StampedUpTo(o.id, counter)
  }

  // ---------- one sweep ----------

  datatype Match = Match(
    symbol: string, queue: seq<OrderData>, taker: OrderData,
    trades: seq<TradeExecution>, counter: nat)

  /** The worst rank the taker accepts; a sweep without a cutoff takes any price. */
  predicate Accepts(cutoff: Option<real>, maker: OrderData) {
    cutoff.Some? ==> Rank(maker) <= cutoff.value
  }

  function LimitOf(taker: OrderData): Option<real> {
    Some(RankOf(taker.side.Opposite(), taker.price))
  }

  predicate Stops(m: Match, cutoff: Option<real>) {
    m.queue == [] || Remaining(m.taker) <= 0.0 || !Accepts(cutoff, m.queue[0])
  }

  function TradeOf(symbol: string, taker: OrderData, maker: OrderData, quantity: real, number: nat): TradeExecution {
    var buy := if taker.side == BUY then taker else maker;
    var sell := if taker.side == BUY then maker else taker;
    TradeExecution(number, symbol, buy.id, sell.id, buy.userId, sell.userId, maker.price, quantity)
  }

  /** The visible slice that replaces an exhausted one. */
  function NextSlice(spent: OrderData, stamp: nat): OrderData
    requires Hidden(spent) > 0.0
  {
    var size := if spent.displayQty.Some? then spent.displayQty.value else 1.0;
    var quantity := Min(size, Hidden(spent));
    spent.(id := Slice(spent.id, stamp), quantity := quantity, filledQuantity := 0.0, status := OPEN,
           stopPrice := None, trailingDelta := None,
           displayQty := Some(size), hiddenQty := Some(Hidden(spent) - quantity))
  }

  /** What the head of the queue becomes after `fill` of it has traded. */
  function AfterFill(q: seq<OrderData>, fill: real, stamp: nat): seq<OrderData>
    requires q != []
  {
    var filled := q[0].filledQuantity + fill;
    if filled < q[0].quantity then [q[0].(filledQuantity := filled, status := PARTIALLY_FILLED)] + q[1..]
    else if Hidden(q[0]) > 0.0 then Insert(q[1..], NextSlice(q[0], stamp))
    else q[1..]
  }

  function FillSize(m: Match): real
    requires m.queue != []
  {
    Min(Remaining(m.taker), Remaining(m.queue[0]))
  }

  function Step(m: Match): Match
    requires m.queue != []
  {
    var fill := FillSize(m);
    var trade := TradeOf(m.symbol, m.taker, m.queue[0], fill, m.counter + 1);
    Match(m.symbol, AfterFill(m.queue, fill, m.counter + 1),
          m.taker.(filledQuantity := m.taker.filledQuantity + fill), m.trades + [trade], m.counter + 1)
  }

  // ---------- termination over real quantities ----------

  /** How many slices an order will still show after the present one. */
  function SlicesLeft(o: OrderData): int {
    if Hidden(o) > 0.0 && o.displayQty.Some? && o.displayQty.value > 0.0
    then Ceil(Hidden(o) / o.displayQty.value)
    else 0
  }

  function Ceil(x: real): int {
    -((-x).Floor)
  }

  /** Fills an order can still take part in. */
  function Effort(o: OrderData): real {
    1.0 + SlicesLeft(o) as real
  }

  ghost predicate AllResting(q: seq<OrderData>) {
    forall o :: o in q ==> Resting(o)
  }

  lemma OneSliceFewer(hidden: real, size: real)
    requires 0.0 < size < hidden
    ensures Ceil((hidden - size) / size) == Ceil(hidden / size) - 1
    ensures Ceil(hidden / size) >= 2
  {
    var x := hidden / size;
    assert (x - 1.0) * size == x * size - size == hidden - size;
    Quotient(hidden - size, size, x - 1.0);
    Ordered(hidden, size, x);
  }

  lemma Quotient(a: real, b: real, q: real)
    requires b > 0.0 && q * b == a
    ensures a / b == q
  {
    assert (a / b) * b == a;
    assert (a / b - q) * b == 0.0;
  }

  lemma Ordered(a: real, b: real, q: real)
    requires b > 0.0 && q * b == a
    ensures a > b <==> q > 1.0
    ensures a > 0.0 <==> q > 0.0
  {
    assert (q - 1.0) * b == a - b;
  }

  lemma SliceShrinks(o: OrderData, stamp: nat)
    requires Resting(o) && Hidden(o) > 0.0
    ensures Resting(NextSlice(o, stamp))
    ensures Effort(NextSlice(o, stamp)) == Effort(o) - 1.0
    ensures Remaining(NextSlice(o, stamp)) + Hidden(NextSlice(o, stamp)) == Hidden(o)
    ensures Rank(NextSlice(o, stamp)) == Rank(o)
  {
    var size := o.displayQty.value;
    if size < Hidden(o) {
      OneSliceFewer(Hidden(o), size);
    } else {
      Ordered(Hidden(o), size, Hidden(o) / size);
    }
  }

  lemma EffortPositive(q: seq<OrderData>)
    ensures Sum(Effort, q) >= 0.0
  {
    forall o | o in q ensures Effort(o) >= 0.0 {
      if Hidden(o) > 0.0 && o.displayQty.Some? && o.displayQty.value > 0.0 {
        Ordered(Hidden(o), o.displayQty.value, Hidden(o) / o.displayQty.value);
      }
    }
    SumNonNegative(Effort, q);
  }

  /** Every step either finishes the taker or uses up one unit of effort. */
  lemma StepProgress(m: Match)
    requires m.queue != [] && AllResting(m.queue) && Remaining(m.taker) > 0.0
    ensures AllResting(Step(m).queue)
    ensures FillSize(m) > 0.0 && Remaining(Step(m).taker) >= 0.0
    ensures Remaining(Step(m).taker) > 0.0 ==> Sum(Effort, Step(m).queue) == Sum(Effort, m.queue) - 1.0
    ensures Sum(Effort, Step(m).queue) <= Sum(Effort, m.queue)
    ensures Sum(Effort, Step(m).queue) == Sum(Effort, m.queue) - 1.0
         || (Sum(Effort, Step(m).queue) == Sum(Effort, m.queue) && Remaining(Step(m).taker) == 0.0)
  {
    var q, h := m.queue, m.queue[0];
    assert h in q && Resting(h);
    if h.filledQuantity + FillSize(m) < h.quantity {
      HeadShrinks(q, FillSize(m), m.counter + 1);
    } else if Hidden(h) > 0.0 {
      HeadReplenished(q, m.counter + 1);
    }
  }

  lemma HeadShrinks(q: seq<OrderData>, fill: real, stamp: nat)
    requires q != [] && AllResting(q) && fill > 0.0 && q[0].filledQuantity + fill < q[0].quantity
    ensures AllResting(AfterFill(q, fill, stamp)) && Sum(Effort, AfterFill(q, fill, stamp)) == Sum(Effort, q)
  {
    var q' := AfterFill(q, fill, stamp);
    IdsCons(q);
    IdsCons(q');
    assert q'[1..] == q[1..] && Effort(q'[0]) == Effort(q[0]);
    assert q[0] in q && Resting(q'[0]);
  }

  lemma HeadReplenished(q: seq<OrderData>, stamp: nat)
    requires q != [] && AllResting(q) && Hidden(q[0]) > 0.0
    ensures AllResting(Insert(q[1..], NextSlice(q[0], stamp)))
    ensures Sum(Effort, Insert(q[1..], NextSlice(q[0], stamp))) == Sum(Effort, q) - 1.0
  {
    assert q[0] in q && Resting(q[0]);
    SliceShrinks(q[0], stamp);
    hide Effort, Resting, Insert;
    SumInsert(Effort, q[1..], NextSlice(q[0], stamp));
    InsertMembers(q[1..], NextSlice(q[0], stamp));
  }

  lemma {:induction false} InsertMembers(q: seq<OrderData>, o: OrderData)
    ensures forall x :: x in Insert(q, o) <==> x in q || x == o
  {
    if !(q == [] || Rank(o) < Rank(q[0])) {
      IdsCons(q);
      IdsCons(Insert(q, o));
      assert Insert(q, o)[1..] == Insert(q[1..], o);
      InsertMembers(q[1..], o);
    }
  }

  /** The whole sweep: consume from the head until the taker is filled, the
      queue is empty, or the head's price is not acceptable. */
  function Run(m: Match, cutoff: Option<real>): Match
    requires AllResting(m.queue)
    decreases Sum(Effort, m.queue), if Remaining(m.taker) > 0.0 then 1 else 0
  {
    if Stops(m, cutoff) then m
    else
      StepProgress(m);
      EffortPositive(m.queue);
      EffortPositive(Step(m).queue);
      Run(Step(m), cutoff)
  }

  // ---------- the book ----------

  datatype Book = Book(symbol: string, bids: seq<OrderData>, asks: seq<OrderData>, counter: nat) {
    function Queue(side: Side): seq<OrderData> {
      if side == BUY then bids else asks
    }

    function With(side: Side, q: seq<OrderData>, n: nat): Book {
      if side == BUY then this.(bids := q, counter := n) else this.(asks := q, counter := n)
    }
  }

  datatype Outcome = Outcome(book: Book, order: OrderData, trades: seq<TradeExecution>)

  ghost predicate Good(b: Book) {
    && QueueOk(b.bids, BUY, b.counter) && QueueOk(b.asks, SELL, b.counter)
    && Ids(b.bids) !! Ids(b.asks)
  }

  function EmptyBook(symbol: string): Book {
    Book(symbol, [], [], 0)
  }

  /** An order as its client hands it in. */
  predicate Fresh(o: OrderData) {
    && o.id.Client? && o.quantity > 0.0 && o.filledQuantity == 0.0
    && o.hiddenQty == None && o.status == PENDING
  }

  predicate IsNew(b: Book, o: OrderData) {
    o.id !in Ids(b.bids) && o.id !in Ids(b.asks)
  }

  function Start(b: Book, o: OrderData): Match {
    Match(b.symbol, b.Queue(o.side.Opposite()), o, [], b.counter)
  }

  function Settled(o: OrderData): OrderData {
    if o.filledQuantity >= o.quantity then o.(status := FILLED) else o
  }

  /** Sweep the opposite side, marking the taker FILLED when nothing is left of it. */
  function Sweep(b: Book, o: OrderData, cutoff: Option<real>): Outcome
    requires AllResting(b.Queue(o.side.Opposite()))
  {
    var m := Run(Start(b, o), cutoff);
    Outcome(b.With(o.side.Opposite(), m.queue, m.counter), Settled(m.taker), m.trades)
  }

  /** Only the first slice of an iceberg becomes visible. The slice size
      defaults to a tenth of the order, and at least one unit. */
  function FirstSlice(o: OrderData): OrderData {
    var hidden := if o.hiddenQty.Some? then o.hiddenQty.value else o.quantity;
    var size :=
      if o.displayQty.Some? && o.displayQty.value > 0.0 then o.displayQty.value
      else if o.quantity / 10.0 >= 1.0 then o.quantity / 10.0 else 1.0;
    var slice := Min(size, hidden);
    o.(displayQty := Some(size), quantity := slice, hiddenQty := Some(hidden - slice), status := OPEN)
  }

  function Rest(b: Book, o: OrderData): Book {
    b.With(o.side, Insert(b.Queue(o.side), o), b.counter)
  }

  function Add(b: Book, o: OrderData): Outcome
    requires AllResting(b.Queue(o.side.Opposite()))
  {
    match o.kind
    case FILL_OR_KILL =>
      if Sum(Remaining, b.Queue(o.side.Opposite())) < o.quantity then
        Outcome(b, o.(status := CANCELLED), [])
      else
        var r := Sweep(b, o, None);
        r.(order := r.order.(status := if r.order.filledQuantity == r.order.quantity then FILLED else CANCELLED))
    case ICEBERG =>
      Outcome(Rest(b, FirstSlice(o)), FirstSlice(o), [])
    case MARKET =>
      var r := Sweep(b, o, None);
      if Remaining(r.order) > 0.0 then r.(order := r.order.(status := CANCELLED)) else r
    case _ =>
      var r := Sweep(b, o, LimitOf(o));
      if o.kind == LIMIT && r.order.status !in {FILLED, CANCELLED} && Remaining(r.order) > 0.0 then
        var rested := r.order.(status := StatusFor(r.order.filledQuantity));
        r.(book := Rest(r.book, rested), order := rested)
      else r
  }

  /** Cancelling answers with the removed order, or with nothing for an unknown id. */
  function Cancel(b: Book, id: OrderId): (Book, Option<OrderData>) {
    if id in Ids(b.bids) then
      (b.(bids := Remove(b.bids, id)), Some(Find(b.bids, id).(status := CANCELLED)))
    else if id in Ids(b.asks) then
      (b.(asks := Remove(b.asks, id)), Some(Find(b.asks, id).(status := CANCELLED)))
    else (b, None)
  }
}
