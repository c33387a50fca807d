/** What a sweep does to the queue it consumes. */
module SweepTheorems {
  import opened Types
  import opened Queues
  import opened Matching

  function Prices(q: seq<OrderData>): set<real> {
    set o | o in q :: o.price
  }

  function Traded(trades: seq<TradeExecution>): real {
    if trades == [] then 0.0 else Traded(trades[..|trades| - 1]) + trades[|trades| - 1].quantity
  }

  /** Visible plus hidden quantity. */
  function Depth(o: OrderData): real {
    Remaining(o) + Hidden(o)
  }

  /** Liquidity of an order that a sweep with this cutoff may take. */
  function Reach(cutoff: Option<real>): OrderData -> real {
    (o: OrderData) => if Accepts(cutoff, o) then Depth(o) else 0.0
  }

  function EffortWithin(cutoff: Option<real>): OrderData -> real {
    (o: OrderData) => if Accepts(cutoff, o) then Effort(o) else 0.0
  }

  function MakerId(t: TradeExecution, takerSide: Side): OrderId {
    if takerSide == BUY then t.sellOrderId else t.buyOrderId
  }

  // ---------- one step ----------

  ghost predicate Ready(m: Match) {
    QueueOk(m.queue, m.taker.side.Opposite(), m.counter) && m.taker.filledQuantity <= m.taker.quantity
  }

  /** An exchange of queues that adds no price and no id but a slice of the head. */
  ghost predicate Follows(q': seq<OrderData>, q: seq<OrderData>, side: Side, n: nat)
    requires q != []
  {
    && QueueOk(q', side, n + 1)
    && Prices(q') <= Prices(q)
    && Ids(q') <= Ids(q) + {Slice(q[0].id, n + 1)}
  }

  lemma HeadReplaced(q: seq<OrderData>, h: OrderData, side: Side, n: nat)
    requires q != [] && QueueOk(q, side, n)
    requires h.side == side && Resting(h) && h.id == q[0].id && h.price == q[0].price
    ensures Follows([h] + q[1..], q, side, n)
  {
    var r := [h] + q[1..];
    IdsCons(q);
    IdsCons(r);
    assert r[1..] == q[1..];
    assert q[0] in q;
    assert forall o :: o in r ==> o.price in Prices(q);
    assert Ids(r) == Ids(q);
  }

  lemma HeadRemoved(q: seq<OrderData>, side: Side, n: nat)
    requires q != [] && QueueOk(q, side, n)
    ensures QueueOk(q[1..], side, n) && Follows(q[1..], q, side, n)
    ensures q[0].id !in Ids(q[1..])
  {
    IdsCons(q);
  }

  lemma HeadSliced(q: seq<OrderData>, s: OrderData, side: Side, n: nat)
    requires q != [] && QueueOk(q, side, n)
    requires s.side == side && Resting(s) && s.id == Slice(q[0].id, n + 1) && s.price == q[0].price
    ensures Follows(Insert(q[1..], s), q, side, n) && q[0].id !in Ids(Insert(q[1..], s))
  {
    HeadRemoved(q, side, n);
    assert q[0] in q && q[0].price in Prices(q);
    assert s.id !in Ids(q[1..]);
    InsertKeeps(q[1..], s);
    var r := Insert(q[1..], s);
    assert QueueOk(r, side, n + 1);
    assert forall o :: o in r ==> o.price in Prices(q);
    assert s.id != q[0].id;
  }

  /** A step keeps the queue well formed; only a freshly stamped slice may join
      it, and the head stays only when the taker is done. */
  lemma StepKeeps(m: Match)
    requires Ready(m) && m.queue != [] && Remaining(m.taker) > 0.0
    ensures Ready(Step(m)) && Follows(Step(m).queue, m.queue, m.taker.side.Opposite(), m.counter)
    ensures m.queue[0].id in Ids(Step(m).queue) ==> Remaining(Step(m).taker) == 0.0
  {
    hide Sorted, Distinct, TradeOf;
    var q, side, n, fill := m.queue, m.taker.side.Opposite(), m.counter, FillSize(m);
    var h := q[0];
    assert h in q && Resting(h);
    if h.filledQuantity + fill < h.quantity {
      HeadReplaced(q, h.(filledQuantity := h.filledQuantity + fill, status := PARTIALLY_FILLED), side, n);
    } else if Hidden(h) > 0.0 {
      SliceShrinks(h, n + 1);
      HeadSliced(q, NextSlice(h, n + 1), side, n);
    } else {
      HeadRemoved(q, side, n);
    }
  }

  lemma StepExtends(m: Match)
    requires m.queue != []
    ensures m.trades < Step(m).trades && Step(m).trades[..|m.trades|] == m.trades
    ensures Traded(Step(m).trades) == Traded(m.trades) + FillSize(m)
  {
    assert Step(m).trades[..|m.trades|] == m.trades;
  }

  /** Whatever an order is worth that a slice shares with its parent, a step
      moves only the fill out of the queue. */
  lemma StepMoves(m: Match, cutoff: Option<real>)
    requires Ready(m) && !Stops(m, cutoff)
    ensures Sum(Reach(cutoff), Step(m).queue) == Sum(Reach(cutoff), m.queue) - FillSize(m)
    ensures Sum(Depth, Step(m).queue) == Sum(Depth, m.queue) - FillSize(m)
  {
    hide Sorted, Distinct, TradeOf, Insert;
    var q, h, stamp := m.queue, m.queue[0], m.counter + 1;
    var q' := Step(m).queue;
    assert h in q && Resting(h);
    if h.filledQuantity + FillSize(m) < h.quantity {
      assert q'[1..] == q[1..];
    } else if Hidden(h) > 0.0 {
      SliceShrinks(h, stamp);
      SumInsert(Reach(cutoff), q[1..], NextSlice(h, stamp));
      SumInsert(Depth, q[1..], NextSlice(h, stamp));
    }
  }

  // ---------- the whole sweep ----------

  /** What a proof by induction on a sweep needs at a step that does not stop. */
  lemma Continue(m: Match, cutoff: Option<real>)
    requires Ready(m) && !Stops(m, cutoff)
    ensures Ready(Step(m)) && Run(m, cutoff) == Run(Step(m), cutoff)
    ensures Sum(Effort, m.queue) >= 0.0 && Sum(Effort, Step(m).queue) >= 0.0
    ensures Sum(Effort, Step(m).queue) == Sum(Effort, m.queue) - 1.0
         || (Sum(Effort, Step(m).queue) == Sum(Effort, m.queue) && Remaining(Step(m).taker) == 0.0)
    ensures m.queue[0] in m.queue && Resting(m.queue[0]) && FillSize(m) > 0.0
  {
    StepProgress(m);
    EffortPositive(m.queue);
    EffortPositive(Step(m).queue);
    StepKeeps(m);
    assert m.queue[0] in m.queue;
  }

  lemma {:induction false} RunKeeps(m: Match, cutoff: Option<real>)
    requires Ready(m)
    ensures Ready(Run(m, cutoff)) && Stops(Run(m, cutoff), cutoff)
    ensures Prices(Run(m, cutoff).queue) <= Prices(m.queue)
    ensures forall id :: id in Ids(Run(m, cutoff).queue) && id !in Ids(m.queue) ==> id.Slice? && id.stamp > m.counter
    ensures m.trades <= Run(m, cutoff).trades
    ensures Run(m, cutoff).counter == m.counter + |Run(m, cutoff).trades| - |m.trades|
    ensures Run(m, cutoff).symbol == m.symbol
    ensures Run(m, cutoff).taker == m.taker.(filledQuantity := Run(m, cutoff).taker.filledQuantity)
    decreases Sum(Effort, m.queue), if Remaining(m.taker) > 0.0 then 1 else 0
  {
    if !Stops(m, cutoff) {
      Continue(m, cutoff);
      StepKeeps(m);
      StepExtends(m);
      RunKeeps(Step(m), cutoff);
    }
  }

  /** Nothing acceptable is left when the head is not acceptable. */
  lemma {:induction false} NothingInReach(q: seq<OrderData>, cutoff: Option<real>)
    requires Sorted(q) && (q == [] || !Accepts(cutoff, q[0]))
    ensures Sum(Reach(cutoff), q) == 0.0
    ensures forall o :: o in q ==> !Accepts(cutoff, o)
  {
    if q != [] {
      IdsCons(q);
      assert q[1..] != [] ==> q[1..][0] in q[1..];
      NothingInReach(q[1..], cutoff);
    }
  }

  /** Closed form of a fill: the smaller of what the taker still wants and all
      visible and hidden liquidity at acceptable prices. Exactly the traded
      quantity leaves the queue. */
  lemma {:induction false} FillClosedForm(m: Match, cutoff: Option<real>)
    requires Ready(m)
    ensures Run(m, cutoff).taker.filledQuantity
         == m.taker.filledQuantity + Min(Remaining(m.taker), Sum(Reach(cutoff), m.queue))
    ensures Traded(Run(m, cutoff).trades) - Traded(m.trades)
         == Run(m, cutoff).taker.filledQuantity - m.taker.filledQuantity
         == Sum(Depth, m.queue) - Sum(Depth, Run(m, cutoff).queue)
    decreases Sum(Effort, m.queue), if Remaining(m.taker) > 0.0 then 1 else 0
  {
    if Stops(m, cutoff) {
      ReachPositive(m.queue, cutoff);
      if Remaining(m.taker) > 0.0 {
        NothingInReach(m.queue, cutoff);
      }
    } else {
      Continue(m, cutoff);
      StepKeeps(m);
      StepExtends(m);
      StepMoves(m, cutoff);
      ReachPositive(Step(m).queue, cutoff);
      FillClosedForm(Step(m), cutoff);
    }
  }

  lemma ReachPositive(q: seq<OrderData>, cutoff: Option<real>)
    requires AllResting(q)
    ensures Sum(Reach(cutoff), q) >= 0.0
  {
    forall o | o in q ensures Reach(cutoff)(o) >= 0.0 {
      assert Resting(o);
    }
    SumNonNegative(Reach(cutoff), q);
  }

  lemma WithinPositive(q: seq<OrderData>, cutoff: Option<real>)
    ensures Sum(EffortWithin(cutoff), q) >= 0.0
  {
    forall o | o in q ensures EffortWithin(cutoff)(o) >= 0.0 {
      EffortPositive([o]);
    }
    SumNonNegative(EffortWithin(cutoff), q);
  }

  /** The number of fills is bounded by the slices still to come at crossed prices. */
  lemma {:induction false} TradeCountBound(m: Match, cutoff: Option<real>)
    requires Ready(m)
    ensures (|Run(m, cutoff).trades| - |m.trades|) as real <= Sum(EffortWithin(cutoff), m.queue)
    decreases Sum(Effort, m.queue), if Remaining(m.taker) > 0.0 then 1 else 0
  {
    WithinPositive(m.queue, cutoff);
    if !Stops(m, cutoff) {
      Continue(m, cutoff);
      StepKeeps(m);
      RunKeeps(Step(m), cutoff);
      TradeCountBound(Step(m), cutoff);
      StepSpendsEffort(m, cutoff);
    }
  }

  lemma StepSpendsEffort(m: Match, cutoff: Option<real>)
    requires Ready(m) && !Stops(m, cutoff)
    ensures Sum(EffortWithin(cutoff), m.queue) >= 1.0
    ensures Remaining(Step(m).taker) > 0.0 ==>
              Sum(EffortWithin(cutoff), Step(m).queue) <= Sum(EffortWithin(cutoff), m.queue) - 1.0
  {
    hide Sorted, Distinct, Resting, TradeOf, SlicesLeft, Insert, QueueOk, Effort;
    Continue(m, cutoff);
    var q, h := m.queue, m.queue[0];
    OneOrMore(h);
    WithinPositive(q[1..], cutoff);
    if h.filledQuantity + FillSize(m) >= h.quantity && Hidden(h) > 0.0 {
      SliceShrinks(h, m.counter + 1);
      SumInsert(EffortWithin(cutoff), q[1..], NextSlice(h, m.counter + 1));
      assert Step(m).queue == Insert(q[1..], NextSlice(h, m.counter + 1));
    }
  }

  lemma OneOrMore(o: OrderData)
    ensures Effort(o) >= 1.0
  {
    if Hidden(o) > 0.0 && o.displayQty.Some? && o.displayQty.value > 0.0 {
      Ordered(Hidden(o), o.displayQty.value, Hidden(o) / o.displayQty.value);
    }
  }

  // ---------- priority ----------

  ghost predicate Before(q: seq<OrderData>, a: OrderId, b: OrderId) {
    q != [] && ((q[0].id == a && b in Ids(q[1..])) || Before(q[1..], a, b))
  }

  ghost predicate TradesWith(from: Match, to: Match, id: OrderId) {
    exists n :: |from.trades| <= n < |to.trades| && MakerId(to.trades[n], from.taker.side) == id
  }

  lemma {:induction false} InsertKeepsBefore(q: seq<OrderData>, o: OrderData, a: OrderId, b: OrderId)
    requires Before(q, a, b)
    ensures Before(Insert(q, o), a, b)
  {
    var r := Insert(q, o);
    if Rank(o) < Rank(q[0]) {
      assert r[1..] == q;
    } else {
      assert r[1..] == Insert(q[1..], o);
      if q[0].id == a && b in Ids(q[1..]) {
        InsertMembers(q[1..], o);
        var x :| x in q[1..] && x.id == b;
        assert x in r[1..];
      } else {
        InsertKeepsBefore(q[1..], o, a, b);
      }
    }
  }

  /** Only orders that were in the queue, or slices stamped since, are traded with. */
  lemma {:induction false} TradesComeFromQueue(m: Match, cutoff: Option<real>, id: OrderId)
    requires Ready(m) && TradesWith(m, Run(m, cutoff), id)
    ensures id in Ids(m.queue) || (id.Slice? && id.stamp > m.counter)
    decreases Sum(Effort, m.queue), if Remaining(m.taker) > 0.0 then 1 else 0
  {
    if !Stops(m, cutoff) {
      Continue(m, cutoff);
      StepKeeps(m);
      StepExtends(m);
      RunKeeps(Step(m), cutoff);
      IdsCons(m.queue);
      FirstTrade(m, cutoff);
      if id != m.queue[0].id {
        TradesComeFromQueue(Step(m), cutoff, id);
      }
    }
  }

  lemma FirstTrade(m: Match, cutoff: Option<real>)
    requires Ready(m) && !Stops(m, cutoff)
    ensures AllResting(Step(m).queue) && Step(m).trades <= Run(m, cutoff).trades
            && Run(m, cutoff) == Run(Step(m), cutoff)
    ensures |m.trades| < |Run(m, cutoff).trades|
    ensures Run(m, cutoff).trades[|m.trades|]
         == TradeOf(m.symbol, m.taker, m.queue[0], FillSize(m), m.counter + 1)
    ensures forall id :: TradesWith(m, Run(m, cutoff), id)
                    <==> id == m.queue[0].id || TradesWith(Step(m), Run(m, cutoff), id)
  {
    StepProgress(m);
    StepKeeps(m);
    StepExtends(m);
    RunKeeps(Step(m), cutoff);
    var r := Run(m, cutoff);
    assert r.trades[|m.trades|] == Step(m).trades[|m.trades|];
    assert MakerId(r.trades[|m.trades|], m.taker.side) == m.queue[0].id;
    forall id | TradesWith(m, r, id) && id != m.queue[0].id ensures TradesWith(Step(m), r, id) {
      var n :| |m.trades| <= n < |r.trades| && MakerId(r.trades[n], m.taker.side) == id;
    }
  }

  /** An order in the queue that is gone stays gone. */
  lemma GoneForGood(m: Match, cutoff: Option<real>, o: OrderData)
    requires Ready(m) && !Stops(m, cutoff) && o in m.queue && o.id !in Ids(Step(m).queue)
    ensures o.id !in Ids(Run(m, cutoff).queue)
  {
    Continue(m, cutoff);
    RunKeeps(Step(m), cutoff);
    assert StampedUpTo(o.id, m.counter);
  }

  lemma StepKeepsBefore(m: Match, cutoff: Option<real>, a: OrderId, b: OrderId)
    requires Ready(m) && !Stops(m, cutoff) && Before(m.queue, a, b)
    requires a != m.queue[0].id && Remaining(Step(m).taker) > 0.0
    ensures Before(Step(m).queue, a, b)
  {
    if Hidden(m.queue[0]) > 0.0 {
      InsertKeepsBefore(m.queue[1..], NextSlice(m.queue[0], m.counter + 1), a, b);
    }
  }

  /** Price-time priority: once an order has been traded with, no order that was
      in front of it is traded with any more: each of those has left the queue
      completely filled. */
  lemma {:induction false} PriorityRespected(m: Match, cutoff: Option<real>, earlier: OrderId, later: OrderId, n: nat)
    requires Ready(m) && Before(m.queue, earlier, later)
    requires |m.trades| <= n < |Run(m, cutoff).trades| && MakerId(Run(m, cutoff).trades[n], m.taker.side) == later
    ensures earlier !in Ids(Run(m, cutoff).queue)
    ensures forall i :: n <= i < |Run(m, cutoff).trades| ==> MakerId(Run(m, cutoff).trades[i], m.taker.side) != earlier
    decreases Sum(Effort, m.queue), if Remaining(m.taker) > 0.0 then 1 else 0
  {
    if !Stops(m, cutoff) {
      Continue(m, cutoff);
      StepKeeps(m);
      FirstTrade(m, cutoff);
      BeforeMembers(m.queue, earlier, later);
      assert TradesWith(Step(m), Run(m, cutoff), later);
      if earlier == m.queue[0].id {
        GoneForGood(m, cutoff, m.queue[0]);
        NoLongerTraded(m, cutoff, n);
      } else {
        StepKeepsBefore(m, cutoff, earlier, later);
        PriorityRespected(Step(m), cutoff, earlier, later, n);
      }
    }
  }

  /** A head that another order's fill follows is not traded with again. */
  lemma NoLongerTraded(m: Match, cutoff: Option<real>, n: nat)
    requires Ready(m) && !Stops(m, cutoff) && |m.trades| < n < |Run(m, cutoff).trades|
    ensures AllResting(Step(m).queue)
    ensures forall i :: n <= i < |Run(m, cutoff).trades| ==>
              MakerId(Run(m, cutoff).trades[i], m.taker.side) != m.queue[0].id
  {
    Continue(m, cutoff);
    StepKeeps(m);
    FirstTrade(m, cutoff);
    assert StampedUpTo(m.queue[0].id, m.counter);
    forall i | n <= i < |Run(m, cutoff).trades|
      ensures MakerId(Run(m, cutoff).trades[i], m.taker.side) != m.queue[0].id
    {
      if MakerId(Run(m, cutoff).trades[i], m.taker.side) == m.queue[0].id {
        assert TradesWith(Step(m), Run(Step(m), cutoff), m.queue[0].id);
        TradesComeFromQueue(Step(m), cutoff, m.queue[0].id);
      }
    }
  }

  /** An exhausted iceberg slice goes behind every order of its price: the new
      slice has all of those in front of it. */
  lemma SliceGoesBehind(m: Match, cutoff: Option<real>, x: OrderData)
    requires Ready(m) && !Stops(m, cutoff) && Hidden(m.queue[0]) > 0.0 && FillSize(m) == Remaining(m.queue[0])
    requires x in m.queue[1..] && x.price == m.queue[0].price
    ensures Before(Step(m).queue, x.id, NextSlice(m.queue[0], m.counter + 1).id)
    ensures NextSlice(m.queue[0], m.counter + 1) in Step(m).queue
  {
    hide Insert, TradeOf, Before, Distinct;
    var slice := NextSlice(m.queue[0], m.counter + 1);
    IdsCons(m.queue);
    assert m.queue[0] in m.queue && x in m.queue;
    InsertMembers(m.queue[1..], slice);
    InsertedBehind(m.queue[1..], slice, x);
  }

  lemma {:induction false} InsertedBehind(q: seq<OrderData>, o: OrderData, x: OrderData)
    requires Sorted(q) && x in q && Rank(x) <= Rank(o)
    ensures Before(Insert(q, o), x.id, o.id)
  {
    IdsCons(q);
    var r := Insert(q, o);
    assert r[1..] == Insert(q[1..], o);
    InsertMembers(q[1..], o);
    if x == q[0] {
      assert o in r[1..];
    } else {
      InsertedBehind(q[1..], o, x);
    }
  }

  lemma {:induction false} BeforeMembers(q: seq<OrderData>, a: OrderId, b: OrderId)
    requires Before(q, a, b) && Distinct(q)
    ensures a in Ids(q) && b in Ids(q[1..]) && a != b && b != q[0].id
  {
    IdsCons(q);
    if !(q[0].id == a && b in Ids(q[1..])) {
      BeforeMembers(q[1..], a, b);
      IdsCons(q[1..]);
    } else {
      assert q[0] in q;
    }
  }

  // ---------- prices ----------

  /** Fills of one sweep never get better: their prices are ranked in order. */
  lemma {:induction false} FillPricesInOrder(m: Match, cutoff: Option<real>, i: nat, j: nat)
    requires Ready(m) && |m.trades| <= i <= j < |Run(m, cutoff).trades|
    ensures var side, trades := m.taker.side.Opposite(), Run(m, cutoff).trades;
            RankOf(side, trades[i].price) <= RankOf(side, trades[j].price)
    decreases Sum(Effort, m.queue), if Remaining(m.taker) > 0.0 then 1 else 0
  {
    if !Stops(m, cutoff) {
      Continue(m, cutoff);
      StepKeeps(m);
      FirstTrade(m, cutoff);
      if i > |m.trades| {
        FillPricesInOrder(Step(m), cutoff, i, j);
      } else if j > i {
        FillPricesFromQueue(Step(m), cutoff, j);
        var p := Run(m, cutoff).trades[j].price;
        assert p in Prices(m.queue);
        var o :| o in m.queue && o.price == p;
        IdsCons(m.queue);
        assert m.queue[0] in m.queue;
      }
    }
  }

  lemma {:induction false} FillPricesFromQueue(m: Match, cutoff: Option<real>, n: nat)
    requires Ready(m) && |m.trades| <= n < |Run(m, cutoff).trades|
    ensures Run(m, cutoff).trades[n].price in Prices(m.queue)
    ensures cutoff.Some? ==> RankOf(m.taker.side.Opposite(), Run(m, cutoff).trades[n].price) <= cutoff.value
    ensures Run(m, cutoff).trades[n].quantity > 0.0
    decreases Sum(Effort, m.queue), if Remaining(m.taker) > 0.0 then 1 else 0
  {
    if !Stops(m, cutoff) {
      Continue(m, cutoff);
      StepKeeps(m);
      FirstTrade(m, cutoff);
      assert m.queue[0] in m.queue;
      if n > |m.trades| {
        FillPricesFromQueue(Step(m), cutoff, n);
      }
    }
  }
}
