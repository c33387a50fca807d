/** The in-memory order book: price levels updated in place, an id index, and
    a ghost shape that ties both to the flat queues of the specification. */
module OrderBooks {
  import opened Types
  import opened Queues
  import opened Matching
  import opened Levels
  import opened SweepTheorems
  import opened BookTheorems
  import opened BookObjects

  class OrderBook {
    const symbol: string
    /** Highest price first. */
    var bids: seq<PriceLevel>
    /** Lowest price first. */
    var asks: seq<PriceLevel>
    var orderIndex: Index
    var tradeIdCounter: nat

    ghost var shape: Shape
    ghost var Repr: set<object>

    function Levels(side: Side): seq<PriceLevel>
      reads this
    {
      if side == BUY then bids else asks
    }

    /** The book as the specification sees it: two flat queues. */
    ghost function State(): Book
      reads this
    {
      Book(symbol, Flat(shape.bidView), Flat(shape.askView), tradeIdCounter)
    }

    /** Every id leads to an object with that id and the tabled contents. */
    ghost predicate OrdersHeld()
      reads this, Repr
    {
      && orderIndex == shape.index
      && forall id :: id in orderIndex && id in shape.table ==>
           var o := orderIndex[id].order;
           o in Repr && o.id == id && o.Data() == shape.table[id]
    }

    /** Level objects have the noted price, queue and total. */
    ghost predicate LevelsHeld(side: Side)
      reads this, Repr
    {
      var levels, refs := Levels(side), shape.Refs(side);
      && |levels| == |refs|
      && forall i :: 0 <= i < |levels| ==> levels[i] in Repr && levels[i].side == side && levels[i].Refs() == refs[i]
    }

    /** The heap is as the shape says. */
    ghost predicate Held()
      reads this, Repr
    {
      this in Repr && OrdersHeld() && LevelsHeld(BUY) && LevelsHeld(SELL)
    }

    /** What holds between any two statements of a sweep; the level being
        consumed may be empty. */
    ghost predicate Inv()
      reads this, Repr
    {
      Held() && shape.Agrees()
    }

    ghost predicate Valid()
      reads this, Repr
    {
      Inv() && NoEmpty(shape.bidView) && NoEmpty(shape.askView) && Good(State())
    }

    lemma IsGood()
      requires Valid()
      ensures Good(State())
    {
    }

    constructor (symbol: string)
      ensures Valid() && fresh(Repr) && State() == EmptyBook(symbol)
    {
      this.symbol := symbol;
      bids, asks, orderIndex, tradeIdCounter := [], [], map[], 0;
      shape, Repr := Shape([], [], [], [], map[], map[]), {this};
    }

    method SetLevels(side: Side, levels: seq<PriceLevel>)
      modifies this`bids, this`asks
      ensures Levels(side) == levels && Levels(side.Opposite()) == old(Levels(side.Opposite()))
    {
      if side == BUY { bids := levels; } else { asks := levels; }
    }

    lemma LevelFacts(side: Side, i: nat)
      requires Inv() && i < |shape.View(side)|
      ensures |Levels(side)| == |shape.View(side)| == |shape.Refs(side)|
      ensures var l := Levels(side)[i];
              l in Repr && l.price == shape.View(side)[i].price && l.Refs() == shape.Refs(side)[i] && l.side == side
      ensures ShowsLevel(shape.Refs(side)[i], shape.View(side)[i], side, orderIndex, shape.table)
    {
      assert LevelsHeld(side) && shape.SideOk(side);
    }

    /** The level of a price, or -1. The scan gives up at the first worse price. */
    method FindLevelIndex(side: Side, price: real) returns (idx: int)
      requires Inv()
      ensures -1 <= idx < |shape.View(side)|
      ensures idx >= 0 ==> shape.View(side)[idx].price == price
      ensures idx == -1 ==> forall i :: 0 <= i < |shape.View(side)| ==> shape.View(side)[i].price != price
    {
      hide Flat, Distinct, LevelOk;
      var levels := Levels(side);
      assert LevelsHeld(side) && shape.SideOk(side);
      for i := 0 to |levels|
        invariant forall j :: 0 <= j < i ==> shape.View(side)[j].price != price
      {
        LevelFacts(side, i);
        if levels[i].price == price { return i; }
        if side == BUY && levels[i].price < price { return -1; }
        if side == SELL && levels[i].price > price { return -1; }
      }
      return -1;
    }

    /** The first level with a worse price, or the end. */
    method FindInsertIndex(side: Side, price: real) returns (idx: nat)
      requires Inv()
      ensures idx <= |shape.View(side)|
      ensures forall i :: 0 <= i < idx ==> RankOf(side, shape.View(side)[i].price) <= RankOf(side, price)
      ensures idx < |shape.View(side)| ==> RankOf(side, price) < RankOf(side, shape.View(side)[idx].price)
    {
      var levels := Levels(side);
      assert LevelsHeld(side) && shape.SideOk(side);
      for i := 0 to |levels|
        invariant forall j :: 0 <= j < i ==> RankOf(side, shape.View(side)[j].price) <= RankOf(side, price)
      {
        LevelFacts(side, i);
        if side == BUY && levels[i].price < price { return i; }
        if side == SELL && levels[i].price > price { return i; }
      }
      return |levels|;
    }

    ghost predicate HasPrice(side: Side, price: real)
      reads this
    {
      exists i :: 0 <= i < |shape.View(side)| && shape.View(side)[i].price == price
    }

    /** Insert a resting order at the tail of its price level, creating the
        level at its sorted place when it is missing. */
    method InsertOrder(order: Order) returns (ghost added: set<object>)
      requires Inv() && order !in Repr && order.id !in orderIndex
      modifies Repr
      ensures Inv() && fresh(added) && Repr == old(Repr) + {order} + added
      ensures shape.View(order.side) == LevelInsert(old(shape.View(order.side)), order.Data())
      ensures shape.View(order.side.Opposite()) == old(shape.View(order.side.Opposite()))
      ensures tradeIdCounter == old(tradeIdCounter)
      ensures old(HasPrice(order.side, order.price)) ==> bids == old(bids) && asks == old(asks)
    {
      var levelIdx := FindLevelIndex(order.side, order.price);
      if levelIdx != -1 {
        InsertFound(order, levelIdx);
        added := {};
      } else {
        added := InsertNew(order);
      }
    }

    method InsertFound(order: Order, levelIdx: nat)
      requires Inv() && order !in Repr && order.id !in orderIndex
      requires levelIdx < |shape.View(order.side)| && shape.View(order.side)[levelIdx].price == order.price
      modifies Repr
      ensures Inv() && Repr == old(Repr) + {order}
      ensures shape.View(order.side) == LevelInsert(old(shape.View(order.side)), order.Data())
      ensures shape.View(order.side.Opposite()) == old(shape.View(order.side.Opposite()))
      ensures tradeIdCounter == old(tradeIdCounter)
      ensures bids == old(bids) && asks == old(asks)
    {
      shape.AppendAgrees(levelIdx, order, order.Data(), IndexEntry(order, levelIdx, order.side));
      shape.AgreesAlone(order.side, levelIdx);
      AppendToLevel(order, levelIdx);
    }

    method InsertNew(order: Order) returns (ghost added: set<object>)
      requires Inv() && order !in Repr && order.id !in orderIndex
      requires forall j :: 0 <= j < |shape.View(order.side)| ==> shape.View(order.side)[j].price != order.price
      modifies Repr
      ensures Inv() && fresh(added) && Repr == old(Repr) + {order} + added
      ensures shape.View(order.side) == LevelInsert(old(shape.View(order.side)), order.Data())
      ensures shape.View(order.side.Opposite()) == old(shape.View(order.side.Opposite()))
      ensures tradeIdCounter == old(tradeIdCounter)
    {
      var depthQty := order.quantity - order.filledQuantity;
      var insertIdx := FindInsertIndex(order.side, order.price);
      shape.SpliceAgrees(insertIdx, order, order.Data(), IndexEntry(order, insertIdx, order.side));
      added := AddLevel(order, depthQty, insertIdx);
    }

    method AddLevel(order: Order, depthQty: real, insertIdx: nat) returns (ghost added: set<object>)
      requires Held() && order !in Repr && order.id !in orderIndex && depthQty == Remaining(order.Data())
      requires insertIdx <= |shape.Refs(order.side)|
      requires shape.Joined(shape.Spliced(insertIdx, order, order.Data()), order.Data(),
                            IndexEntry(order, insertIdx, order.side)).Agrees()
      modifies this
      ensures Inv() && fresh(added) && Repr == old(Repr) + {order} + added
      ensures shape.View(order.side) == LevelInsert(old(shape.View(order.side)), order.Data())
      ensures shape.View(order.side.Opposite()) == old(shape.View(order.side.Opposite()))
      ensures tradeIdCounter == old(tradeIdCounter)
    {
      var level := new PriceLevel(order.price, order.side, [order], depthQty);
      SpliceLevel(level, order, insertIdx);
      added := {level};
    }

    method AppendToLevel(order: Order, levelIdx: nat)
      requires Held() && order !in Repr && order.id !in orderIndex
      requires levelIdx < |shape.Refs(order.side)| && shape.Alone(order.side, levelIdx)
      requires shape.Joined(shape.Appended(levelIdx, order, order.Data()), order.Data(),
                            IndexEntry(order, levelIdx, order.side)).Agrees()
      modifies Repr
      ensures Inv() && Repr == old(Repr) + {order}
      ensures shape.View(order.side) == LevelInsert(old(shape.View(order.side)), order.Data())
      ensures shape.View(order.side.Opposite()) == old(shape.View(order.side.Opposite()))
      ensures tradeIdCounter == old(tradeIdCounter)
      ensures bids == old(bids) && asks == old(asks)
    {
      Push(order, levelIdx);
      PutInIndex(order, levelIdx);
    }

    method SpliceLevel(level: PriceLevel, order: Order, insertIdx: nat)
      requires Held() && order !in Repr && order.id !in orderIndex && level !in Repr
      requires level.side == order.side && level.Refs() == LevelRefs(order.price, [order], Remaining(order.Data()))
      requires insertIdx <= |shape.Refs(order.side)|
      requires shape.Joined(shape.Spliced(insertIdx, order, order.Data()), order.Data(),
                            IndexEntry(order, insertIdx, order.side)).Agrees()
      modifies this
      ensures Inv() && Repr == old(Repr) + {order} + {level}
      ensures shape.View(order.side) == LevelInsert(old(shape.View(order.side)), order.Data())
      ensures shape.View(order.side.Opposite()) == old(shape.View(order.side.Opposite()))
      ensures tradeIdCounter == old(tradeIdCounter)
    {
      Splice(level, order, insertIdx);
      PutInIndex(order, insertIdx);
    }

    method Push(order: Order, levelIdx: nat)
      requires Held() && levelIdx < |shape.Refs(order.side)| && shape.Alone(order.side, levelIdx)
      modifies Repr
      ensures Held() && unchanged(`Repr) && unchanged(`tradeIdCounter) && unchanged(`orderIndex)
      ensures shape == old(shape.WithRefs(order.side, shape.Appended(levelIdx, order, order.Data())))
      ensures unchanged(`bids) && unchanged(`asks)
    {
      var level := Levels(order.side)[levelIdx];
      shape := shape.WithRefs(order.side, shape.Appended(levelIdx, order, order.Data()));
      level.orders := level.orders + [order];
      level.totalQuantity := level.totalQuantity + (order.quantity - order.filledQuantity);
    }

    method Splice(level: PriceLevel, order: Order, insertIdx: nat)
      requires Held() && level !in Repr && insertIdx <= |shape.Refs(order.side)|
      requires level.side == order.side && level.Refs() == LevelRefs(order.price, [order], Remaining(order.Data()))
      modifies this
      ensures Held() && Repr == old(Repr) + {level} && unchanged(`tradeIdCounter) && unchanged(`orderIndex)
      ensures shape == old(shape.WithRefs(order.side, shape.Spliced(insertIdx, order, order.Data())))
    {
      hide LevelInsert, Flat, WellFormed, Distinct;
      var levels := Levels(order.side);
      ghost var refs := shape.Refs(order.side);
      SplicedShown(levels, refs, level, insertIdx, order.side, Repr);
      SetLevels(order.side, levels[..insertIdx] + [level] + levels[insertIdx..]);
      Repr := Repr + {level};
      shape := shape.WithRefs(order.side, shape.Spliced(insertIdx, order, order.Data()));
    }

    /** A level spliced into a list that shows what is noted, with its note
        spliced in alike. */
    static lemma SplicedShown(levels: seq<PriceLevel>, refs: seq<LevelRefs>, level: PriceLevel, i: nat, side: Side,
                              owned: set<object>)
      requires i <= |levels| == |refs| && level.side == side
      requires forall k :: 0 <= k < |levels| ==>
               levels[k] in owned && levels[k].side == side && levels[k].Refs() == refs[k]
      ensures var after, noted := levels[..i] + [level] + levels[i..], refs[..i] + [level.Refs()] + refs[i..];
              forall k :: 0 <= k < |after| ==>
                  after[k] in owned + {level} && after[k].side == side && after[k].Refs() == noted[k]
    {
      var after := levels[..i] + [level] + levels[i..];
      forall k | 0 <= k < |after|
        ensures after[k] == if k < i then levels[k] else if k == i then level else levels[k - 1]
      {
      }
    }

    /** Register an order, which its level already holds, in the index. */
    method PutInIndex(order: Order, levelIdx: nat)
      requires Held() && order.id !in orderIndex
      modifies `orderIndex, `Repr, `shape
      ensures Held() && Repr == old(Repr) + {order} && unchanged(`tradeIdCounter)
      ensures shape == old(shape.Joined(shape.Refs(order.side), order.Data(), IndexEntry(order, levelIdx, order.side)))
      ensures shape.View(order.side) == LevelInsert(old(shape.View(order.side)), order.Data())
      ensures shape.View(order.side.Opposite()) == old(shape.View(order.side.Opposite()))
    {
      var entry := IndexEntry(order, levelIdx, order.side);
      orderIndex := orderIndex[order.id := entry];
      Repr := Repr + {order};
      shape := shape.Joined(shape.Refs(order.side), order.Data(), entry);
    }

    // ---------- matching ----------

    lemma HeadObject(side: Side)
      requires Inv() && shape.View(side) != [] && shape.View(side)[0].orders != []
      ensures Levels(side) != [] && shape.HeadKnown(side)
      ensures var l := Levels(side)[0];
              && l in Repr && l.orders != [] && l.orders[0] in Repr && l.price == l.orders[0].price
              && l.orders[0].Data() == shape.View(side)[0].orders[0] && l.orders[0].side == side && this in Repr
    {
      LevelFacts(side, 0);
      shape.HeadFacts(side);
    }

    /** The sweep in progress, as the specification sees it. */
    ghost function Current(incoming: Order, trades: seq<TradeExecution>): Match
      reads this, incoming
    {
      Match(symbol, Flat(shape.View(incoming.side.Opposite())), incoming.Data(), trades, tradeIdCounter)
    }

    method CreateTrade(incoming: Order, resting: Order, price: real, quantity: real) returns (trade: TradeExecution)
      requires Inv()
      modifies `tradeIdCounter
      ensures Inv() && tradeIdCounter == old(tradeIdCounter) + 1
      ensures price == resting.price ==>
                trade == TradeOf(symbol, incoming.Data(), resting.Data(), quantity, tradeIdCounter)
    {
      tradeIdCounter := tradeIdCounter + 1;
      var isBuy := incoming.side == BUY;
      trade := TradeExecution(
        tradeIdCounter, symbol,
        if isBuy then incoming.id else resting.id, if isBuy then resting.id else incoming.id,
        if isBuy then incoming.userId else resting.userId, if isBuy then resting.userId else incoming.userId,
        price, quantity);
    }

    method ExecuteTrade(incoming: Order, resting: Order, price: real, quantity: real) returns (trade: TradeExecution)
      requires Inv() && incoming !in Repr && resting in Repr && price == resting.price
      modifies `tradeIdCounter, incoming`filledQuantity
      ensures Inv() && tradeIdCounter == old(tradeIdCounter) + 1
      ensures shape == old(shape) && orderIndex == old(orderIndex) && bids == old(bids) && asks == old(asks)
      ensures trade == TradeOf(symbol, old(incoming.Data()), old(resting.Data()), quantity, tradeIdCounter)
      ensures incoming.Data() == old(incoming.Data()).(filledQuantity := old(incoming.filledQuantity) + quantity)
    {
      trade := CreateTrade(incoming, resting, price, quantity);
      incoming.filledQuantity := incoming.filledQuantity + quantity;
    }

    /** The head order leaves its queue and the index, filled. */
    method UseUpHead(level: PriceLevel, side: Side, fillQty: real) returns (resting: Order)
      requires Held() && shape.HeadKnown(side) && Levels(side)[0] == level
      modifies Repr
      ensures Held() && shape == old(shape.Popped(side, fillQty))
      ensures unchanged(`Repr) && unchanged(`tradeIdCounter) && unchanged(`bids) && unchanged(`asks)
      ensures resting == old(level.orders[0]) && resting in Repr
      ensures resting.Data() == old(level.orders[0].Data()).(
                filledQuantity := old(level.orders[0].filledQuantity) + fillQty, status := FILLED)
    {
      resting := level.orders[0];
      ShiftQueue(level, side, fillQty);
      LeaveIndex(resting, side, fillQty);
    }

    method ShiftQueue(level: PriceLevel, side: Side, fillQty: real)
      requires Held() && Levels(side) != [] && Levels(side)[0] == level && level.orders != [] && shape.Alone(side, 0)
      modifies level, `shape
      ensures Held()
      ensures shape == old(shape.WithRefs(side, shape.HeadRefs(side, level.orders[1..], fillQty)))
    {
      shape := shape.WithRefs(side, shape.HeadRefs(side, level.orders[1..], fillQty));
      level.totalQuantity := level.totalQuantity - fillQty;
      level.orders := level.orders[1..];
    }

    method LeaveIndex(resting: Order, side: Side, fillQty: real)
      requires Held() && shape.View(side) != [] && shape.View(side)[0].orders != []
      requires var d := shape.View(side)[0].orders[0];
               d.id in orderIndex && d.id in shape.table && orderIndex[d.id].order == resting && resting.id == d.id
      modifies resting, `shape, `orderIndex
      ensures Held()
      ensures var id := old(shape.View(side)[0].orders[0].id);
              shape == old(shape.With(side, shape.Refs(side),
                                      shape.HeadView(side, shape.View(side)[0].orders[1..], fillQty),
                                      shape.index - {id}, shape.table - {id}))
      ensures resting.Data() == old(resting.Data()).(
                filledQuantity := old(resting.filledQuantity) + fillQty, status := FILLED)
    {
      resting.filledQuantity := resting.filledQuantity + fillQty;
      resting.status := FILLED;
      orderIndex := orderIndex - {resting.id};
      shape := shape.With(side, shape.Refs(side), shape.HeadView(side, shape.View(side)[0].orders[1..], fillQty),
                          shape.index - {resting.id}, shape.table - {resting.id});
    }

    /** The head order stays in front, partly filled. */
    method FillPartOfHead(level: PriceLevel, side: Side, fillQty: real, ghost d: OrderData)
      requires Held() && shape.HeadKnown(side) && Levels(side)[0] == level
      requires d == shape.View(side)[0].orders[0].(
                 filledQuantity := shape.View(side)[0].orders[0].filledQuantity + fillQty, status := PARTIALLY_FILLED)
      modifies Repr
      ensures Held() && unchanged(`Repr) && unchanged(`tradeIdCounter) && bids == old(bids) && asks == old(asks)
      ensures shape == old(shape.Filled(side, d, fillQty))
    {
      var resting := level.orders[0];
      ReduceLevel(level, side, fillQty);
      TouchHead(resting, side, fillQty, d);
    }

    method ReduceLevel(level: PriceLevel, side: Side, fillQty: real)
      requires Held() && Levels(side) != [] && Levels(side)[0] == level && shape.Alone(side, 0)
      modifies level, `shape
      ensures Held()
      ensures shape == old(shape.WithRefs(side, shape.HeadRefs(side, shape.Refs(side)[0].orders, fillQty)))
    {
      shape := shape.WithRefs(side, shape.HeadRefs(side, level.orders, fillQty));
      level.totalQuantity := level.totalQuantity - fillQty;
    }

    method TouchHead(resting: Order, side: Side, fillQty: real, ghost d: OrderData)
      requires Held() && shape.View(side) != [] && shape.View(side)[0].orders != []
      requires d.id in orderIndex && d.id in shape.table && orderIndex[d.id].order == resting
      requires d == shape.table[d.id].(
                 filledQuantity := shape.table[d.id].filledQuantity + fillQty, status := PARTIALLY_FILLED)
      modifies resting, `shape
      ensures Held()
      ensures shape == old(shape.With(side, shape.Refs(side),
                                      shape.HeadView(side, [d] + shape.View(side)[0].orders[1..], fillQty),
                                      shape.index, shape.table[d.id := d]))
    {
      hide Flat, WellFormed;
      resting.filledQuantity := resting.filledQuantity + fillQty;
      resting.status := PARTIALLY_FILLED;
      shape := shape.With(side, shape.Refs(side), shape.HeadView(side, [d] + shape.View(side)[0].orders[1..], fillQty),
                          shape.index, shape.table[d.id := d]);
    }

    /** Put the next slice of a used-up iceberg at the tail of its price level. */
    method Replenish(spent: Order) returns (ghost added: set<object>)
      requires Inv() && Hidden(spent.Data()) > 0.0 && Slice(spent.id, tradeIdCounter) !in orderIndex
      modifies Repr
      ensures Inv() && fresh(added) && Repr == old(Repr) + added && tradeIdCounter == old(tradeIdCounter)
      ensures shape.View(spent.side)
              == LevelInsert(old(shape.View(spent.side)), NextSlice(old(spent.Data()), tradeIdCounter))
      ensures shape.View(spent.side.Opposite()) == old(shape.View(spent.side.Opposite()))
      ensures old(HasPrice(spent.side, spent.price)) ==> bids == old(bids) && asks == old(asks)
    {
      hide Shape.Agrees, LevelInsert, Min;
      var sliceSize := if spent.displayQty.Some? then spent.displayQty.value else 1.0;
      var newSliceQty := Min(sliceSize, spent.hiddenQty.value);
      var remainingHidden := spent.hiddenQty.value - newSliceQty;
      var iceSlice := new Order(OrderData(
        Slice(spent.id, tradeIdCounter), spent.userId, spent.symbol, spent.side, ICEBERG, spent.price,
        newSliceQty, 0.0, OPEN, None, None, Some(sliceSize), Some(remainingHidden)));
      var more := InsertOrder(iceSlice);
      added := {iceSlice} + more;
    }

    /** A fill that uses up the head order, and what replaces it. */
    method FillWhole(level: PriceLevel, side: Side, fillQty: real) returns (ghost added: set<object>)
      requires Inv() && Levels(side) != [] && Levels(side)[0] == level
      requires shape.View(side) != [] && shape.View(side)[0].orders != []
      requires var h := shape.View(side)[0].orders[0];
               Remaining(h) == fillQty && h.side == side && Slice(h.id, tradeIdCounter) !in orderIndex
      modifies Repr
      ensures Inv() && fresh(added) && Repr == old(Repr) + added && unchanged(`tradeIdCounter)
      ensures bids == old(bids) && asks == old(asks)
      ensures shape.View(side) == old(LevelsAfterFill(shape.View(side), fillQty, tradeIdCounter))
      ensures shape.View(side.Opposite()) == old(shape.View(side.Opposite()))
    {
      hide Flat, Distinct, WellFormed, Ids, Sorted, ShowsOrder, Shows;
      HeadObject(side);
      shape.HeadFacts(side);
      shape.PoppedAgrees(side, fillQty);
      ghost var h := shape.View(side)[0].orders[0];
      var restingOrder := UseUpHead(level, side, fillQty);
      assert shape.View(side)[0].price == h.price;
      added := {};
      if restingOrder.kind == ICEBERG && restingOrder.hiddenQty.Some? && restingOrder.hiddenQty.value > 0.0 {
        assert NextSlice(restingOrder.Data(), tradeIdCounter) == NextSlice(h, tradeIdCounter);
        added := Replenish(restingOrder);
      }
    }

    /** A fill that leaves some of the head order. */
    method FillPart(level: PriceLevel, side: Side, fillQty: real)
      requires Inv() && Levels(side) != [] && Levels(side)[0] == level
      requires shape.View(side) != [] && shape.View(side)[0].orders != []
      requires fillQty < Remaining(shape.View(side)[0].orders[0])
      modifies Repr
      ensures Inv() && unchanged(`Repr) && unchanged(`tradeIdCounter)
      ensures bids == old(bids) && asks == old(asks)
      ensures shape.View(side) == old(LevelsAfterFill(shape.View(side), fillQty, tradeIdCounter))
      ensures shape.View(side.Opposite()) == old(shape.View(side.Opposite()))
    {
      hide Held, Shape.Agrees, LevelsAfterFill, Flat, Distinct, WellFormed;
      HeadObject(side);
      ghost var h := shape.View(side)[0].orders[0];
      ghost var d := h.(filledQuantity := h.filledQuantity + fillQty, status := PARTIALLY_FILLED);
      shape.FilledAgrees(side, d, fillQty);
      shape.FilledIsAfterFill(side, d, fillQty, tradeIdCounter);
      FillPartOfHead(level, side, fillQty, d);
    }

    method FillBook(level: PriceLevel, side: Side, fillQty: real) returns (ghost added: set<object>)
      requires Inv() && Levels(side) != [] && Levels(side)[0] == level
      requires shape.View(side) != [] && shape.View(side)[0].orders != []
      requires var h := shape.View(side)[0].orders[0];
               fillQty <= Remaining(h) && h.side == side && Slice(h.id, tradeIdCounter) !in orderIndex
      modifies Repr
      ensures Inv() && fresh(added) && Repr == old(Repr) + added && unchanged(`tradeIdCounter)
      ensures bids == old(bids) && asks == old(asks)
      ensures shape.View(side) == old(LevelsAfterFill(shape.View(side), fillQty, tradeIdCounter))
      ensures shape.View(side.Opposite()) == old(shape.View(side.Opposite()))
    {
      HeadObject(side);
      var restingOrder := level.orders[0];
      if restingOrder.filledQuantity + fillQty >= restingOrder.quantity {
        added := FillWhole(level, side, fillQty);
      } else {
        FillPart(level, side, fillQty);
        added := {};
      }
    }

    /** One fill of the best level: trade, update both orders and the level,
        take a filled maker off, and replenish an iceberg. */
    method FillHead(incoming: Order, level: PriceLevel) returns (trade: TradeExecution, ghost added: set<object>)
      requires Inv() && incoming !in Repr && incoming.filledQuantity < incoming.quantity
      requires var side := incoming.side.Opposite();
               && Levels(side) != [] && Levels(side)[0] == level
               && shape.View(side) != [] && shape.View(side)[0].orders != []
               && Resting(shape.View(side)[0].orders[0])
               && Slice(shape.View(side)[0].orders[0].id, tradeIdCounter + 1) !in orderIndex
      modifies Repr, incoming
      ensures Inv() && fresh(added) && Repr == old(Repr) + added && tradeIdCounter == old(tradeIdCounter) + 1
      ensures bids == old(bids) && asks == old(asks)
      ensures var side, h := incoming.side.Opposite(), old(shape.View(incoming.side.Opposite())[0].orders[0]);
              var fill := Min(Remaining(old(incoming.Data())), Remaining(h));
              && trade == TradeOf(symbol, old(incoming.Data()), h, fill, tradeIdCounter)
              && incoming.Data() == old(incoming.Data()).(filledQuantity := old(incoming.filledQuantity) + fill)
              && shape.View(incoming.side) == old(shape.View(incoming.side))
              && shape.View(side) == old(LevelsAfterFill(shape.View(side), fill, tradeIdCounter + 1))
    {
      hide Inv, LevelsAfterFill, TradeOf, Flat;
      var side := incoming.side.Opposite();
      HeadObject(side);
      var remainingQty := incoming.quantity - incoming.filledQuantity;
      var restingOrder := level.orders[0];
      var fillQty := Min(remainingQty, restingOrder.quantity - restingOrder.filledQuantity);
      ghost var h := shape.View(side)[0].orders[0];
      assert restingOrder.Data() == h && fillQty == Min(Remaining(incoming.Data()), Remaining(h));
      trade := ExecuteTrade(incoming, restingOrder, level.price, fillQty);
      added := FillBook(level, side, fillQty);
    }

    /** A sweep can take the head of the best level. */
    ghost predicate Sweeping(incoming: Order)
      reads this, Repr, incoming
    {
      && Inv() && Good(State()) && incoming !in Repr
      && incoming.filledQuantity <= incoming.quantity
      && NoEmpty(shape.View(incoming.side))
    }

    /** One fill is one step of the flat sweep. */
    method MatchHead(incoming: Order, level: PriceLevel, trades: seq<TradeExecution>)
      returns (out: seq<TradeExecution>, ghost added: set<object>)
      requires Sweeping(incoming) && incoming.filledQuantity < incoming.quantity
      requires var side := incoming.side.Opposite();
               && Levels(side) != [] && Levels(side)[0] == level
               && shape.View(side) != [] && shape.View(side)[0].orders != []
      modifies Repr, incoming
      ensures Sweeping(incoming) && fresh(added) && Repr == old(Repr) + added
      ensures bids == old(bids) && asks == old(asks)
      ensures old(Current(incoming, trades).queue) != []
      ensures Current(incoming, out) == Step(old(Current(incoming, trades)))
      ensures shape.View(incoming.side) == old(shape.View(incoming.side))
      ensures var v, w := old(shape.View(incoming.side.Opposite())), shape.View(incoming.side.Opposite());
              |w| == |v| && w[0].price == v[0].price && w[1..] == v[1..]
    {
      hide Held, Shape.Agrees, Run, Flat, Good;
      ghost var m, b, v := Current(incoming, trades), State(), shape.View(incoming.side.Opposite());
      HeadReady(incoming, trades);
      var trade;
      trade, added := FillHead(incoming, level);
      out := trades + [trade];
      Stepped(incoming, out, m, b, v);
    }

    /** The effect of a fill on the levels, read as a step of the sweep. */
    lemma {:induction false} Stepped(incoming: Order, out: seq<TradeExecution>, m: Match, b: Book, v: seq<LevelData>)
      requires Good(b) && Ready(m) && m.queue != [] && Remaining(m.taker) > 0.0
      requires var side := m.taker.side.Opposite();
               && m.queue == b.Queue(side) == Flat(v) && m.counter == b.counter && m.symbol == b.symbol == symbol
               && WellFormed(v, side) && Distinct(Flat(v)) && v != [] && v[0].orders != []
               && m.queue[0] == v[0].orders[0]
               && shape.View(side) == LevelsAfterFill(v, FillSize(m), m.counter + 1)
               && Flat(shape.View(m.taker.side)) == b.Queue(m.taker.side)
      requires incoming.Data() == m.taker.(filledQuantity := m.taker.filledQuantity + FillSize(m))
      requires tradeIdCounter == m.counter + 1
      requires out == m.trades + [TradeOf(m.symbol, m.taker, m.queue[0], FillSize(m), m.counter + 1)]
      ensures Good(State()) && Current(incoming, out) == Step(m) && incoming.filledQuantity <= incoming.quantity
      ensures var w := shape.View(m.taker.side.Opposite());
              |w| == |v| && w[0].price == v[0].price && w[1..] == v[1..]
    {
      hide QueueOk, WellFormed, LevelsAfterFill, AfterFill, Follows, Distinct;
      var side := m.taker.side.Opposite();
      StepKeepsGood(b, m);
      StepKeeps(m);
      FillAgrees(v, side, FillSize(m), m.counter + 1);
      assert State() == b.With(side, Step(m).queue, m.counter + 1);
    }

    lemma HeadReady(incoming: Order, trades: seq<TradeExecution>)
      requires Sweeping(incoming) && incoming.filledQuantity < incoming.quantity
      requires var side := incoming.side.Opposite();
               shape.View(side) != [] && shape.View(side)[0].orders != []
      ensures var side, m := incoming.side.Opposite(), Current(incoming, trades);
              && Ready(m) && m.queue != [] && m.queue[0] == shape.View(side)[0].orders[0] && Resting(m.queue[0])
              && m.queue[0].price == shape.View(side)[0].price && m.queue[0].side == side
              && WellFormed(shape.View(side), side) && Distinct(Flat(shape.View(side)))
              && Slice(m.queue[0].id, tradeIdCounter + 1) !in orderIndex
    {
      var side, m := incoming.side.Opposite(), Current(incoming, trades);
      shape.HeadFacts(side);
      assert shape.SideOk(side);
      assert m.queue[0] in m.queue;
      Raise(Flat(shape.bidView), BUY, tradeIdCounter);
      Raise(Flat(shape.askView), SELL, tradeIdCounter);
    }

    /** The price a level offers is acceptable. */
    ghost predicate Offers(cutoff: Option<real>, side: Side)
      reads this
    {
      cutoff.Some? && shape.View(side) != [] ==> RankOf(side, shape.View(side)[0].price) <= cutoff.value
    }

    lemma StepSpends(m: Match, cutoff: Option<real>)
      requires Ready(m) && !Stops(m, cutoff)
      ensures Ready(Step(m)) && Run(m, cutoff) == Run(Step(m), cutoff)
      ensures Sum(Effort, Step(m).queue) >= 0.0
      ensures Sum(Effort, Step(m).queue) == Sum(Effort, m.queue) - 1.0
           || (Sum(Effort, Step(m).queue) == Sum(Effort, m.queue) && Remaining(Step(m).taker) == 0.0)
    {
      Continue(m, cutoff);
    }

    /** A level `v0[0]` is being consumed by a sweep that began as `m0`. */
    ghost predicate AtLevel(incoming: Order, level: PriceLevel, out: seq<TradeExecution>,
                            own: seq<LevelData>, v0: seq<LevelData>, m0: Match, cutoff: Option<real>)
      requires AllResting(m0.queue)
      reads this, Repr, incoming
    {
      var side, m := incoming.side.Opposite(), Current(incoming, out);
      && Sweeping(incoming) && Levels(side) != [] && Levels(side)[0] == level
      && shape.View(incoming.side) == own && v0 != [] && |shape.View(side)| == |v0|
      && shape.View(side)[0].price == v0[0].price
      && shape.View(side)[1..] == v0[1..] && (cutoff.Some? ==> RankOf(side, v0[0].price) <= cutoff.value)
      && Ready(m) && Run(m, cutoff) == Run(m0, cutoff)
    }

    /** The walk has used up effort, or has not begun. */
    ghost predicate Spent(incoming: Order, out: seq<TradeExecution>, m0: Match)
      reads this, incoming
    {
      var before, after := Sum(Effort, m0.queue), Sum(Effort, Current(incoming, out).queue);
      0.0 <= after && (after <= before - 1.0 || (after <= before && incoming.filledQuantity == incoming.quantity))
    }

    method MatchNext(incoming: Order, level: PriceLevel, trades: seq<TradeExecution>,
                     ghost own: seq<LevelData>, ghost v0: seq<LevelData>, ghost m0: Match, ghost cutoff: Option<real>)
      returns (out: seq<TradeExecution>, ghost added: set<object>)
      requires AllResting(m0.queue) && AtLevel(incoming, level, trades, own, v0, m0, cutoff)
      requires level.orders != [] && incoming.filledQuantity < incoming.quantity
      modifies Repr, incoming
      ensures AtLevel(incoming, level, out, own, v0, m0, cutoff) && fresh(added) && Repr == old(Repr) + added
      ensures Spent(incoming, out, old(Current(incoming, trades)))
    {
      HeadView(incoming.side.Opposite(), level);
      HeadReady(incoming, trades);
      StepSpends(Current(incoming, trades), cutoff);
      out, added := MatchHead(incoming, level, trades);
    }

    /** Walk the queue of the best level until it or the taker is used up, and
        take the level off when it is. The sweep that remains to be done leads
        to the same end as the one before. */
    method MatchAtLevel(incoming: Order, level: PriceLevel, trades: seq<TradeExecution>, ghost cutoff: Option<real>)
      returns (out: seq<TradeExecution>, ghost added: set<object>)
      requires Sweeping(incoming) && incoming.filledQuantity < incoming.quantity
      requires var side := incoming.side.Opposite();
               && Levels(side) != [] && Levels(side)[0] == level && shape.View(side) != []
               && NoEmpty(shape.View(side)) && Offers(cutoff, side)
      modifies Repr, incoming
      ensures Sweeping(incoming) && fresh(added) && Repr == old(Repr) + added
      ensures NoEmpty(shape.View(incoming.side.Opposite()))
      ensures shape.View(incoming.side) == old(shape.View(incoming.side))
      ensures AllResting(old(Current(incoming, trades)).queue) && Ready(Current(incoming, out))
      ensures Run(Current(incoming, out), cutoff) == Run(old(Current(incoming, trades)), cutoff)
      ensures Spent(incoming, out, old(Current(incoming, trades)))
      ensures incoming.filledQuantity == incoming.quantity
           || shape.View(incoming.side.Opposite()) == old(shape.View(incoming.side.Opposite()))[1..]
    {
      hide Held, AtLevel, Sweeping, Run, Flat, Good, Offers, Ready, AllResting;
      ghost var own, v0 := shape.View(incoming.side), shape.View(incoming.side.Opposite());
      ghost var m0 := Current(incoming, trades);
      EnterLevel(incoming, level, trades, cutoff);
      out, added := WalkQueue(incoming, level, trades, own, v0, m0, cutoff);
      LevelReady(incoming, level, out, own, v0, m0, cutoff);
      FinishLevel(incoming, level, out, own, v0, m0, cutoff);
    }

    lemma EnterLevel(incoming: Order, level: PriceLevel, trades: seq<TradeExecution>, cutoff: Option<real>)
      requires Sweeping(incoming) && incoming.filledQuantity < incoming.quantity
      requires var side := incoming.side.Opposite();
               && Levels(side) != [] && Levels(side)[0] == level && shape.View(side) != []
               && NoEmpty(shape.View(side)) && Offers(cutoff, side)
      ensures level.orders != [] && AllResting(Current(incoming, trades).queue) && this in Repr
      ensures AtLevel(incoming, level, trades, shape.View(incoming.side), shape.View(incoming.side.Opposite()),
                      Current(incoming, trades), cutoff)
    {
      HeadView(incoming.side.Opposite(), level);
      HeadReady(incoming, trades);
    }

    lemma LevelReady(incoming: Order, level: PriceLevel, out: seq<TradeExecution>,
                     own: seq<LevelData>, v0: seq<LevelData>, m0: Match, cutoff: Option<real>)
      requires AllResting(m0.queue) && AtLevel(incoming, level, out, own, v0, m0, cutoff)
      ensures Ready(Current(incoming, out)) && Run(Current(incoming, out), cutoff) == Run(m0, cutoff)
      ensures shape.View(incoming.side) == own
    {
    }

    method WalkQueue(incoming: Order, level: PriceLevel, trades: seq<TradeExecution>,
                     ghost own: seq<LevelData>, ghost v0: seq<LevelData>, ghost m0: Match, ghost cutoff: Option<real>)
      returns (out: seq<TradeExecution>, ghost added: set<object>)
      requires AllResting(m0.queue) && AtLevel(incoming, level, trades, own, v0, m0, cutoff)
      requires Current(incoming, trades) == m0 && level.orders != [] && incoming.filledQuantity < incoming.quantity
      modifies Repr, incoming
      ensures AtLevel(incoming, level, out, own, v0, m0, cutoff) && fresh(added) && Repr == old(Repr) + added
      ensures Spent(incoming, out, m0)
      ensures level.orders == [] || incoming.filledQuantity == incoming.quantity
    {
      hide Held, Shape.Agrees, Run, Flat, Effort, Sum;
      out, added := trades, {};
      while level.orders != []
        invariant AtLevel(incoming, level, out, own, v0, m0, cutoff) && fresh(added) && Repr == old(Repr) + added
        invariant (Current(incoming, out) == m0 && level.orders != []) || Spent(incoming, out, m0)
        decreases Sum(Effort, Current(incoming, out).queue).Floor, incoming.filledQuantity < incoming.quantity
      {
        var remainingQty := incoming.quantity - incoming.filledQuantity;
        if remainingQty <= 0.0 { break; }
        ghost var more;
        out, more := MatchNext(incoming, level, out, own, v0, m0, cutoff);
        added := added + more;
      }
    }

    method FinishLevel(incoming: Order, level: PriceLevel, ghost out: seq<TradeExecution>,
                       ghost own: seq<LevelData>, ghost v0: seq<LevelData>, ghost m0: Match, ghost cutoff: Option<real>)
      requires AllResting(m0.queue) && AtLevel(incoming, level, out, own, v0, m0, cutoff) && NoEmpty(v0)
      modifies `bids, `asks, `shape
      ensures Sweeping(incoming) && NoEmpty(shape.View(incoming.side.Opposite()))
      ensures Current(incoming, out) == old(Current(incoming, out))
      ensures shape.View(incoming.side) == old(shape.View(incoming.side))
      ensures level.orders == [] ==> shape.View(incoming.side.Opposite()) == v0[1..]
    {
      hide Held, Shape.Agrees, Run, Flat, Sum;
      var side := incoming.side.Opposite();
      HeadView(side, level);
      ghost var v := shape.View(side);
      assert forall i :: 0 < i < |v| ==> v[i] == v0[1..][i - 1];
      if level.orders == [] {
        ShiftLevel(side);
      }
    }

    lemma HeadView(side: Side, level: PriceLevel)
      requires Inv() && Levels(side) != [] && Levels(side)[0] == level
      ensures shape.View(side) != [] && (level.orders != [] <==> shape.View(side)[0].orders != [])
    {
      assert shape.SideOk(side) && LevelsHeld(side);
      LevelFacts(side, 0);
    }

    /** Take an emptied best level off. */
    method ShiftLevel(side: Side)
      requires Inv() && Levels(side) != [] && shape.View(side) != [] && shape.View(side)[0].orders == []
      modifies `bids, `asks, `shape
      ensures Inv() && shape.View(side) == old(shape.View(side))[1..]
              && Flat(shape.View(side)) == old(Flat(shape.View(side)))
      ensures shape.View(side.Opposite()) == old(shape.View(side.Opposite()))
    {
      shape.ShiftedAgrees(side);
      DropLevel(side);
    }

    method DropLevel(side: Side)
      requires Held() && Levels(side) != []  && shape.View(side) != [] && shape.Refs(side) != []
      modifies `bids, `asks, `shape
      ensures Held() && shape == old(shape.Shifted(side))
    {
      SetLevels(side, Levels(side)[1..]);
      shape := shape.Shifted(side);
    }

    // ---------- sweeps ----------

    /** A sweep that began as `m0` between two levels. */
    ghost predicate BetweenLevels(incoming: Order, out: seq<TradeExecution>, own: seq<LevelData>,
                                  m0: Match, cutoff: Option<real>)
      requires AllResting(m0.queue)
      reads this, Repr, incoming
    {
      && Sweeping(incoming) && NoEmpty(shape.View(incoming.side.Opposite())) && shape.View(incoming.side) == own
      && Ready(Current(incoming, out)) && Run(Current(incoming, out), cutoff) == Run(m0, cutoff)
    }

    lemma {:induction false} SweepBegins(incoming: Order, cutoff: Option<real>)
      requires Valid() && incoming !in Repr && incoming.filledQuantity <= incoming.quantity
      ensures Ready(Current(incoming, [])) && Current(incoming, []) == Start(State(), incoming.Data())
      ensures BetweenLevels(incoming, [], shape.View(incoming.side), Current(incoming, []), cutoff)
    {
    }

    /** Between levels, the next level is the head of the flat queue. */
    lemma {:induction false} BestLevel(incoming: Order, out: seq<TradeExecution>)
      requires Sweeping(incoming) && NoEmpty(shape.View(incoming.side.Opposite()))
      ensures var side := incoming.side.Opposite();
              && |Levels(side)| == |shape.View(side)|
              && (Levels(side) == [] ==> Current(incoming, out).queue == [])
              && (Levels(side) != [] ==>
                    && Current(incoming, out).queue != []
                    && Levels(side)[0].price == shape.View(side)[0].price
                    && Rank(Current(incoming, out).queue[0]) == RankOf(side, Levels(side)[0].price))
    {
      var side := incoming.side.Opposite();
      assert shape.SideOk(side) && LevelsHeld(side);
      if Levels(side) != [] {
        LevelFacts(side, 0);
        FlatStarts(shape.View(side), side);
        FlatMembers(shape.View(side), side, Current(incoming, out).queue[0]);
      }
    }

    /** A stopped sweep has reached the end the specification gives. */
    lemma {:induction false} SweepEnds(incoming: Order, out: seq<TradeExecution>, own: seq<LevelData>, b: Book,
                                       o: OrderData, cutoff: Option<real>)
      requires Takes(b, o) && b.symbol == symbol && o.side == incoming.side && Flat(own) == b.Queue(o.side)
      requires AllResting(Start(b, o).queue) && BetweenLevels(incoming, out, own, Start(b, o), cutoff)
      requires Stops(Current(incoming, out), cutoff)
      ensures AllResting(b.Queue(o.side.Opposite()))
      ensures Sweep(b, o, cutoff) == Outcome(State(), Settled(incoming.Data()), out)
      ensures Inv() && NoEmpty(shape.bidView) && NoEmpty(shape.askView) && Good(State())
    {
    }

    method MatchBest(order: Order, level: PriceLevel, trades: seq<TradeExecution>,
                     ghost own: seq<LevelData>, ghost m0: Match, ghost cutoff: Option<real>)
      returns (out: seq<TradeExecution>, ghost added: set<object>)
      requires AllResting(m0.queue) && BetweenLevels(order, trades, own, m0, cutoff)
      requires order.filledQuantity < order.quantity
      requires var side := order.side.Opposite();
               Levels(side) != [] && Levels(side)[0] == level
                   && (cutoff.Some? ==> RankOf(side, level.price) <= cutoff.value)
      modifies Repr, order
      ensures BetweenLevels(order, out, own, m0, cutoff) && fresh(added) && Repr == old(Repr) + added
      ensures Spent(order, out, old(Current(order, trades)))
    {
      BestLevel(order, trades);
      out, added := MatchAtLevel(order, level, trades, cutoff);
    }

    /** A taker with nothing left is FILLED. */
    method MarkIfFilled(order: Order)
      requires Valid() && order !in Repr
      modifies order`status
      ensures Valid() && State() == old(State()) && order.Data() == Settled(old(order.Data()))
    {
      if order.filledQuantity >= order.quantity {
        order.status := FILLED;
      }
    }

    /** Match a LIMIT order against the opposite side at its price or better. */
    method MatchLimitOrder(order: Order) returns (trades: seq<TradeExecution>, ghost added: set<object>)
      requires Valid() && order !in Repr && order.filledQuantity <= order.quantity
      modifies Repr, order
      ensures Valid() && order !in Repr && fresh(added) && Repr == old(Repr) + added
      ensures AllResting(old(State()).Queue(order.side.Opposite()))
      ensures Outcome(State(), order.Data(), trades)
              == Sweep(old(State()), old(order.Data()), LimitOf(old(order.Data())))
    {
      hide Held, NoEmpty, Good, Sweep, Sum, Shape.Agrees, Flat, Resting, Sorted;
      trades, added := [], {};
      ghost var b, o, own, cutoff := State(), order.Data(), shape.View(order.side), LimitOf(order.Data());
      SweepBegins(order, cutoff);
      while |Levels(order.side.Opposite())| > 0
        invariant BetweenLevels(order, trades, own, Start(b, o), cutoff) && fresh(added) && Repr == old(Repr) + added
        decreases Sum(Effort, Current(order, trades).queue).Floor, order.filledQuantity < order.quantity
      {
        var bestLevel := Levels(order.side.Opposite())[0];
        var remainingQty := order.quantity - order.filledQuantity;
        BestLevel(order, trades);
        if remainingQty <= 0.0 { break; }
        assert !Stops(Current(order, trades), cutoff)
               <==> RankOf(order.side.Opposite(), bestLevel.price) <= cutoff.value;
        if order.side == BUY && bestLevel.price > order.price { break; }
        if order.side == SELL && bestLevel.price < order.price { break; }
        ghost var more;
        trades, more := MatchBest(order, bestLevel, trades, own, Start(b, o), cutoff);
        added := added + more;
      }
      BestLevel(order, trades);
      SweepEnds(order, trades, own, b, o, cutoff);
      MarkIfFilled(order);
    }

    /** Sweep the opposite side until the order is filled or the side is empty. */
    method MatchMarketOrder(order: Order) returns (trades: seq<TradeExecution>, ghost added: set<object>)
      requires Valid() && order !in Repr && order.filledQuantity <= order.quantity
      modifies Repr, order
      ensures Valid() && order !in Repr && fresh(added) && Repr == old(Repr) + added
      ensures AllResting(old(State()).Queue(order.side.Opposite()))
      ensures Outcome(State(), order.Data(), trades) == Sweep(old(State()), old(order.Data()), None)
    {
      hide Held, NoEmpty, Good, Sweep, Sum, Shape.Agrees;
      trades, added := [], {};
      ghost var b, o, own := State(), order.Data(), shape.View(order.side);
      SweepBegins(order, None);
      while |Levels(order.side.Opposite())| > 0
        invariant BetweenLevels(order, trades, own, Start(b, o), None) && fresh(added) && Repr == old(Repr) + added
        decreases Sum(Effort, Current(order, trades).queue).Floor, order.filledQuantity < order.quantity
      {
        var remainingQty := order.quantity - order.filledQuantity;
        BestLevel(order, trades);
        if remainingQty <= 0.0 { break; }
        var bestLevel := Levels(order.side.Opposite())[0];
        ghost var more;
        trades, more := MatchBest(order, bestLevel, trades, own, Start(b, o), None);
        added := added + more;
      }
      BestLevel(order, trades);
      SweepEnds(order, trades, own, b, o, None);
      MarkIfFilled(order);
    }

    // ---------- adding ----------

    method RestOrder(order: Order) returns (ghost added: set<object>)
      requires Valid() && order !in Repr
      requires IsNew(State(), order.Data()) && Resting(order.Data()) && StampedUpTo(order.id, tradeIdCounter)
      modifies Repr
      ensures Valid() && fresh(added) && Repr == old(Repr) + {order} + added
      ensures order.Data() == old(order.Data()) && State() == Rest(old(State()), order.Data())
    {
      ghost var v, b, d := shape.View(order.side), State(), order.Data();
      assert shape.SideOk(order.side);
      InsertAgrees(v, order.side, d);
      InsertNoEmpty(v, d);
      RestKeeps(b, d);
      shape.IdsCover(order.side);
      added := InsertOrder(order);
      assert State() == Rest(b, d);
    }

    /** Whether the visible opposite depth covers the order. Nothing changes. */
    method CanFillEntirely(order: Order) returns (enough: bool)
      requires Valid() && order.quantity > 0.0
      ensures enough <==> order.quantity <= Visible(State(), order.side.Opposite())
    {
      hide Held, Shape.Agrees, Flat, Good;
      var side := order.side.Opposite();
      var levels := Levels(side);
      ghost var v := shape.View(side);
      LevelTotals(side);
      var available := 0.0;
      for i := 0 to |levels|
        invariant available == Totals(v[..i]) && available < order.quantity
      {
        assert v[..i + 1][..i] == v[..i];
        available := available + levels[i].totalQuantity;
        if available >= order.quantity {
          return true;
        }
      }
      assert v[..|v|] == v;
      return false;
    }

    lemma {:induction false} LevelTotals(side: Side)
      requires Valid()
      ensures |Levels(side)| == |shape.View(side)|
      ensures forall i :: 0 <= i < |Levels(side)| ==> Levels(side)[i].totalQuantity == shape.View(side)[i].total
      ensures Totals(shape.View(side)) == Visible(State(), side)
      ensures forall i :: 0 <= i <= |Levels(side)| ==> Totals(shape.View(side)[..i]) <= Visible(State(), side)
    {
      var v := shape.View(side);
      assert shape.SideOk(side) && LevelsHeld(side);
      forall i | 0 <= i < |Levels(side)| ensures Levels(side)[i].totalQuantity == v[i].total {
        LevelFacts(side, i);
      }
      TotalsAreDepth(v, side);
      forall i | 0 <= i <= |v| ensures Totals(v[..i]) <= Visible(State(), side) {
        DepthGrows(v, side, i);
      }
    }

    method InitIcebergDefaults(order: Order)
      modifies order`hiddenQty, order`displayQty
      ensures var o := old(order.Data());
              order.Data() == o.(
                hiddenQty := Some(if o.hiddenQty.Some? then o.hiddenQty.value else o.quantity),
                displayQty := Some(
                  if o.displayQty.Some? && o.displayQty.value > 0.0 then o.displayQty.value
                  else if o.quantity / 10.0 >= 1.0 then o.quantity / 10.0 else 1.0))
    {
      if order.hiddenQty.None? {
        order.hiddenQty := Some(order.quantity);
      }
      if order.displayQty.None? || order.displayQty.value <= 0.0 {
        var tenPercent := order.quantity / 10.0;
        order.displayQty := Some(if tenPercent >= 1.0 then tenPercent else 1.0);
      }
    }

    method AddIceberg(order: Order) returns (ghost added: set<object>)
      requires Valid() && order !in Repr && Fresh(order.Data()) && IsNew(State(), order.Data()) && order.kind == ICEBERG
      modifies Repr, order
      ensures Valid() && fresh(added) && Repr == old(Repr) + {order} + added
      ensures order.Data() == FirstSlice(old(order.Data())) && State() == Rest(old(State()), order.Data())
    {
      FirstSliceRests(order.Data());
      ShowSlice(order);
      added := RestOrder(order);
    }

    method ShowSlice(order: Order)
      requires Valid() && order !in Repr
      modifies order
      ensures Valid() && State() == old(State()) && order.Data() == FirstSlice(old(order.Data()))
    {
      hide Flat, Good, Shape.Agrees, NoEmpty;
      InitIcebergDefaults(order);
      var sliceQty := Min(order.displayQty.value, order.hiddenQty.value);
      order.quantity := sliceQty;
      order.hiddenQty := Some(order.hiddenQty.value - sliceQty);
      order.status := OPEN;
    }

    /** All of the order or nothing. */
    method AddFillOrKill(order: Order) returns (trades: seq<TradeExecution>, ghost added: set<object>)
      requires Valid() && order !in Repr && Fresh(order.Data()) && order.kind == FILL_OR_KILL
      modifies Repr, order
      ensures Valid() && fresh(added) && Repr == old(Repr) + added
      ensures AllResting(old(State()).Queue(order.side.Opposite()))
      ensures Outcome(State(), order.Data(), trades) == Add(old(State()), old(order.Data()))
    {
      var enough := CanFillEntirely(order);
      if !enough {
        SetStatus(order, CANCELLED);
        return [], {};
      }
      trades, added := MatchMarketOrder(order);
      SetStatus(order, if order.filledQuantity == order.quantity then FILLED else CANCELLED);
    }

    /** Unfilled MARKET orders are cancelled. */
    method AddMarket(order: Order) returns (trades: seq<TradeExecution>, ghost added: set<object>)
      requires Valid() && order !in Repr && Fresh(order.Data()) && order.kind == MARKET
      modifies Repr, order
      ensures Valid() && fresh(added) && Repr == old(Repr) + added
      ensures AllResting(old(State()).Queue(order.side.Opposite()))
      ensures Outcome(State(), order.Data(), trades) == Add(old(State()), old(order.Data()))
    {
      trades, added := MatchMarketOrder(order);
      if order.quantity - order.filledQuantity > 0.0 {
        SetStatus(order, CANCELLED);
      }
    }

    /** What a LIMIT order cannot fill rests. */
    method AddLimit(order: Order) returns (trades: seq<TradeExecution>, ghost added: set<object>)
      requires Valid() && order !in Repr && Fresh(order.Data()) && IsNew(State(), order.Data())
      requires order.kind in {LIMIT, STOP_LOSS, TRAILING_STOP}
      modifies Repr, order
      ensures Valid() && fresh(added) && old(Repr) <= Repr <= old(Repr) + {order} + added
      ensures AllResting(old(State()).Queue(order.side.Opposite()))
      ensures Outcome(State(), order.Data(), trades) == Add(old(State()), old(order.Data()))
    {
      hide Held, Shape.Agrees, Flat, Good, Sweep, Run;
      ghost var b, o := State(), order.Data();
      SweepKeeps(b, o, LimitOf(o));
      trades, added := MatchLimitOrder(order);
      if order.kind == LIMIT && order.status != FILLED && order.status != CANCELLED {
        var remainingQty := order.quantity - order.filledQuantity;
        if remainingQty > 0.0 {
          ghost var more := RestRemainder(order, b, o);
          added := added + more;
        }
      }
    }

    /** Add an order of any type; answers with the trades it caused. */
    method AddOrder(order: Order) returns (trades: seq<TradeExecution>, ghost added: set<object>)
      requires Valid() && order !in Repr && Fresh(order.Data()) && IsNew(State(), order.Data())
      modifies Repr, order
      ensures Valid() && fresh(added) && old(Repr) <= Repr <= old(Repr) + {order} + added
      ensures AllResting(old(State()).Queue(order.side.Opposite()))
      ensures Outcome(State(), order.Data(), trades) == Add(old(State()), old(order.Data()))
    {
      match order.kind {
        case FILL_OR_KILL =>
          trades, added := AddFillOrKill(order);
        case ICEBERG =>
          trades := [];
          added := AddIceberg(order);
        case MARKET =>
          trades, added := AddMarket(order);
        case _ =>
          trades, added := AddLimit(order);
      }
    }

    method SetStatus(order: Order, status: OrderStatus)
      requires Valid() && order !in Repr
      modifies order`status
      ensures Valid() && State() == old(State()) && order.Data() == old(order.Data()).(status := status)
    {
      order.status := status;
    }

    /** What a LIMIT order could not fill rests. The status is written before
        the order enters its level; nothing looks at it in between. */
    method RestRemainder(order: Order, ghost b: Book, ghost o: OrderData) returns (ghost added: set<object>)
      requires Valid() && order !in Repr && order.kind == LIMIT && Remaining(order.Data()) > 0.0
      requires Good(b) && Fresh(o) && IsNew(b, o) && AllResting(b.Queue(o.side.Opposite()))
      requires State() == Sweep(b, o, LimitOf(o)).book && order.Data() == Sweep(b, o, LimitOf(o)).order
      modifies Repr, order
      ensures Valid() && fresh(added) && Repr == old(Repr) + {order} + added
      ensures order.Data() == old(order.Data()).(status := StatusFor(old(order.filledQuantity)))
      ensures State() == Rest(old(State()), order.Data())
    {
      SweepKeeps(b, o, LimitOf(o));
      SetStatus(order, if order.filledQuantity > 0.0 then PARTIALLY_FILLED else OPEN);
      added := RestOrder(order);
    }

    // ---------- cancelling ----------

    /** First place of an id in a queue, or -1. */
    static method FindOrder(orders: seq<Order>, orderId: OrderId) returns (idx: int)
      ensures -1 <= idx < |orders|
      ensures idx >= 0 ==> orders[idx].id == orderId
      ensures idx == -1 ==> forall k :: 0 <= k < |orders| ==> orders[k].id != orderId
    {
      for k := 0 to |orders|
        invariant forall j :: 0 <= j < k ==> orders[j].id != orderId
      {
        if orders[k].id == orderId { return k; }
      }
      return -1;
    }

    /** Take an order off the book. An indexed order is always found in the
        level of its price, so neither inner search can fail. */
    method CancelOrder(orderId: OrderId) returns (cancelled: Order?)
      requires Valid()
      modifies Repr
      ensures Valid() && Repr == old(Repr)
      ensures State() == Cancel(old(State()), orderId).0
      ensures cancelled == null <==> Cancel(old(State()), orderId).1 == None
      ensures cancelled != null ==> cancelled in Repr && Some(cancelled.Data()) == Cancel(old(State()), orderId).1
    {
      hide Sorted, Distinct, Resting;
      if orderId !in orderIndex {
        shape.IdsCover(BUY);
        return null;
      }
      var order, side := orderIndex[orderId].order, orderIndex[orderId].side;
      var levelIdx, orderIdx := FindPlace(orderId, order, side);
      ghost var b := State();
      CancelKeepsGood(b, orderId);
      TakeOut(order, side, levelIdx, orderIdx);
      assert State() == Cancel(b, orderId).0;
      return order;
    }

    method FindPlace(orderId: OrderId, order: Order, side: Side) returns (levelIdx: nat, orderIdx: nat)
      requires Inv() && orderId in orderIndex && orderIndex[orderId].order == order && orderIndex[orderId].side == side
      ensures levelIdx < |shape.View(side)| && orderIdx < |shape.View(side)[levelIdx].orders|
      ensures shape.View(side)[levelIdx].orders[orderIdx].id == orderId == order.id && orderId in shape.table
      ensures shape.table[orderId] == shape.View(side)[levelIdx].orders[orderIdx]
      ensures orderId in Ids(Flat(shape.View(side))) && orderId !in Ids(Flat(shape.View(side.Opposite())))
      ensures shape.table[orderId] == Find(Flat(shape.View(side)), orderId)
    {
      hide Distinct, LevelOk, NoEmpty, Sum, Sorted, ShowsLevel;
      ghost var i, k := shape.Whereabouts(orderId);
      assert shape.SideOk(side);
      assert order.Data() == shape.table[orderId];
      FlatHas(shape.View(side), i, k);
      FindMember(Flat(shape.View(side)), shape.View(side)[i].orders[k]);
      var found := FindLevelIndex(side, order.price);
      assert found != -1;
      levelIdx := found;
      LevelFacts(side, levelIdx);
      LevelFacts(side, i);
      shape.AgreesAlone(side, levelIdx);
      assert i == levelIdx;
      found := FindOrder(Levels(side)[levelIdx].orders, orderId);
      assert Levels(side)[levelIdx].orders[k].id == orderId;
      assert found != -1;
      orderIdx := found;
      assert ShowsOrder(shape.Refs(side)[i].orders[orderIdx], shape.View(side)[i].orders[orderIdx], side, orderIndex,
                        shape.table);
    }

    method TakeOut(order: Order, side: Side, levelIdx: nat, orderIdx: nat)
      requires Inv() && NoEmpty(shape.bidView) && NoEmpty(shape.askView)
      requires levelIdx < |shape.View(side)| && orderIdx < |shape.View(side)[levelIdx].orders|
      requires shape.View(side)[levelIdx].orders[orderIdx].id == order.id
      requires order.id in orderIndex && order.id in shape.table && orderIndex[order.id].order == order
      requires shape.table[order.id] == shape.View(side)[levelIdx].orders[orderIdx]
      modifies Repr
      ensures Inv() && Repr == old(Repr) && tradeIdCounter == old(tradeIdCounter)
      ensures NoEmpty(shape.bidView) && NoEmpty(shape.askView)
      ensures Flat(shape.View(side)) == Remove(old(Flat(shape.View(side))), order.id)
      ensures shape.View(side.Opposite()) == old(shape.View(side.Opposite()))
      ensures order.Data() == old(shape.table[order.id]).(status := CANCELLED)
    {
      hide Flat, Remove, Distinct, WellFormed, Held;
      LevelFacts(side, levelIdx);
      shape.AgreesAlone(side, levelIdx);
      shape.RemovedAgrees(side, levelIdx, orderIdx);
      assert shape.SideOk(side);
      Shape.RemovedView(shape.View(side), side, levelIdx, orderIdx);
      var level := Levels(side)[levelIdx];
      RemoveFromLevel(level, order, side, levelIdx, orderIdx);
      RemoveIfEmpty(level, side, levelIdx);
    }

    method RemoveIfEmpty(level: PriceLevel, side: Side, levelIdx: nat)
      requires Inv() && levelIdx < |Levels(side)| && Levels(side)[levelIdx] == level
      requires NoEmpty(shape.View(side.Opposite())) && |shape.View(side)| == |Levels(side)|
      requires forall i :: 0 <= i < |shape.View(side)| && i != levelIdx ==> shape.View(side)[i].orders != []
      modifies `bids, `asks, `shape
      ensures Inv() && NoEmpty(shape.bidView) && NoEmpty(shape.askView)
      ensures Flat(shape.View(side)) == old(Flat(shape.View(side)))
      ensures shape.View(side.Opposite()) == old(shape.View(side.Opposite()))
    {
      LevelFacts(side, levelIdx);
      if level.orders == [] {
        EmptyLevel(side, levelIdx);
        RemoveLevel(side, levelIdx);
      } else {
        assert NoEmpty(shape.View(side));
      }
    }

    lemma {:induction false} EmptyLevel(side: Side, i: nat)
      requires Inv() && i < |shape.View(side)| && shape.View(side)[i].orders == []
      requires forall j :: 0 <= j < |shape.View(side)| && j != i ==> shape.View(side)[j].orders != []
      ensures |shape.Refs(side)| == |shape.View(side)| && shape.Dropped(side, i).Agrees()
      ensures Flat(shape.Dropped(side, i).View(side)) == Flat(shape.View(side))
      ensures NoEmpty(shape.Dropped(side, i).View(side))
      ensures shape.Dropped(side, i).View(side.Opposite()) == shape.View(side.Opposite())
    {
      shape.DroppedAgrees(side, i);
      assert shape.SideOk(side);
      Shape.DroppedView(shape.View(side), side, i);
      Shape.OthersNonEmpty(shape.View(side), i);
    }

    method RemoveFromLevel(level: PriceLevel, order: Order, side: Side, levelIdx: nat, orderIdx: nat)
      requires Held() && levelIdx < |Levels(side)| && Levels(side)[levelIdx] == level && shape.Alone(side, levelIdx)
      requires levelIdx < |shape.View(side)| && orderIdx < |shape.View(side)[levelIdx].orders|
      requires orderIdx < |shape.Refs(side)[levelIdx].orders|
      requires shape.View(side)[levelIdx].orders[orderIdx].id == order.id
      requires order.id in orderIndex && order.id in shape.table && orderIndex[order.id].order == order
      requires shape.table[order.id] == shape.View(side)[levelIdx].orders[orderIdx]
      modifies Repr
      ensures Held() && unchanged(`Repr) && unchanged(`tradeIdCounter) && bids == old(bids) && asks == old(asks)
      ensures shape == old(shape.Removed(side, levelIdx, orderIdx))
      ensures order.Data() == old(shape.table[order.id]).(status := CANCELLED)
    {
      PullFromLevel(level, order, side, levelIdx, orderIdx);
      Deregister(order, side, shape.View(side)[levelIdx := Without(shape.View(side)[levelIdx], orderIdx)]);
    }

    method PullFromLevel(level: PriceLevel, order: Order, side: Side, levelIdx: nat, orderIdx: nat)
      requires Held() && levelIdx < |Levels(side)| && Levels(side)[levelIdx] == level && shape.Alone(side, levelIdx)
      requires levelIdx < |shape.View(side)| && orderIdx < |shape.View(side)[levelIdx].orders|
      requires orderIdx < |level.orders|
      requires order.Data() == shape.View(side)[levelIdx].orders[orderIdx]
      modifies level, `shape
      ensures Held()
      ensures shape == old(shape.WithRefs(side, shape.RefsWithout(side, levelIdx, orderIdx)))
    {
      shape := shape.WithRefs(side, shape.RefsWithout(side, levelIdx, orderIdx));
      level.orders := level.orders[..orderIdx] + level.orders[orderIdx + 1..];
      var remainingQty := order.quantity - order.filledQuantity;
      level.totalQuantity := level.totalQuantity - remainingQty;
    }

    method Deregister(order: Order, side: Side, ghost view: seq<LevelData>)
      requires Held() && order.id in orderIndex && order.id in shape.table && orderIndex[order.id].order == order
      modifies order, `shape, `orderIndex
      ensures Held()
      ensures shape == old(shape.With(side, shape.Refs(side), view, shape.index - {order.id}, shape.table - {order.id}))
      ensures order.Data() == old(order.Data()).(status := CANCELLED)
    {
      orderIndex := orderIndex - {order.id};
      order.status := CANCELLED;
      shape := shape.With(side, shape.Refs(side), view, shape.index - {order.id}, shape.table - {order.id});
    }

    static lemma DroppedShown(levels: seq<PriceLevel>, refs: seq<LevelRefs>, i: nat, side: Side, owned: set<object>)
      requires i < |levels| == |refs|
      requires forall k :: 0 <= k < |levels| ==>
               levels[k] in owned && levels[k].side == side && levels[k].Refs() == refs[k]
      ensures var after, noted := levels[..i] + levels[i + 1..], refs[..i] + refs[i + 1..];
              forall k :: 0 <= k < |after| ==> after[k] in owned && after[k].side == side && after[k].Refs() == noted[k]
    {
      var after := levels[..i] + levels[i + 1..];
      forall k | 0 <= k < |after| ensures after[k] == levels[if k < i then k else k + 1] {
      }
    }

    method RemoveLevel(side: Side, levelIdx: nat)
      requires Held() && levelIdx < |Levels(side)| && levelIdx < |shape.View(side)| && levelIdx < |shape.Refs(side)|
      modifies `bids, `asks, `shape
      ensures Held() && shape == old(shape.Dropped(side, levelIdx))
    {
      hide Flat, WellFormed, Distinct;
      var levels := Levels(side);
      DroppedShown(levels, shape.Refs(side), levelIdx, side, Repr);
      SetLevels(side, levels[..levelIdx] + levels[levelIdx + 1..]);
      shape := shape.Dropped(side, levelIdx);
    }
  }

  /** Levels, cached totals and indexed ids are determined by the flat queues:
      two books in the same state agree in all of them. */
  lemma SameStateSameLevels(a: OrderBook, b: OrderBook, side: Side)
    requires a.Valid() && b.Valid() && a.State() == b.State()
    ensures a.shape.View(side) == b.shape.View(side)
    ensures |a.Levels(side)| == |b.Levels(side)| == |a.shape.View(side)|
    ensures forall i :: 0 <= i < |a.Levels(side)| ==>
              && a.Levels(side)[i].price == b.Levels(side)[i].price
              && a.Levels(side)[i].totalQuantity == b.Levels(side)[i].totalQuantity
              && |a.Levels(side)[i].orders| == |b.Levels(side)[i].orders|
    ensures a.orderIndex.Keys == b.orderIndex.Keys
  {
    BookShowsLevels(a, side);
    BookShowsLevels(b, side);
    LevelsUnique(a.shape.View(side), b.shape.View(side), side);
    a.shape.IdsCover(side);
    b.shape.IdsCover(side);
  }

  lemma BookShowsLevels(a: OrderBook, side: Side)
    requires a.Valid()
    ensures WellFormed(a.shape.View(side), side) && NoEmpty(a.shape.View(side))
    ensures Flat(a.shape.View(side)) == a.State().Queue(side)
    ensures |a.Levels(side)| == |a.shape.View(side)| && a.orderIndex == a.shape.index
    ensures forall i :: 0 <= i < |a.Levels(side)| ==>
              && a.Levels(side)[i].price == a.shape.View(side)[i].price
              && a.Levels(side)[i].totalQuantity == a.shape.View(side)[i].total
              && |a.Levels(side)[i].orders| == |a.shape.View(side)[i].orders|
  {
    assert a.shape.SideOk(side);
    assert a.LevelsHeld(side);
    forall i | 0 <= i < |a.Levels(side)|
      ensures a.Levels(side)[i].price == a.shape.View(side)[i].price
      ensures a.Levels(side)[i].totalQuantity == a.shape.View(side)[i].total
      ensures |a.Levels(side)[i].orders| == |a.shape.View(side)[i].orders|
    {
      a.LevelFacts(side, i);
      assert a.Levels(side)[i].Refs() == a.shape.Refs(side)[i];
    }
  }
}
