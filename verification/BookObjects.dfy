/** The objects of the order book, and the link from them to level values. */
module BookObjects {
  import opened Types
  import opened Queues
  import opened Matching
  import opened Levels

  class Order {
    const id: OrderId
    const userId: string
    const symbol: string
    const side: Side
    const price: real
    const trailingDelta: Option<real>
    var kind: OrderType
    var quantity: real
    var filledQuantity: real
    var status: OrderStatus
    var stopPrice: Option<real>
    var displayQty: Option<real>
    var hiddenQty: Option<real>

    constructor (d: OrderData)
      ensures Data() == d
    {
      id, userId, symbol, side, price := d.id, d.userId, d.symbol, d.side, d.price;
      kind, quantity, filledQuantity, status := d.kind, d.quantity, d.filledQuantity, d.status;
      stopPrice, trailingDelta, displayQty, hiddenQty := d.stopPrice, d.trailingDelta, d.displayQty, d.hiddenQty;
    }

    function Data(): OrderData
      reads this
    {
      OrderData(id, userId, symbol, side, kind, price, quantity, filledQuantity, status,
                stopPrice, trailingDelta, displayQty, hiddenQty)
    }
  }

  class PriceLevel {
    const price: real
    ghost const side: Side
    var orders: seq<Order>
    var totalQuantity: real

    constructor (price: real, ghost side: Side, orders: seq<Order>, totalQuantity: real)
      ensures this.price == price && this.side == side
      ensures this.orders == orders && this.totalQuantity == totalQuantity
    {
      this.price, this.side, this.orders, this.totalQuantity := price, side, orders, totalQuantity;
    }

    ghost function Refs(): LevelRefs
      reads this
    {
      LevelRefs(price, orders, totalQuantity)
    }
  }

  datatype IndexEntry = IndexEntry(order: Order, levelIndex: nat, side: Side)

  /** A level with its order objects, but without their contents. */
  datatype LevelRefs = LevelRefs(price: real, orders: seq<Order>, total: real)

  type Index = map<OrderId, IndexEntry>
  type Table = map<OrderId, OrderData>

  /** The object of an id is the indexed one, its contents those of the table. */
  ghost predicate ShowsOrder(o: Order, d: OrderData, side: Side, index: Index, table: Table) {
    && o.id == d.id && d.id in index && index[d.id].order == o && index[d.id].side == side
    && d.id in table && table[d.id] == d
  }

  ghost predicate ShowsLevel(r: LevelRefs, v: LevelData, side: Side, index: Index, table: Table) {
    && r.price == v.price && r.total == v.total && |r.orders| == |v.orders|
    && forall k :: 0 <= k < |r.orders| ==> ShowsOrder(r.orders[k], v.orders[k], side, index, table)
  }

  ghost predicate Shows(refs: seq<LevelRefs>, view: seq<LevelData>, side: Side, index: Index, table: Table) {
    && |refs| == |view|
    && forall i :: 0 <= i < |refs| ==> ShowsLevel(refs[i], view[i], side, index, table)
  }

  /** A side that shows what index and table say, sorted, with cached totals. */
  ghost predicate Fits(refs: seq<LevelRefs>, view: seq<LevelData>, side: Side, index: Index, table: Table) {
    Shows(refs, view, side, index, table) && WellFormed(view, side) && Distinct(Flat(view))
  }

  /** Changes under other ids do not show. */
  lemma ShowsKept(refs: seq<LevelRefs>, view: seq<LevelData>, side: Side,
                  index: Index, table: Table, index': Index, table': Table)
    requires Shows(refs, view, side, index, table)
    requires forall id :: id in Ids(Flat(view)) ==>
               && (id in index ==> id in index' && index'[id] == index[id])
               && (id in table ==> id in table' && table'[id] == table[id])
    ensures Shows(refs, view, side, index', table')
  {
    forall i | 0 <= i < |refs| ensures ShowsLevel(refs[i], view[i], side, index', table') {
      assert ShowsLevel(refs[i], view[i], side, index, table);
      forall k | 0 <= k < |refs[i].orders|
        ensures ShowsOrder(refs[i].orders[k], view[i].orders[k], side, index', table')
      {
        assert ShowsOrder(refs[i].orders[k], view[i].orders[k], side, index, table);
        FlatHas(view, i, k);
      }
    }
  }

  /** Exchanging one level. */
  lemma ShowsUpdated(refs: seq<LevelRefs>, view: seq<LevelData>, side: Side, index: Index, table: Table,
                     i: nat, r: LevelRefs, v: LevelData)
    requires Shows(refs, view, side, index, table) && i < |refs| && ShowsLevel(r, v, side, index, table)
    ensures Shows(refs[i := r], view[i := v], side, index, table)
  {
  }

  lemma {:induction false} DistinctPlaces(q: seq<OrderData>, i: nat, j: nat)
    requires Distinct(q) && i < |q| && j < |q| && i != j
    ensures q[i].id != q[j].id
  {
    if i == 0 {
      assert q[j] == q[1..][j - 1] && q[j] in q[1..];
    } else if j == 0 {
      assert q[i] == q[1..][i - 1] && q[i] in q[1..];
    } else {
      DistinctPlaces(q[1..], i - 1, j - 1);
    }
  }

  /** Adding a level. */
  lemma ShowsSpliced(refs: seq<LevelRefs>, view: seq<LevelData>, side: Side, index: Index, table: Table,
                     i: nat, r: LevelRefs, v: LevelData)
    requires Shows(refs, view, side, index, table) && i <= |refs| && ShowsLevel(r, v, side, index, table)
    ensures Shows(refs[..i] + [r] + refs[i..], view[..i] + [v] + view[i..], side, index, table)
  {
    var refs', view' := refs[..i] + [r] + refs[i..], view[..i] + [v] + view[i..];
    forall j | 0 <= j < |refs'| ensures ShowsLevel(refs'[j], view'[j], side, index, table) {
      if j != i {
        var k := if j < i then j else j - 1;
        assert refs'[j] == refs[k] && view'[j] == view[k];
      }
    }
  }

  /** Removing a level. */
  lemma ShowsDropped(refs: seq<LevelRefs>, view: seq<LevelData>, side: Side, index: Index, table: Table, i: nat)
    requires Shows(refs, view, side, index, table) && i < |refs|
    ensures Shows(refs[..i] + refs[i + 1..], view[..i] + view[i + 1..], side, index, table)
  {
    var refs', view' := refs[..i] + refs[i + 1..], view[..i] + view[i + 1..];
    forall j | 0 <= j < |refs'| ensures ShowsLevel(refs'[j], view'[j], side, index, table) {
      var k := if j < i then j else j + 1;
      assert refs'[j] == refs[k] && view'[j] == view[k];
    }
  }

  lemma ShowsCons(refs: seq<LevelRefs>, view: seq<LevelData>, side: Side, index: Index, table: Table)
    requires refs != [] && view != [] && ShowsLevel(refs[0], view[0], side, index, table)
    requires Shows(refs[1..], view[1..], side, index, table)
    ensures Shows(refs, view, side, index, table)
  {
    forall i | 0 <= i < |refs| ensures ShowsLevel(refs[i], view[i], side, index, table) {
      assert i > 0 ==> ShowsLevel(refs[1..][i - 1], view[1..][i - 1], side, index, table);
    }
  }

  lemma ShowsTail(refs: seq<LevelRefs>, view: seq<LevelData>, side: Side, index: Index, table: Table)
    requires Shows(refs, view, side, index, table) && refs != []
    ensures Shows(refs[1..], view[1..], side, index, table)
  {
    forall i | 0 <= i < |refs[1..]| ensures ShowsLevel(refs[1..][i], view[1..][i], side, index, table) {
      assert ShowsLevel(refs[i + 1], view[i + 1], side, index, table);
    }
  }

  /** Everything about a book but its heap: levels with their order objects,
      the same levels with contents, the id index and the orders' contents. */
  datatype Shape = Shape(
    bidRefs: seq<LevelRefs>, askRefs: seq<LevelRefs>,
    bidView: seq<LevelData>, askView: seq<LevelData>, index: Index, table: Table)
  {
    ghost function Refs(side: Side): seq<LevelRefs> {
      if side == BUY then bidRefs else askRefs
    }

    ghost function View(side: Side): seq<LevelData> {
      if side == BUY then bidView else askView
    }

    ghost function With(side: Side, refs: seq<LevelRefs>, view: seq<LevelData>, index: Index, table: Table): Shape {
      if side == BUY then Shape(refs, askRefs, view, askView, index, table)
      else Shape(bidRefs, refs, bidView, view, index, table)
    }

    ghost function WithRefs(side: Side, refs: seq<LevelRefs>): Shape {
      if side == BUY then this.(bidRefs := refs) else this.(askRefs := refs)
    }

    ghost predicate SideOk(side: Side) {
      Fits(Refs(side), View(side), side, index, table)
    }

    /** The four structures agree. */
    ghost predicate Agrees() {
      && (forall side :: SideOk(side))
      && Ids(Flat(bidView)) !! Ids(Flat(askView))
      && index.Keys == table.Keys == Ids(Flat(bidView)) + Ids(Flat(askView))
    }

    ghost function HeadRefs(side: Side, orders: seq<Order>, fill: real): seq<LevelRefs>
      requires Refs(side) != []
    {
      var r := Refs(side)[0];
      Refs(side)[0 := LevelRefs(r.price, orders, r.total - fill)]
    }

    ghost function HeadView(side: Side, orders: seq<OrderData>, fill: real): seq<LevelData>
      requires View(side) != []
    {
      var v := View(side)[0];
      View(side)[0 := LevelData(v.price, orders, v.total - fill)]
    }

    /** After a fill that leaves some of the head order, now `d`. */
    ghost function Filled(side: Side, d: OrderData, fill: real): Shape
      requires Refs(side) != [] && View(side) != [] && View(side)[0].orders != []
    {
      With(side, HeadRefs(side, Refs(side)[0].orders, fill), HeadView(side, [d] + View(side)[0].orders[1..], fill),
           index, table[d.id := d])
    }

    /** After the head order is used up. */
    ghost function Popped(side: Side, fill: real): Shape
      requires Refs(side) != [] && View(side) != [] && Refs(side)[0].orders != [] && View(side)[0].orders != []
    {
      var id := View(side)[0].orders[0].id;
      With(side, HeadRefs(side, Refs(side)[0].orders[1..], fill), HeadView(side, View(side)[0].orders[1..], fill),
           index - {id}, table - {id})
    }

    /** The head order is where level, queue, index and table all say. */
    ghost predicate HeadKnown(side: Side) {
      && Refs(side) != [] && View(side) != [] && Refs(side)[0].orders != [] && View(side)[0].orders != []
      && ShowsOrder(Refs(side)[0].orders[0], View(side)[0].orders[0], side, index, table)
      && Alone(side, 0)
    }

    lemma HeadFacts(side: Side)
      requires Agrees() && View(side) != [] && View(side)[0].orders != []
      ensures |Refs(side)| == |View(side)| && Refs(side)[0].orders != [] && Alone(side, 0)
      ensures var h := View(side)[0].orders[0];
              && ShowsOrder(Refs(side)[0].orders[0], h, side, index, table)
              && Flat(View(side)) != [] && Flat(View(side))[0] == h
              && h.id !in Ids(Flat(View(side))[1..]) && h.id !in Ids(Flat(View(side.Opposite())))
              && h.price == View(side)[0].price == Refs(side)[0].price && h.side == side
    {
      assert SideOk(side);
      AgreesAlone(side, 0);
      HeadLevel(View(side), View(side)[0]);
      var h := View(side)[0].orders[0];
      assert h in View(side)[0].orders && h in Flat(View(side));
      assert ShowsLevel(Refs(side)[0], View(side)[0], side, index, table);
    }

    /** Orders other than the head are shown as before. */
    lemma RestShown(side: Side, index': Index, table': Table)
      requires Agrees() && View(side) != [] && View(side)[0].orders != []
      requires forall id :: id in index && id != View(side)[0].orders[0].id ==>
                 id in index' && index'[id] == index[id] && id in table' && table'[id] == table[id]
      ensures |Refs(side)| == |View(side)| && |Refs(side)[0].orders| == |View(side)[0].orders|
      ensures forall k :: 0 < k < |View(side)[0].orders| ==>
                ShowsOrder(Refs(side)[0].orders[k], View(side)[0].orders[k], side, index', table')
      ensures Shows(Refs(side)[1..], View(side)[1..], side, index', table')
      ensures Shows(Refs(side.Opposite()), View(side.Opposite()), side.Opposite(), index', table')
    {
      HeadFacts(side);
      assert SideOk(side) && SideOk(side.Opposite());
      var v, id := View(side), View(side)[0].orders[0].id;
      HeadLevel(v, v[0]);
      assert ShowsLevel(Refs(side)[0], v[0], side, index, table);
      forall k | 0 < k < |v[0].orders|
        ensures ShowsOrder(Refs(side)[0].orders[k], v[0].orders[k], side, index', table')
      {
        assert v[0].orders[1..][k - 1] in Flat(v)[1..];
        assert ShowsOrder(Refs(side)[0].orders[k], v[0].orders[k], side, index, table);
      }
      assert forall x :: x in Flat(v[1..]) ==> x in Flat(v)[1..];
      assert forall x :: x in Ids(Flat(v[1..])) ==> x in Ids(Flat(v)[1..]);
      ShowsTail(Refs(side), v, side, index, table);
      ShowsKept(Refs(side)[1..], v[1..], side, index, table, index', table');
      var other := side.Opposite();
      ShowsKept(Refs(other), View(other), other, index, table, index', table');
    }

    lemma FilledAgrees(side: Side, d: OrderData, fill: real)
      requires Agrees() && View(side) != [] && View(side)[0].orders != []
      requires var h := View(side)[0].orders[0];
               d.id == h.id && d.price == h.price && d.side == h.side && Remaining(d) == Remaining(h) - fill
      ensures Refs(side) != [] && Filled(side, d, fill).Agrees()
    {
      FilledFits(side, d, fill);
      IdsCover(side);
      HeadFacts(side);
      assert table[d.id := d].Keys == table.Keys;
      WithAgrees(side, HeadRefs(side, Refs(side)[0].orders, fill),
                 HeadView(side, [d] + View(side)[0].orders[1..], fill),
                 index, table[d.id := d]);
    }

    lemma FilledFits(side: Side, d: OrderData, fill: real)
      requires Agrees() && View(side) != [] && View(side)[0].orders != []
      requires var h := View(side)[0].orders[0];
               d.id == h.id && d.price == h.price && d.side == h.side && Remaining(d) == Remaining(h) - fill
      ensures Refs(side) != []
      ensures Fits(HeadRefs(side, Refs(side)[0].orders, fill), HeadView(side, [d] + View(side)[0].orders[1..], fill),
                   side, index, table[d.id := d])
      ensures Fits(Refs(side.Opposite()), View(side.Opposite()), side.Opposite(), index, table[d.id := d])
      ensures Ids(Flat(HeadView(side, [d] + View(side)[0].orders[1..], fill))) == Ids(Flat(View(side)))
    {
      assert SideOk(side) && SideOk(side.Opposite());
      FilledShows(side, d, fill);
      FilledView(side, d, fill);
    }

    lemma FilledView(side: Side, d: OrderData, fill: real)
      requires View(side) != [] && View(side)[0].orders != []
      requires WellFormed(View(side), side) && Distinct(Flat(View(side)))
      requires var h := View(side)[0].orders[0];
               d.id == h.id && d.price == h.price && d.side == h.side && Remaining(d) == Remaining(h) - fill
      ensures var w := HeadView(side, [d] + View(side)[0].orders[1..], fill);
              WellFormed(w, side) && Distinct(Flat(w)) && Ids(Flat(w)) == Ids(Flat(View(side)))
    {
      FilledQueue(View(side), side, d, fill);
    }

    lemma PoppedView(side: Side, fill: real)
      requires View(side) != [] && View(side)[0].orders != []
      requires WellFormed(View(side), side) && Distinct(Flat(View(side)))
      requires Remaining(View(side)[0].orders[0]) == fill
      ensures var w := HeadView(side, View(side)[0].orders[1..], fill);
              && WellFormed(w, side) && Distinct(Flat(w))
              && Ids(Flat(w)) == Ids(Flat(View(side))) - {View(side)[0].orders[0].id}
    {
      PoppedQueue(View(side), side, fill);
    }

    /** Both outcomes of a fill, on levels. */
    lemma FilledIsAfterFill(side: Side, d: OrderData, fill: real, stamp: nat)
      requires Refs(side) != [] && View(side) != [] && View(side)[0].orders != []
      requires var h := View(side)[0].orders[0];
               && d == h.(filledQuantity := h.filledQuantity + fill, status := PARTIALLY_FILLED)
               && fill < Remaining(h)
      ensures Filled(side, d, fill).View(side) == LevelsAfterFill(View(side), fill, stamp)
      ensures Filled(side, d, fill).View(side.Opposite()) == View(side.Opposite())
    {
    }

    lemma FilledShows(side: Side, d: OrderData, fill: real)
      requires Agrees() && View(side) != [] && View(side)[0].orders != [] && d.id == View(side)[0].orders[0].id
      ensures Refs(side) != []
      ensures Shows(HeadRefs(side, Refs(side)[0].orders, fill), HeadView(side, [d] + View(side)[0].orders[1..], fill),
                    side, index, table[d.id := d])
      ensures Shows(Refs(side.Opposite()), View(side.Opposite()), side.Opposite(), index, table[d.id := d])
    {
      hide Ids, Flat, Distinct, WellFormed, Alone;
      HeadFacts(side);
      assert SideOk(side) && ShowsLevel(Refs(side)[0], View(side)[0], side, index, table);
      RestShown(side, index, table[d.id := d]);
      ShowsCons(HeadRefs(side, Refs(side)[0].orders, fill), HeadView(side, [d] + View(side)[0].orders[1..], fill),
                side, index, table[d.id := d]);
    }

    lemma PoppedShows(side: Side, fill: real)
      requires Agrees() && View(side) != [] && View(side)[0].orders != []
      ensures Refs(side) != [] && Refs(side)[0].orders != []
      ensures var id := View(side)[0].orders[0].id;
              && Shows(HeadRefs(side, Refs(side)[0].orders[1..], fill), HeadView(side, View(side)[0].orders[1..], fill),
                       side, index - {id}, table - {id})
              && Shows(Refs(side.Opposite()), View(side.Opposite()), side.Opposite(), index - {id}, table - {id})
    {
      hide Flat, Ids, Distinct, WellFormed, Alone;
      HeadFacts(side);
      var id := View(side)[0].orders[0].id;
      assert SideOk(side) && ShowsLevel(Refs(side)[0], View(side)[0], side, index, table);
      RestShown(side, index - {id}, table - {id});
      ShowsCons(HeadRefs(side, Refs(side)[0].orders[1..], fill), HeadView(side, View(side)[0].orders[1..], fill),
                side, index - {id}, table - {id});
    }

    lemma PoppedAgrees(side: Side, fill: real)
      requires Agrees() && View(side) != [] && View(side)[0].orders != []
      requires Remaining(View(side)[0].orders[0]) == fill
      ensures Refs(side) != [] && Refs(side)[0].orders != [] && Popped(side, fill).Agrees()
    {
      PoppedFits(side, fill);
      IdsCover(side);
      HeadFacts(side);
      var id := View(side)[0].orders[0].id;
      assert (index - {id}).Keys == index.Keys - {id} && (table - {id}).Keys == table.Keys - {id};
      WithAgrees(side, HeadRefs(side, Refs(side)[0].orders[1..], fill), HeadView(side, View(side)[0].orders[1..], fill),
                 index - {id}, table - {id});
    }

    lemma PoppedFits(side: Side, fill: real)
      requires Agrees() && View(side) != [] && View(side)[0].orders != []
      requires Remaining(View(side)[0].orders[0]) == fill
      ensures Refs(side) != [] && Refs(side)[0].orders != []
      ensures var id := View(side)[0].orders[0].id;
              && Fits(HeadRefs(side, Refs(side)[0].orders[1..], fill), HeadView(side, View(side)[0].orders[1..], fill),
                      side, index - {id}, table - {id})
              && Fits(Refs(side.Opposite()), View(side.Opposite()), side.Opposite(), index - {id}, table - {id})
              && Ids(Flat(HeadView(side, View(side)[0].orders[1..], fill))) == Ids(Flat(View(side))) - {id}
    {
      assert SideOk(side) && SideOk(side.Opposite());
      PoppedShows(side, fill);
      PoppedView(side, fill);
    }

    /** An emptied first level taken off. */
    ghost function Shifted(side: Side): Shape
      requires Refs(side) != [] && View(side) != []
    {
      With(side, Refs(side)[1..], View(side)[1..], index, table)
    }

    lemma ShiftedAgrees(side: Side)
      requires Agrees() && View(side) != [] && View(side)[0].orders == []
      ensures Refs(side) != [] && Shifted(side).Agrees()
      ensures Flat(Shifted(side).View(side)) == Flat(View(side))
      ensures Shifted(side).View(side.Opposite()) == View(side.Opposite())
    {
      assert SideOk(side) && SideOk(side.Opposite());
      ShowsTail(Refs(side), View(side), side, index, table);
      TailIsWorse(View(side), side);
      assert [] + Flat(View(side)[1..]) == Flat(View(side)[1..]);
      IdsCover(side);
      WithAgrees(side, Refs(side)[1..], View(side)[1..], index, table);
    }

    /** After the order at a place of a level is taken out. */
    ghost function Removed(side: Side, i: nat, k: nat): Shape
      requires i < |Refs(side)| && i < |View(side)| && k < |Refs(side)[i].orders| && k < |View(side)[i].orders|
    {
      var id := View(side)[i].orders[k].id;
      With(side, RefsWithout(side, i, k), View(side)[i := Without(View(side)[i], k)], index - {id}, table - {id})
    }

    ghost function RefsWithout(side: Side, i: nat, k: nat): seq<LevelRefs>
      requires i < |Refs(side)| && i < |View(side)| && k < |Refs(side)[i].orders| && k < |View(side)[i].orders|
    {
      var r := Refs(side)[i];
      Refs(side)[i := LevelRefs(r.price, r.orders[..k] + r.orders[k + 1..],
                                r.total - Remaining(View(side)[i].orders[k]))]
    }

    /** An indexed order is in the level of its price, on the side the index says. */
    lemma {:induction false} Whereabouts(id: OrderId) returns (i: nat, k: nat)
      requires Agrees() && id in index
      ensures var side := index[id].side;
              && |Refs(side)| == |View(side)| && i < |View(side)|
              && |Refs(side)[i].orders| == |View(side)[i].orders| && k < |View(side)[i].orders|
              && View(side)[i].orders[k].id == id && Refs(side)[i].orders[k] == index[id].order
              && View(side)[i].price == View(side)[i].orders[k].price
              && id in table && table[id] == View(side)[i].orders[k] && table[id].side == side
              && id in Ids(Flat(View(side))) && id !in Ids(Flat(View(side.Opposite())))
    {
      IdsCover(BUY);
      var side := if id in Ids(Flat(bidView)) then BUY else SELL;
      i, k := Locate(View(side), id);
      assert SideOk(side);
      assert ShowsLevel(Refs(side)[i], View(side)[i], side, index, table);
      assert ShowsOrder(Refs(side)[i].orders[k], View(side)[i].orders[k], side, index, table);
      assert View(side)[i].orders[k] in View(side)[i].orders;
      FlatHas(View(side), i, k);
    }

    lemma {:induction false} RemovedShows(side: Side, i: nat, k: nat)
      requires Fits(Refs(side), View(side), side, index, table) && i < |View(side)| && k < |View(side)[i].orders|
      ensures |Refs(side)| == |View(side)| && |Refs(side)[i].orders| == |View(side)[i].orders|
      ensures var id := View(side)[i].orders[k].id;
              Shows(RefsWithout(side, i, k), View(side)[i := Without(View(side)[i], k)], side, index - {id},
                    table - {id})
    {
      hide Flat, Sum, Distinct, Ids;
      var r, v := Refs(side), View(side);
      var id := v[i].orders[k].id;
      var r', v' := RefsWithout(side, i, k), v[i := Without(v[i], k)];
      forall j | 0 <= j < |v'| ensures ShowsLevel(r'[j], v'[j], side, index - {id}, table - {id}) {
        assert ShowsLevel(r[j], v[j], side, index, table);
        forall m | 0 <= m < |v'[j].orders|
          ensures ShowsOrder(r'[j].orders[m], v'[j].orders[m], side, index - {id}, table - {id})
        {
          var n := if j == i && m >= k then m + 1 else m;
          assert ShowsOrder(r[j].orders[n], v[j].orders[n], side, index, table);
          assert v'[j].orders[m] == v[j].orders[n] && r'[j].orders[m] == r[j].orders[n];
          if j == i {
            DistinctPlaces(v[i].orders, n, k);
          } else {
            OnePlace(v, j, n, i, k);
          }
        }
      }
    }

    lemma {:induction false} RemovedAgrees(side: Side, i: nat, k: nat)
      requires Agrees() && i < |View(side)| && k < |View(side)[i].orders|
      ensures |Refs(side)| == |View(side)| && |Refs(side)[i].orders| == |View(side)[i].orders|
      ensures Removed(side, i, k).Agrees()
    {
      RemovedFits(side, i, k);
      RemovedElsewhere(side, i, k);
      IdsCover(side);
      var id := View(side)[i].orders[k].id;
      assert (index - {id}).Keys == index.Keys - {id} && (table - {id}).Keys == table.Keys - {id};
      WithAgrees(side, RefsWithout(side, i, k), View(side)[i := Without(View(side)[i], k)], index - {id}, table - {id});
    }

    lemma {:induction false} RemovedElsewhere(side: Side, i: nat, k: nat)
      requires Agrees() && i < |View(side)| && k < |View(side)[i].orders|
      ensures var other, id := side.Opposite(), View(side)[i].orders[k].id;
              && id !in Ids(Flat(View(other)))
              && Fits(Refs(other), View(other), other, index - {id}, table - {id})
    {
      var other, id := side.Opposite(), View(side)[i].orders[k].id;
      FlatHas(View(side), i, k);
      IdsCover(side);
      assert SideOk(other);
      ShowsKept(Refs(other), View(other), other, index, table, index - {id}, table - {id});
    }

    lemma {:induction false} RemovedFits(side: Side, i: nat, k: nat)
      requires Agrees() && i < |View(side)| && k < |View(side)[i].orders|
      ensures |Refs(side)| == |View(side)| && |Refs(side)[i].orders| == |View(side)[i].orders|
      ensures var id, w := View(side)[i].orders[k].id, View(side)[i := Without(View(side)[i], k)];
              && Fits(RefsWithout(side, i, k), w, side, index - {id}, table - {id})
              && Flat(w) == Remove(Flat(View(side)), id)
              && Ids(Flat(w)) == Ids(Flat(View(side))) - {id}
    {
      assert SideOk(side);
      RemovedShows(side, i, k);
      RemovedView(View(side), side, i, k);
    }

    static lemma {:induction false} RemovedView(v: seq<LevelData>, side: Side, i: nat, k: nat)
      requires WellFormed(v, side) && Distinct(Flat(v)) && i < |v| && k < |v[i].orders|
      ensures var id, w := v[i].orders[k].id, v[i := Without(v[i], k)];
              && WellFormed(w, side) && Distinct(Flat(w)) && Flat(w) == Remove(Flat(v), id)
              && Ids(Flat(w)) == Ids(Flat(v)) - {id}
    {
      hide Flat, WellFormed, Remove, Without;
      RemoveAgrees(v, side, i, k);
      RemoveKeeps(Flat(v), v[i].orders[k].id);
    }

    /** An emptied level taken out. */
    ghost function Dropped(side: Side, i: nat): Shape
      requires i < |Refs(side)| && i < |View(side)|
    {
      With(side, Refs(side)[..i] + Refs(side)[i + 1..], View(side)[..i] + View(side)[i + 1..], index, table)
    }

    lemma {:induction false} DroppedAgrees(side: Side, i: nat)
      requires Agrees() && i < |View(side)| && View(side)[i].orders == []
      ensures |Refs(side)| == |View(side)| && Dropped(side, i).Agrees()
    {
      var v, w := View(side), View(side)[..i] + View(side)[i + 1..];
      assert SideOk(side) && SideOk(side.Opposite());
      ShowsDropped(Refs(side), v, side, index, table, i);
      DroppedView(v, side, i);
      IdsCover(side);
      WithAgrees(side, Refs(side)[..i] + Refs(side)[i + 1..], w, index, table);
    }

    static lemma {:induction false} DroppedView(v: seq<LevelData>, side: Side, i: nat)
      requires WellFormed(v, side) && i < |v| && v[i].orders == []
      ensures WellFormed(v[..i] + v[i + 1..], side) && Flat(v[..i] + v[i + 1..]) == Flat(v)
    {
      hide Flat, LevelOk;
      var w := v[..i] + v[i + 1..];
      FlatSplit(v, i);
      FlatConcat(v[..i], v[i + 1..]);
      assert Flat(v[..i]) + [] + Flat(v[i + 1..]) == Flat(v[..i]) + Flat(v[i + 1..]);
      assert forall j :: 0 <= j < |w| ==> w[j] == v[if j < i then j else j + 1];
    }

    static lemma {:induction false} OthersNonEmpty(v: seq<LevelData>, i: nat)
      requires i < |v| && forall j :: 0 <= j < |v| && j != i ==> v[j].orders != []
      ensures NoEmpty(v[..i] + v[i + 1..])
    {
      var w := v[..i] + v[i + 1..];
      assert forall j :: 0 <= j < |w| ==> w[j] == v[if j < i then j else j + 1];
    }

    /** No other level of the side has this one's price. */
    ghost predicate Alone(side: Side, i: nat) {
      forall j :: 0 <= j < |Refs(side)| && i < |Refs(side)| && j != i ==> Refs(side)[j].price != Refs(side)[i].price
    }

    lemma AgreesAlone(side: Side, i: nat)
      requires Agrees()
      ensures Alone(side, i)
    {
      assert SideOk(side);
      forall j | 0 <= j < |Refs(side)| && i < |Refs(side)| && j != i
        ensures Refs(side)[j].price != Refs(side)[i].price
      {
        assert ShowsLevel(Refs(side)[i], View(side)[i], side, index, table);
        assert ShowsLevel(Refs(side)[j], View(side)[j], side, index, table);
      }
    }

    /** The shape after an order joined the index and one side became `refs`. */
    ghost function Joined(refs: seq<LevelRefs>, d: OrderData, entry: IndexEntry): Shape {
      With(d.side, refs, LevelInsert(View(d.side), d), index[d.id := entry], table[d.id := d])
    }

    lemma IdsCover(side: Side)
      requires Agrees()
      ensures index.Keys == table.Keys == Ids(Flat(View(side))) + Ids(Flat(View(side.Opposite())))
      ensures Ids(Flat(View(side))) !! Ids(Flat(View(side.Opposite())))
    {
    }

    /** A change of one side that keeps everything in agreement. */
    lemma WithAgrees(side: Side, refs: seq<LevelRefs>, view: seq<LevelData>, index': Index, table': Table)
      requires Agrees()
      requires Fits(refs, view, side, index', table')
      requires Fits(Refs(side.Opposite()), View(side.Opposite()), side.Opposite(), index', table')
      requires Ids(Flat(view)) !! Ids(Flat(View(side.Opposite())))
      requires index'.Keys == table'.Keys == Ids(Flat(view)) + Ids(Flat(View(side.Opposite())))
      ensures With(side, refs, view, index', table').Agrees()
    {
      var t := With(side, refs, view, index', table');
      forall s: Side ensures t.SideOk(s) {
        assert s == side || s == side.Opposite();
      }
    }

    lemma JoinedAgrees(refs: seq<LevelRefs>, d: OrderData, entry: IndexEntry)
      requires Agrees() && d.id !in index
      requires Shows(refs, LevelInsert(View(d.side), d), d.side, index[d.id := entry], table[d.id := d])
      ensures Joined(refs, d, entry).Agrees()
    {
      IdsCover(d.side);
      JoinedFits(refs, d, entry);
      WithAgrees(d.side, refs, LevelInsert(View(d.side), d), index[d.id := entry], table[d.id := d]);
    }

    lemma JoinedFits(refs: seq<LevelRefs>, d: OrderData, entry: IndexEntry)
      requires Agrees() && d.id !in index
      requires Shows(refs, LevelInsert(View(d.side), d), d.side, index[d.id := entry], table[d.id := d])
      ensures Fits(refs, LevelInsert(View(d.side), d), d.side, index[d.id := entry], table[d.id := d])
      ensures Fits(Refs(d.side.Opposite()), View(d.side.Opposite()), d.side.Opposite(),
                   index[d.id := entry], table[d.id := d])
      ensures Ids(Flat(LevelInsert(View(d.side), d))) == Ids(Flat(View(d.side))) + {d.id}
    {
      var side, other := d.side, d.side.Opposite();
      assert SideOk(side) && SideOk(other);
      IdsCover(side);
      InsertKeepsIds(View(side), side, d);
      ShowsKept(Refs(other), View(other), other, index, table, index[d.id := entry], table[d.id := d]);
    }

    ghost function Appended(i: nat, order: Order, d: OrderData): seq<LevelRefs>
      requires i < |Refs(d.side)|
    {
      var r := Refs(d.side)[i];
      Refs(d.side)[i := LevelRefs(r.price, r.orders + [order], r.total + Remaining(d))]
    }

    /** An order appended to the level of its price. */
    lemma AppendAgrees(i: nat, order: Order, d: OrderData, entry: IndexEntry)
      requires Agrees() && d.id !in index && i < |View(d.side)| && View(d.side)[i].price == d.price
      requires order.id == d.id && entry.order == order && entry.side == d.side
      ensures |Refs(d.side)| == |View(d.side)| && Joined(Appended(i, order, d), d, entry).Agrees()
    {
      hide Flat, LevelInsert, WellFormed;
      var side := d.side;
      assert SideOk(side);
      var v, r := View(side)[i], Refs(side)[i];
      InsertAtFound(View(side), side, d, i);
      var index', table' := index[d.id := entry], table[d.id := d];
      ShowsKept(Refs(side), View(side), side, index, table, index', table');
      assert ShowsLevel(r, v, side, index', table');
      ShowsUpdated(Refs(side), View(side), side, index', table', i, Appended(i, order, d)[i], Pushed(v, d));
      JoinedAgrees(Appended(i, order, d), d, entry);
    }

    ghost function Spliced(i: nat, order: Order, d: OrderData): seq<LevelRefs>
      requires i <= |Refs(d.side)|
    {
      Refs(d.side)[..i] + [LevelRefs(d.price, [order], Remaining(d))] + Refs(d.side)[i..]
    }

    /** An order put into a new level. */
    lemma SpliceAgrees(i: nat, order: Order, d: OrderData, entry: IndexEntry)
      requires Agrees() && d.id !in index && i <= |View(d.side)|
      requires forall j :: 0 <= j < |View(d.side)| ==> View(d.side)[j].price != d.price
      requires forall j :: 0 <= j < i ==> RankOf(d.side, View(d.side)[j].price) <= Rank(d)
      requires i < |View(d.side)| ==> Rank(d) < RankOf(d.side, View(d.side)[i].price)
      requires order.id == d.id && entry.order == order && entry.side == d.side
      ensures |Refs(d.side)| == |View(d.side)| && Joined(Spliced(i, order, d), d, entry).Agrees()
    {
      var side := d.side;
      assert SideOk(side);
      InsertAtNew(View(side), side, d, i);
      var index', table' := index[d.id := entry], table[d.id := d];
      ShowsKept(Refs(side), View(side), side, index, table, index', table');
      ShowsSpliced(Refs(side), View(side), side, index', table', i,
                   LevelRefs(d.price, [order], Remaining(d)), LevelData(d.price, [d], Remaining(d)));
      JoinedAgrees(Spliced(i, order, d), d, entry);
    }
  }
}
