/** Price levels as values, and their agreement with the flat queue. */
module Levels {
  import opened Types
  import opened Queues
  import opened Matching

  datatype LevelData = LevelData(price: real, orders: seq<OrderData>, total: real)

  /** Levels read off in order of price, each in order of arrival. */
  function Flat(v: seq<LevelData>): seq<OrderData> {
    if v == [] then [] else v[0].orders + Flat(v[1..])
  }

  /** A level holds one price of one side, and caches the quantity it shows. */
  ghost predicate LevelOk(d: LevelData, side: Side) {
    && (forall o :: o in d.orders ==> o.price == d.price && o.side == side)
    && Distinct(d.orders)
    && d.total == Sum(Remaining, d.orders)
  }

  /** Prices strictly worsen: bids descend, asks ascend. */
  ghost predicate WellFormed(v: seq<LevelData>, side: Side) {
    && (forall i, j :: 0 <= i < j < |v| ==> RankOf(side, v[i].price) < RankOf(side, v[j].price))
    && forall i :: 0 <= i < |v| ==> LevelOk(v[i], side)
  }

  ghost predicate NoEmpty(v: seq<LevelData>) {
    forall i :: 0 <= i < |v| ==> v[i].orders != []
  }

  /** Insertion into the level of the order's price, or into a new level. */
  function LevelInsert(v: seq<LevelData>, o: OrderData): seq<LevelData> {
    if v == [] || Rank(o) < RankOf(o.side, v[0].price) then [LevelData(o.price, [o], Remaining(o))] + v
    else if v[0].price == o.price then [Pushed(v[0], o)] + v[1..]
    else [v[0]] + LevelInsert(v[1..], o)
  }

  function Pushed(d: LevelData, o: OrderData): LevelData {
    LevelData(d.price, d.orders + [o], d.total + Remaining(o))
  }

  lemma {:induction false} FlatMembers(v: seq<LevelData>, side: Side, o: OrderData)
    requires WellFormed(v, side) && o in Flat(v)
    ensures o.side == side && exists i :: 0 <= i < |v| && o in v[i].orders && o.price == v[i].price
  {
    if o in v[0].orders {
    } else {
      FlatMembers(v[1..], side, o);
      var j :| 0 <= j < |v[1..]| && o in v[1..][j].orders && o.price == v[1..][j].price;
      assert o in v[j + 1].orders && o.price == v[j + 1].price;
    }
  }

  /** All orders behind the first level are worse than its price. */
  lemma TailIsWorse(v: seq<LevelData>, side: Side)
    requires WellFormed(v, side) && v != []
    ensures WellFormed(v[1..], side)
    ensures forall o :: o in Flat(v[1..]) ==> RankOf(side, v[0].price) < Rank(o)
  {
    forall o | o in Flat(v[1..]) ensures RankOf(side, v[0].price) < Rank(o) {
      FlatMembers(v[1..], side, o);
    }
  }

  lemma {:induction false} SortedConcat(a: seq<OrderData>, b: seq<OrderData>, rank: real)
    requires forall o :: o in a ==> Rank(o) == rank
    requires forall o :: o in b ==> rank <= Rank(o)
    requires Sorted(b)
    ensures Sorted(a + b)
  {
    if a == [] {
      assert a + b == b;
    } else {
      assert (a + b)[1..] == a[1..] + b;
      SortedConcat(a[1..], b, rank);
    }
  }

  lemma {:induction false} FlatSorted(v: seq<LevelData>, side: Side)
    requires WellFormed(v, side)
    ensures Sorted(Flat(v))
  {
    if v != [] {
      TailIsWorse(v, side);
      FlatSorted(v[1..], side);
      SortedConcat(v[0].orders, Flat(v[1..]), RankOf(side, v[0].price));
    }
  }

  lemma {:induction false} FlatSplit(v: seq<LevelData>, i: nat)
    requires i < |v|
    ensures Flat(v) == Flat(v[..i]) + v[i].orders + Flat(v[i + 1..])
  {
    if i == 0 {
      assert Flat(v[..0]) == [];
    } else {
      FlatSplit(v[1..], i - 1);
      assert v[..i][1..] == v[1..][..i - 1];
      assert v[1..][i - 1 + 1..] == v[i + 1..];
      assert v[..i][0] == v[0];
    }
  }

  lemma FlatHas(v: seq<LevelData>, i: nat, k: nat)
    requires i < |v| && k < |v[i].orders|
    ensures v[i].orders[k] in Flat(v) && v[i].orders[k].id in Ids(Flat(v))
  {
    FlatSplit(v, i);
    assert v[i].orders[k] in v[i].orders;
  }

  /** An id has no second place. */
  lemma {:induction false} OnePlace(v: seq<LevelData>, i: nat, k: nat, j: nat, m: nat)
    requires Distinct(Flat(v)) && i < |v| && k < |v[i].orders| && j < |v| && m < |v[j].orders|
    requires i != j
    ensures v[i].orders[k].id != v[j].orders[m].id
  {
    hide Flat, Distinct;
    if i > j {
      OnePlace(v, j, m, i, k);
    } else {
      FlatSplit(v, i);
      var a, b, c := Flat(v[..i]), v[i].orders, Flat(v[i + 1..]);
      assert a + b + c == a + (b + c);
      DistinctParts(a, b + c);
      DistinctParts(b, c);
      assert v[i + 1..][j - i - 1] == v[j];
      FlatHas(v[i + 1..], j - i - 1, m);
      assert b[k] in b;
    }
  }

  lemma {:induction false} FlatConcat(v: seq<LevelData>, w: seq<LevelData>)
    ensures Flat(v + w) == Flat(v) + Flat(w)
  {
    if v == [] {
      assert v + w == w;
    } else {
      assert (v + w)[1..] == v[1..] + w;
      FlatConcat(v[1..], w);
    }
  }

  /** Inserting into levels is inserting into the flat queue. */
  lemma {:induction false} InsertAgrees(v: seq<LevelData>, side: Side, o: OrderData)
    requires WellFormed(v, side) && o.side == side
    ensures Flat(LevelInsert(v, o)) == Insert(Flat(v), o)
  {
    if v != [] {
      TailIsWorse(v, side);
      var a, b := v[0].orders, Flat(v[1..]);
      if Rank(o) < RankOf(side, v[0].price) {
        assert LevelInsert(v, o)[1..] == v;
        if Flat(v) != [] {
          assert Flat(v)[0] in Flat(v);
          FlatMembers(v, side, Flat(v)[0]);
        }
      } else {
        assert forall x :: x in a ==> Rank(x) <= Rank(o);
        InsertSkips(a, b, o);
        if v[0].price == o.price {
          assert b != [] ==> b[0] in b;
          assert LevelInsert(v, o)[1..] == v[1..];
          assert a + ([o] + b) == (a + [o]) + b;
        } else {
          InsertAgrees(v[1..], side, o);
          assert LevelInsert(v, o)[1..] == LevelInsert(v[1..], o);
        }
      }
    }
  }

  lemma PushedOk(d: LevelData, side: Side, o: OrderData)
    requires LevelOk(d, side) && o.side == side && o.price == d.price && o.id !in Ids(d.orders)
    ensures LevelOk(Pushed(d, o), side)
  {
    SumConcat(Remaining, d.orders, [o]);
    DistinctAppend(d.orders, o);
  }

  lemma SingleOk(side: Side, o: OrderData)
    requires o.side == side
    ensures LevelOk(LevelData(o.price, [o], Remaining(o)), side)
  {
    assert [o][1..] == [];
  }

  lemma FlatCons(v: seq<LevelData>)
    requires v != []
    ensures forall x :: x in v[0].orders || x in Flat(v[1..]) <==> x in Flat(v)
  {
  }

  lemma {:induction false} InsertWellFormed(v: seq<LevelData>, side: Side, o: OrderData)
    requires WellFormed(v, side) && o.side == side && o.id !in Ids(Flat(v))
    ensures WellFormed(LevelInsert(v, o), side)
    ensures forall d :: d in LevelInsert(v, o) ==> d.price == o.price || d in v
  {
    hide LevelOk, Flat, Sum, WellFormed;
    if v == [] || Rank(o) < RankOf(side, v[0].price) {
      SingleOk(side, o);
      InFront(LevelData(o.price, [o], Remaining(o)), v, side);
    } else {
      Unformed(v, side);
      FlatCons(v);
      if v[0].price == o.price {
        PushedOk(v[0], side, o);
        InFront(Pushed(v[0], o), v[1..], side);
      } else {
        InsertWellFormed(v[1..], side, o);
        InFront(v[0], LevelInsert(v[1..], o), side);
      }
    }
  }

  /** A well-formed side is its best level in front of a well-formed side of worse prices. */
  lemma Unformed(v: seq<LevelData>, side: Side)
    requires WellFormed(v, side) && v != []
    ensures WellFormed(v[1..], side) && LevelOk(v[0], side)
    ensures forall d :: d in v[1..] ==> RankOf(side, v[0].price) < RankOf(side, d.price)
  {
  }

  lemma InFront(d: LevelData, v: seq<LevelData>, side: Side)
    requires LevelOk(d, side) && WellFormed(v, side)
    requires v == [] || RankOf(side, d.price) < RankOf(side, v[0].price)
          || forall x :: x in v ==> RankOf(side, d.price) < RankOf(side, x.price)
    ensures WellFormed([d] + v, side)
  {
    assert v != [] ==> v[0] in v;
    forall j | 0 <= j < |v| ensures RankOf(side, d.price) < RankOf(side, v[j].price) {
      assert v[j] in v;
    }
  }

  lemma {:induction false} DistinctAppend(a: seq<OrderData>, o: OrderData)
    requires Distinct(a) && o.id !in Ids(a)
    ensures Distinct(a + [o])
  {
    if a != [] {
      IdsCons(a);
      IdsCons(a + [o]);
      assert (a + [o])[1..] == a[1..] + [o];
      DistinctAppend(a[1..], o);
    }
  }

  lemma {:induction false} InsertNoEmpty(v: seq<LevelData>, o: OrderData)
    requires NoEmpty(v)
    ensures NoEmpty(LevelInsert(v, o))
  {
    if !(v == [] || Rank(o) < RankOf(o.side, v[0].price) || v[0].price == o.price) {
      InsertNoEmpty(v[1..], o);
    }
  }

  /** The cached totals add up to the visible depth. */
  function Totals(v: seq<LevelData>): real {
    if v == [] then 0.0 else Totals(v[..|v| - 1]) + v[|v| - 1].total
  }

  lemma {:induction false} TotalsAreDepth(v: seq<LevelData>, side: Side)
    requires WellFormed(v, side)
    ensures Totals(v) == Sum(Remaining, Flat(v))
  {
    if v != [] {
      var n := |v| - 1;
      TotalsAreDepth(v[..n], side);
      FlatConcat(v[..n], [v[n]]);
      assert v == v[..n] + [v[n]];
      assert Flat([v[n]]) == v[n].orders + Flat([v[n]][1..]) == v[n].orders;
      SumConcat(Remaining, Flat(v[..n]), v[n].orders);
      assert Flat(v) == Flat(v[..n]) + v[n].orders;
      assert LevelOk(v[n], side);
    }
  }

  lemma DepthGrows(v: seq<LevelData>, side: Side, i: nat)
    requires WellFormed(v, side) && i <= |v|
    requires forall o :: o in Flat(v) ==> Remaining(o) >= 0.0
    ensures Totals(v[..i]) <= Totals(v)
  {
    hide Flat, LevelOk, Totals;
    assert v == v[..i] + v[i..];
    TotalsAreDepth(v, side);
    TotalsAreDepth(v[..i], side);
    FlatConcat(v[..i], v[i..]);
    RestNonNegative(Flat(v[..i]), Flat(v[i..]));
  }

  lemma RestNonNegative(a: seq<OrderData>, b: seq<OrderData>)
    requires forall o :: o in a + b ==> Remaining(o) >= 0.0
    ensures Sum(Remaining, a) <= Sum(Remaining, a + b)
  {
    SumConcat(Remaining, a, b);
    assert forall o :: o in b ==> o in a + b;
    SumNonNegative(Remaining, b);
  }

  lemma InsertKeepsIds(v: seq<LevelData>, side: Side, o: OrderData)
    requires WellFormed(v, side) && o.side == side && Distinct(Flat(v)) && o.id !in Ids(Flat(v))
    ensures WellFormed(LevelInsert(v, o), side)
    ensures Distinct(Flat(LevelInsert(v, o)))
    ensures Ids(Flat(LevelInsert(v, o))) == Ids(Flat(v)) + {o.id}
  {
    FlatSorted(v, side);
    InsertKeeps(Flat(v), o);
    InsertAgrees(v, side, o);
    InsertWellFormed(v, side, o);
  }

  /** The level found by its price is the one insertion appends to. */
  lemma {:induction false} InsertAtFound(v: seq<LevelData>, side: Side, o: OrderData, i: nat)
    requires WellFormed(v, side) && o.side == side && i < |v| && v[i].price == o.price
    ensures LevelInsert(v, o) == v[i := Pushed(v[i], o)]
  {
    if i > 0 {
      assert v[1..][i - 1] == v[i];
      InsertAtFound(v[1..], side, o, i - 1);
    }
  }

  /** Without such a level, the new one goes before the first worse price. */
  lemma TailFormed(v: seq<LevelData>, side: Side)
    requires WellFormed(v, side) && v != []
    ensures WellFormed(v[1..], side)
  {
  }

  lemma NewBehind(v: seq<LevelData>, d: LevelData, i: nat)
    requires 0 < i <= |v|
    ensures [v[0]] + (v[1..][..i - 1] + [d] + v[1..][i - 1..]) == v[..i] + [d] + v[i..]
  {
  }

  lemma {:induction false} InsertAtNew(v: seq<LevelData>, side: Side, o: OrderData, i: nat)
    requires WellFormed(v, side) && o.side == side && i <= |v|
    requires forall j :: 0 <= j < i ==> RankOf(side, v[j].price) < Rank(o)
    requires i < |v| ==> Rank(o) < RankOf(side, v[i].price)
    ensures LevelInsert(v, o) == v[..i] + [LevelData(o.price, [o], Remaining(o))] + v[i..]
  {
    hide WellFormed;
    if i > 0 {
      assert v[0].price != o.price;
      forall j | 0 <= j < i - 1 ensures RankOf(side, v[1..][j].price) < Rank(o) {
        assert v[1..][j] == v[j + 1];
      }
      TailFormed(v, side);
      InsertAtNew(v[1..], side, o, i - 1);
      NewBehind(v, LevelData(o.price, [o], Remaining(o)), i);
    }
  }

  /** An id of the flat queue has a level and a place in it. */
  lemma {:induction false} Locate(v: seq<LevelData>, id: OrderId) returns (i: nat, k: nat)
    requires id in Ids(Flat(v))
    ensures i < |v| && k < |v[i].orders| && v[i].orders[k].id == id
  {
    var o :| o in Flat(v) && o.id == id;
    if o in v[0].orders {
      i := 0;
      k :| 0 <= k < |v[0].orders| && v[0].orders[k] == o;
    } else {
      assert o in Flat(v[1..]);
      i, k := Locate(v[1..], id);
      i := i + 1;
    }
  }

  lemma {:induction false} RemoveInside(a: seq<OrderData>, b: seq<OrderData>, c: seq<OrderData>, id: OrderId)
    requires id !in Ids(a) && id in Ids(b)
    ensures Remove(a + b + c, id) == a + Remove(b, id) + c
  {
    if a == [] {
      assert a + b + c == b + c;
      assert a + Remove(b, id) + c == Remove(b, id) + c;
      RemoveFromLeft(b, c, id);
    } else {
      IdsCons(a);
      assert a + b + c == [a[0]] + (a[1..] + b + c);
      RemoveInside(a[1..], b, c, id);
      assert a + Remove(b, id) + c == [a[0]] + (a[1..] + Remove(b, id) + c);
    }
  }

  lemma {:induction false} RemoveFromLeft(b: seq<OrderData>, c: seq<OrderData>, id: OrderId)
    requires id in Ids(b)
    ensures Remove(b + c, id) == Remove(b, id) + c
  {
    IdsCons(b);
    assert (b + c)[1..] == b[1..] + c;
    if b[0].id != id {
      RemoveFromLeft(b[1..], c, id);
    }
  }

  lemma {:induction false} DistinctParts(a: seq<OrderData>, b: seq<OrderData>)
    requires Distinct(a + b)
    ensures Distinct(a) && Distinct(b) && Ids(a) !! Ids(b)
  {
    if a == [] {
      assert a + b == b;
    } else {
      assert (a + b)[1..] == a[1..] + b;
      DistinctParts(a[1..], b);
      IdsCons(a);
      forall o | o in b ensures o.id != a[0].id {
        assert o in (a + b)[1..];
      }
    }
  }

  lemma WithoutAgrees(d: LevelData, side: Side, k: nat)
    requires LevelOk(d, side) && k < |d.orders|
    ensures LevelOk(Without(d, k), side)
    ensures Without(d, k).orders == Remove(d.orders, d.orders[k].id)
  {
    var o := d.orders[k];
    assert o in d.orders;
    RemoveByPlace(d.orders, k);
    RemoveKeeps(d.orders, o.id);
    FindMember(d.orders, o);
    SumRemove(Remaining, d.orders, o.id);
  }

  lemma RemoveInLevel(v: seq<LevelData>, i: nat, k: nat, d: LevelData)
    requires Distinct(Flat(v)) && i < |v| && k < |v[i].orders|
    requires d.orders == Remove(v[i].orders, v[i].orders[k].id)
    ensures Flat(v[i := d]) == Remove(Flat(v), v[i].orders[k].id)
    ensures d.orders == [] ==> Flat(v[..i] + v[i + 1..]) == Flat(v[i := d])
  {
    hide Flat, Remove, Distinct;
    var a, b, c, o := Flat(v[..i]), v[i].orders, Flat(v[i + 1..]), v[i].orders[k];
    FlatSplit(v, i);
    assert a + b + c == a + (b + c);
    DistinctParts(a, b + c);
    assert o in b && o in b + c;
    RemoveInside(a, b, c, o.id);
    var w := v[i := d];
    FlatSplit(w, i);
    assert w[..i] == v[..i] && w[i + 1..] == v[i + 1..];
    FlatConcat(v[..i], v[i + 1..]);
  }

  /** Taking an order out of its level, and an emptied level out of the side,
      is removing it from the flat queue. */
  lemma RemoveAgrees(v: seq<LevelData>, side: Side, i: nat, k: nat)
    requires WellFormed(v, side) && Distinct(Flat(v)) && i < |v| && k < |v[i].orders|
    ensures var w := v[i := Without(v[i], k)];
            WellFormed(w, side) && Flat(w) == Remove(Flat(v), v[i].orders[k].id)
    ensures Without(v[i], k).orders == [] ==>
              var r := v[..i] + v[i + 1..];
              WellFormed(r, side) && Flat(r) == Remove(Flat(v), v[i].orders[k].id) && (NoEmpty(v) ==> NoEmpty(r))
  {
    hide Distinct, Sum, Flat, Remove;
    WithoutAgrees(v[i], side, k);
    RemoveInLevel(v, i, k, Without(v[i], k));
    var r := v[..i] + v[i + 1..];
    assert forall j :: 0 <= j < |r| ==> r[j] == v[if j < i then j else j + 1];
  }

  function Without(d: LevelData, k: nat): LevelData
    requires k < |d.orders|
  {
    LevelData(d.price, d.orders[..k] + d.orders[k + 1..], d.total - Remaining(d.orders[k]))
  }

  lemma {:induction false} RemoveByPlace(q: seq<OrderData>, k: nat)
    requires Distinct(q) && k < |q|
    ensures Remove(q, q[k].id) == q[..k] + q[k + 1..]
  {
    if k > 0 {
      assert q[1..][k - 1] == q[k] && q[k] in q[1..];
      RemoveByPlace(q[1..], k - 1);
      assert q[..k] == [q[0]] + q[1..][..k - 1];
      assert q[k + 1..] == q[1..][k..];
    }
  }

  /** What a change to the first level does to the flat queue. */
  lemma HeadLevel(v: seq<LevelData>, d: LevelData)
    requires v != []
    ensures Flat(v[0 := d]) == d.orders + Flat(v[1..])
    ensures Flat(v) == v[0].orders + Flat(v[1..])
    ensures v[0].orders != [] ==> Flat(v) != [] && Flat(v)[0] == v[0].orders[0]
                                  && Flat(v)[1..] == v[0].orders[1..] + Flat(v[1..])
  {
    assert v[0 := d][1..] == v[1..];
  }

  lemma HeadOrderReplaced(q: seq<OrderData>, d: OrderData)
    requires q != [] && Distinct(q) && d.id == q[0].id
    ensures Distinct([d] + q[1..]) && Ids([d] + q[1..]) == Ids(q)
  {
    IdsCons(q);
    IdsCons([d] + q[1..]);
    assert ([d] + q[1..])[1..] == q[1..];
  }

  /** The side after part of its head order is filled. */
  lemma FilledQueue(v: seq<LevelData>, side: Side, d: OrderData, fill: real)
    requires WellFormed(v, side) && Distinct(Flat(v)) && v != [] && v[0].orders != []
    requires var h := v[0].orders[0];
             d.id == h.id && d.price == h.price && d.side == h.side && Remaining(d) == Remaining(h) - fill
    ensures var w := v[0 := LevelData(v[0].price, [d] + v[0].orders[1..], v[0].total - fill)];
            && Flat(w) == [d] + Flat(v)[1..] && WellFormed(w, side) && Distinct(Flat(w))
            && Ids(Flat(w)) == Ids(Flat(v))
  {
    hide Flat, Distinct, Ids;
    var l := LevelData(v[0].price, [d] + v[0].orders[1..], v[0].total - fill);
    HeadLevel(v, l);
    assert v[0].orders[0] in v[0].orders;
    HeadOrderReplaced(v[0].orders, d);
    HeadOrderReplaced(Flat(v), d);
    assert l.orders[1..] == v[0].orders[1..];
    assert LevelOk(l, side);
    assert Flat(v[0 := l]) == [d] + Flat(v)[1..];
  }

  /** The side after its head order is used up. */
  lemma PoppedQueue(v: seq<LevelData>, side: Side, fill: real)
    requires WellFormed(v, side) && Distinct(Flat(v)) && v != [] && v[0].orders != []
    requires Remaining(v[0].orders[0]) == fill
    ensures var w := v[0 := LevelData(v[0].price, v[0].orders[1..], v[0].total - fill)];
            && Flat(w) == Flat(v)[1..] && WellFormed(w, side) && Distinct(Flat(w))
            && Ids(Flat(w)) == Ids(Flat(v)) - {v[0].orders[0].id}
  {
    var l := LevelData(v[0].price, v[0].orders[1..], v[0].total - fill);
    HeadLevel(v, l);
    assert forall o :: o in l.orders ==> o in v[0].orders;
    assert LevelOk(l, side);
    IdsCons(Flat(v));
  }

  /** What one fill does to the levels it consumes. */
  function LevelsAfterFill(v: seq<LevelData>, fill: real, stamp: nat): seq<LevelData>
    requires v != [] && v[0].orders != []
  {
    var l, h := v[0], v[0].orders[0];
    var filled := h.filledQuantity + fill;
    if filled < h.quantity then
      v[0 := LevelData(l.price, [h.(filledQuantity := filled, status := PARTIALLY_FILLED)] + l.orders[1..],
                       l.total - fill)]
    else
      var w := v[0 := LevelData(l.price, l.orders[1..], l.total - fill)];
      if Hidden(h) > 0.0 then LevelInsert(w, NextSlice(h, stamp)) else w
  }

  lemma FillAgrees(v: seq<LevelData>, side: Side, fill: real, stamp: nat)
    requires WellFormed(v, side) && Distinct(Flat(v)) && v != [] && v[0].orders != []
    requires fill <= Remaining(v[0].orders[0])
    ensures Flat(v) != [] && Flat(v)[0] == v[0].orders[0]
    ensures Flat(LevelsAfterFill(v, fill, stamp)) == AfterFill(Flat(v), fill, stamp)
    ensures var w := LevelsAfterFill(v, fill, stamp);
            |w| == |v| && w[0].price == v[0].price && w[1..] == v[1..]
  {
    var l, h := v[0], v[0].orders[0];
    HeadLevel(v, l);
    assert h in l.orders && h.side == side && h.price == l.price;
    if h.filledQuantity + fill < h.quantity {
      PartAgrees(v, side, fill, stamp);
    } else {
      UsedUpAgrees(v, side, fill, stamp);
    }
  }

  lemma PartAgrees(v: seq<LevelData>, side: Side, fill: real, stamp: nat)
    requires v != [] && v[0].orders != [] && fill < Remaining(v[0].orders[0])
    ensures Flat(v) != [] && Flat(v)[0] == v[0].orders[0]
    ensures Flat(LevelsAfterFill(v, fill, stamp)) == AfterFill(Flat(v), fill, stamp)
    ensures var w := LevelsAfterFill(v, fill, stamp);
            |w| == |v| && w[0].price == v[0].price && w[1..] == v[1..]
  {
    var w := LevelsAfterFill(v, fill, stamp);
    HeadLevel(v, v[0]);
    HeadLevel(v, w[0]);
    assert w[0].orders + Flat(v[1..]) == [w[0].orders[0]] + (v[0].orders[1..] + Flat(v[1..]));
  }

  lemma UsedUpAgrees(v: seq<LevelData>, side: Side, fill: real, stamp: nat)
    requires WellFormed(v, side) && Distinct(Flat(v)) && v != [] && v[0].orders != []
    requires fill == Remaining(v[0].orders[0]) && v[0].orders[0].side == side && v[0].orders[0].price == v[0].price
    ensures Flat(v) != [] && Flat(v)[0] == v[0].orders[0]
    ensures Flat(LevelsAfterFill(v, fill, stamp)) == AfterFill(Flat(v), fill, stamp)
    ensures var w := LevelsAfterFill(v, fill, stamp);
            |w| == |v| && w[0].price == v[0].price && w[1..] == v[1..]
  {
    hide Distinct, Sum, Sorted, Flat, LevelInsert, WellFormed, Ids;
    var l, h := v[0], v[0].orders[0];
    HeadLevel(v, l);
    var w := v[0 := LevelData(l.price, l.orders[1..], l.total - fill)];
    PoppedQueue(v, side, fill);
    if Hidden(h) > 0.0 {
      var s := NextSlice(h, stamp);
      InsertAgrees(w, side, s);
      InsertAtFound(w, side, s, 0);
    }
  }

  lemma FlatStarts(v: seq<LevelData>, side: Side)
    requires WellFormed(v, side) && NoEmpty(v)
    ensures v != [] ==> Flat(v) != [] && Flat(v)[0].price == v[0].price
  {
    if v != [] {
      assert Flat(v)[0] == v[0].orders[0] && v[0].orders[0] in v[0].orders;
    }
  }

  /** The levels are determined by the flat queue: no other well-formed side
      without empty levels reads off the same. */
  lemma {:induction false} LevelsUnique(v: seq<LevelData>, w: seq<LevelData>, side: Side)
    requires WellFormed(v, side) && NoEmpty(v) && WellFormed(w, side) && NoEmpty(w)
    requires Flat(v) == Flat(w)
    ensures v == w
  {
    FlatStarts(v, side);
    FlatStarts(w, side);
    if v != [] {
      TailIsWorse(v, side);
      TailIsWorse(w, side);
      SamePrefix(v, w, side);
      SamePrefix(w, v, side);
      var n := |v[0].orders|;
      assert v[0].orders == Flat(v)[..n] && w[0].orders == Flat(w)[..n];
      assert Flat(v[1..]) == Flat(v)[n..] && Flat(w[1..]) == Flat(w)[n..];
      LevelsUnique(v[1..], w[1..], side);
      assert v == [v[0]] + v[1..] && w == [w[0]] + w[1..];
    }
  }

  lemma SamePrefix(v: seq<LevelData>, w: seq<LevelData>, side: Side)
    requires v != [] && w != [] && WellFormed(v, side) && WellFormed(w, side)
    requires Flat(v) == Flat(w) && v[0].price == w[0].price
    requires forall o :: o in Flat(v[1..]) ==> RankOf(side, v[0].price) < Rank(o)
    ensures |w[0].orders| <= |v[0].orders|
  {
    var n := |v[0].orders|;
    var f := Flat(v);
    assert n < |f| ==> f[n] == Flat(v[1..])[0] && f[n] in Flat(v[1..]);
    forall m | 0 <= m < |w[0].orders| ensures Rank(f[m]) == RankOf(side, v[0].price) {
      assert f[m] == w[0].orders[m] && w[0].orders[m] in w[0].orders;
    }
  }
}
