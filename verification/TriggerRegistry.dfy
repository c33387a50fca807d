/** The trigger registry: pending lists and marks, updated in place. */
module TriggerRegistries {
  import opened Types
  import opened Queues
  import opened Triggers
  import opened BookObjects
  import Levels

  class TriggerRegistry {
    var orders: map<string, seq<Order>>
    /** Lowest price seen, per symbol. */
    var highWaterBuy: map<string, real>
    /** Highest price seen, per symbol. */
    var highWaterSell: map<string, real>

    ghost var pending: map<string, seq<OrderData>>
    ghost var Repr: set<object>

    ghost function State(): Registry
      reads this
    {
      Registry(pending, highWaterBuy, highWaterSell)
    }

    ghost predicate Holds(list: seq<Order>, q: seq<OrderData>)
      reads this, Repr
    {
      |list| == |q| && forall k :: 0 <= k < |list| ==> list[k] in Repr && list[k].Data() == q[k]
    }

    ghost predicate Held()
      reads this, Repr
    {
      this in Repr && orders.Keys == pending.Keys && forall s :: s in orders ==> Holds(orders[s], pending[s])
    }

    ghost predicate Valid()
      reads this, Repr
    {
      Held() && RegistryOk(State())
    }

    constructor ()
      ensures Valid() && fresh(Repr) && State() == EMPTY_REGISTRY
    {
      orders, highWaterBuy, highWaterSell := map[], map[], map[];
      pending, Repr := map[], {this};
    }

    /** The pending orders of a symbol. */
    function Of(symbol: string): seq<Order>
      reads this
    {
      if symbol in orders then orders[symbol] else []
    }

    lemma {:induction false} ListFacts(symbol: string)
      requires Valid()
      ensures Holds(Of(symbol), State().Of(symbol)) && ListOk(State().Of(symbol), symbol)
      ensures forall j, k :: 0 <= j < k < |Of(symbol)| ==> Of(symbol)[j] != Of(symbol)[k]
      ensures forall s, k :: s in orders && s != symbol && 0 <= k < |orders[s]| ==> orders[s][k].symbol != symbol
    {
      assert Keeps(State(), symbol);
      var q := State().Of(symbol);
      forall j, k | 0 <= j < k < |Of(symbol)| ensures Of(symbol)[j] != Of(symbol)[k] {
        DistinctPlaces(q, j, k);
        assert Of(symbol)[j].Data() == q[j] && Of(symbol)[k].Data() == q[k];
      }
      forall s, k | s in orders && s != symbol && 0 <= k < |orders[s]| ensures orders[s][k].symbol != symbol {
        assert Keeps(State(), s) && Holds(orders[s], pending[s]);
        assert orders[s][k].Data() == pending[s][k] && pending[s][k] in pending[s];
      }
    }

    /** Take an order in; only conditional orders are accepted. */
    method Register(order: Order) returns (accepted: bool)
      requires Valid() && order !in Repr && !IsPending(State(), order.id)
      modifies this, order`status
      ensures accepted <==> IsConditional(old(order.Data()))
      ensures !accepted ==> Valid() && State() == old(State()) && Repr == old(Repr) && order.Data() == old(order.Data())
      ensures accepted ==> Valid() && Repr == old(Repr) + {order}
                           && State() == Triggers.Register(old(State()), old(order.Data()))
                           && order.Data() == old(order.Data()).(status := PENDING)
    {
      if order.kind != STOP_LOSS && order.kind != TRAILING_STOP {
        return false;
      }
      RegisterKeeps(State(), order.Data());
      order.status := PENDING;
      Append(order);
      return true;
    }

    method Append(order: Order)
      requires Held() && order !in Repr
      modifies `orders, `pending, `Repr
      ensures Held() && Repr == old(Repr) + {order}
      ensures pending == old(pending[order.symbol := State().Of(order.symbol) + [order.Data()]])
    {
      var list := Of(order.symbol);
      ghost var q := State().Of(order.symbol);
      assert Holds(list, q);
      orders := orders[order.symbol := list + [order]];
      pending := pending[order.symbol := q + [order.Data()]];
      Repr := Repr + {order};
      forall s | s in orders ensures Holds(orders[s], pending[s]) {
        if s != order.symbol {
          assert old(Holds(orders[s], pending[s]));
        }
      }
    }

    /** Cancel a pending order of any symbol. */
    method Cancel(orderId: OrderId) returns (cancelled: Order?)
      requires Valid()
      modifies Repr
      ensures Valid() && Repr == old(Repr)
      ensures State() == CancelPending(old(State()), orderId).0
      ensures cancelled == null <==> CancelPending(old(State()), orderId).1 == None
      ensures cancelled != null
              ==> cancelled in Repr && Some(cancelled.Data()) == CancelPending(old(State()), orderId).1
    {
      var place := FindPlace(orderId);
      if place.None? { return null; }
      var (symbol, idx) := place.value;
      ListFacts(symbol);
      CancelPendingExact(State(), orderId, symbol);
      PendingPlace(State().Of(symbol), orderId, idx);
      cancelled := orders[symbol][idx];
      assert cancelled.Data() == pending[symbol][idx];
      assert forall s, k ::
             s in orders && s != symbol && 0 <= k < |orders[s]| ==> orders[s][k].symbol != cancelled.symbol;
      RemoveAt(symbol, idx);
    }

    /** The list an id is pending in, and its place there. */
    method FindPlace(orderId: OrderId) returns (place: Option<(string, nat)>)
      requires Valid()
      ensures place.None? <==> !IsPending(State(), orderId)
      ensures place.Some? ==> var (symbol, idx) := place.value;
                && symbol in orders && idx < |orders[symbol]| == |pending[symbol]|
                && pending[symbol][idx].id == orderId && orderId in Ids(State().Of(symbol))
    {
      var symbols := orders.Keys;
      while symbols != {}
        invariant forall s :: s in orders && s !in symbols ==> orderId !in Ids(State().Of(s))
        invariant symbols <= orders.Keys
        decreases symbols
      {
        var symbol :| symbol in symbols;
        var idx := FindIn(symbol, orderId);
        if idx != -1 {
          assert orderId in Ids(State().Of(symbol));
          return Some((symbol, idx));
        }
        symbols := symbols - {symbol};
      }
      forall s ensures orderId !in Ids(State().Of(s)) {
      }
      return None;
    }

    lemma {:induction false} PendingPlace(q: seq<OrderData>, id: OrderId, k: nat)
      requires Distinct(q) && k < |q| && q[k].id == id
      ensures id in Ids(q) && Find(q, id) == q[k] && Remove(q, id) == q[..k] + q[k + 1..]
    {
      FindMember(q, q[k]);
      Levels.RemoveByPlace(q, k);
    }

    method FindIn(symbol: string, orderId: OrderId) returns (idx: int)
      requires Valid() && symbol in orders
      ensures -1 <= idx < |orders[symbol]| == |pending[symbol]|
      ensures idx >= 0 ==> pending[symbol][idx].id == orderId && orderId in Ids(pending[symbol])
      ensures idx == -1 ==> orderId !in Ids(pending[symbol])
    {
      var list := orders[symbol];
      ListFacts(symbol);
      for k := 0 to |list|
        invariant forall j :: 0 <= j < k ==> pending[symbol][j].id != orderId
      {
        assert list[k].Data() == pending[symbol][k];
        if list[k].id == orderId {
          assert pending[symbol][k] in pending[symbol];
          return k;
        }
      }
      return -1;
    }

    method RemoveAt(symbol: string, idx: nat)
      requires Held() && symbol in orders && idx < |orders[symbol]|
      requires forall k :: 0 <= k < |orders[symbol]| && k != idx ==> orders[symbol][k] != orders[symbol][idx]
      requires forall s, k :: s in orders && s != symbol && 0 <= k < |orders[s]| ==> orders[s][k] != orders[symbol][idx]
      modifies Repr
      ensures Held() && Repr == old(Repr) && highWaterBuy == old(highWaterBuy) && highWaterSell == old(highWaterSell)
      ensures pending == old(pending[symbol := pending[symbol][..idx] + pending[symbol][idx + 1..]])
      ensures old(orders[symbol][idx]).Data() == old(pending[symbol][idx]).(status := CANCELLED)
    {
      var list := orders[symbol];
      assert Holds(list, pending[symbol]);
      var order := list[idx];
      ghost var q := pending[symbol];
      orders := orders[symbol := list[..idx] + list[idx + 1..]];
      pending := pending[symbol := q[..idx] + q[idx + 1..]];
      order.status := CANCELLED;
      forall s | s in orders ensures Holds(orders[s], pending[s]) {
        if s != symbol {
          assert old(Holds(orders[s], pending[s]));
        } else {
          assert forall k :: 0 <= k < |orders[s]| ==> orders[s][k] == list[if k < idx then k else k + 1];
        }
      }
    }

    /** A symbol's list shares no object with itself or another list. */
    static ghost predicate Separate(lists: map<string, seq<Order>>, symbol: string) {
      symbol in lists ==>
        && (forall j, k :: 0 <= j < k < |lists[symbol]| ==> lists[symbol][j] != lists[symbol][k])
        && forall s, k :: s in lists && s != symbol && 0 <= k < |lists[s]| ==> lists[s][k] !in lists[symbol]
    }

    lemma {:induction false} ListsSeparate(symbol: string)
      requires Valid()
      ensures Separate(orders, symbol)
    {
      ListFacts(symbol);
      forall o | o in Of(symbol) ensures o.symbol == symbol {
        var k :| 0 <= k < |Of(symbol)| && Of(symbol)[k] == o;
        assert o.Data() == State().Of(symbol)[k] && State().Of(symbol)[k] in State().Of(symbol);
      }
    }

    method UpdateHighWaterMarks(symbol: string, price: real)
      modifies `highWaterBuy, `highWaterSell
      ensures highWaterSell == old(highWaterSell[symbol := Raised(Mark(highWaterSell, symbol), price)])
      ensures highWaterBuy == old(highWaterBuy[symbol := Lowered(Mark(highWaterBuy, symbol), price)])
    {
      if symbol !in highWaterSell || price > highWaterSell[symbol] {
        highWaterSell := highWaterSell[symbol := price];
      }
      if symbol !in highWaterBuy || price < highWaterBuy[symbol] {
        highWaterBuy := highWaterBuy[symbol := price];
      }
    }

    /** Move every trailing stop of the symbol after its mark. */
    method UpdateTrailingStops(symbol: string)
      requires Held() && Separate(orders, symbol) && symbol in orders && symbol in highWaterBuy
               && symbol in highWaterSell
      modifies orders[symbol], `pending
      ensures Held()
      ensures pending == old(pending[symbol := TrailAll(pending[symbol], highWaterBuy[symbol], highWaterSell[symbol])])
    {
      hide Held, TrailAll, Trail, Separate;
      ListHeld(symbol);
      ghost var p, q, low, high := pending, pending[symbol], highWaterBuy[symbol], highWaterSell[symbol];
      ghost var t := TrailAll(q, low, high);
      TrailKeeps(q, low, high);
      assert t[..0] + q[0..] == q && p[symbol := q] == p;
      for i := 0 to |orders[symbol]|
        invariant Held()
        invariant pending == p[symbol := t[..i] + q[i..]]
      {
        TrailOne(symbol, i);
        OneMore(t, q, i);
        Overwritten(p, symbol, t[..i] + q[i..], t[..i + 1] + q[i + 1..]);
      }
      assert t[..|q|] + q[|q|..] == t;
    }

    lemma {:induction false} ListHeld(symbol: string)
      requires Held() && symbol in orders
      ensures symbol in pending && |orders[symbol]| == |pending[symbol]|
    {
      assert Holds(orders[symbol], pending[symbol]);
    }

    static lemma OneMore(t: seq<OrderData>, q: seq<OrderData>, i: nat)
      requires |t| == |q| && i < |q|
      ensures (t[..i] + q[i..])[i := t[i]] == t[..i + 1] + q[i + 1..]
      ensures (t[..i] + q[i..])[i] == q[i]
    {
    }

    static lemma Overwritten(p: map<string, seq<OrderData>>, s: string, a: seq<OrderData>, b: seq<OrderData>)
      ensures p[s := a][s := b] == p[s := b]
    {
    }

    method TrailOne(symbol: string, i: nat)
      requires Held() && Separate(orders, symbol) && symbol in orders && symbol in highWaterBuy
               && symbol in highWaterSell
      requires i < |orders[symbol]| && i < |pending[symbol]|
      modifies orders[symbol][i], `pending
      ensures Held()
      ensures pending == old(pending[symbol := pending[symbol][i :=
                               Trail(pending[symbol][i], highWaterBuy[symbol], highWaterSell[symbol])]])
    {
      var order := orders[symbol][i];
      assert Holds(orders[symbol], pending[symbol]);
      ghost var d := Trail(pending[symbol][i], highWaterBuy[symbol], highWaterSell[symbol]);
      if order.kind == TRAILING_STOP && order.trailingDelta.Some? && order.stopPrice.Some? {
        if order.side == SELL {
          var candidateStop := highWaterSell[symbol] - order.trailingDelta.value;
          if candidateStop > order.stopPrice.value { order.stopPrice := Some(candidateStop); }
        } else {
          var candidateStop := highWaterBuy[symbol] + order.trailingDelta.value;
          if candidateStop < order.stopPrice.value { order.stopPrice := Some(candidateStop); }
        }
      }
      pending := pending[symbol := pending[symbol][i := d]];
      HeldAfter((symbol, i, d));
    }

    /** Held after a change to one order of a symbol and its view. */
    twostate lemma {:induction false} HeldAfter(at: (string, nat, OrderData))
      requires var (symbol, i, d) := at;
               && old(Held()) && Separate(orders, symbol) && symbol in orders && orders == old(orders)
               && Repr == old(Repr)
               && i < |orders[symbol]| && symbol in old(pending) && i < |old(pending)[symbol]|
               && orders[symbol][i].Data() == d
               && pending == old(pending)[symbol := old(pending)[symbol][i := d]]
               && forall o: Order :: o in old(Repr) && o != orders[symbol][i] ==> unchanged(o)
      ensures Held()
    {
      var (symbol, i, d) := at;
      forall s | s in orders ensures Holds(orders[s], pending[s]) {
        assert old(Holds(orders[s], pending[s]));
        forall k | 0 <= k < |orders[s]| ensures orders[s][k] in Repr && orders[s][k].Data() == pending[s][k] {
          assert (s, k) != (symbol, i) ==> orders[s][k] != orders[symbol][i];
        }
      }
    }

    method Promote(symbol: string, i: nat)
      requires Held() && Separate(orders, symbol) && symbol in orders && i < |orders[symbol]| && i < |pending[symbol]|
      modifies orders[symbol][i], `pending
      ensures Held()
      ensures pending == old(pending[symbol := pending[symbol][i := Promoted(pending[symbol][i])]])
      ensures orders[symbol][i].Data() == Promoted(old(pending[symbol][i]))
    {
      var order := orders[symbol][i];
      assert Holds(orders[symbol], pending[symbol]);
      order.kind := MARKET;
      order.status := OPEN;
      pending := pending[symbol := pending[symbol][i := order.Data()]];
      HeldAfter((symbol, i, order.Data()));
    }

    method ShouldTriggerNow(order: Order, lastTradePrice: real) returns (fires: bool)
      ensures fires <==> ShouldTrigger(order.Data(), lastTradePrice)
    {
      if order.stopPrice.None? { return false; }
      if order.side == SELL {
        return lastTradePrice <= order.stopPrice.value;
      } else {
        return lastTradePrice >= order.stopPrice.value;
      }
    }

    /** Split a symbol's list into activated orders and those that stay, in order. */
    method Evaluate(symbol: string, lastTradePrice: real) returns (activated: seq<Order>)
      requires Held() && Separate(orders, symbol) && symbol in orders
      modifies Repr
      ensures Held() && Repr <= old(Repr) && highWaterBuy == old(highWaterBuy) && highWaterSell == old(highWaterSell)
      ensures pending == old(pending[symbol := Waiting(pending[symbol], lastTradePrice)])
      ensures HaveData(activated, Fired(old(pending[symbol]), lastTradePrice))
      ensures forall o :: o in activated ==> o in old(Repr) && o !in Repr
      ensures forall j, k :: 0 <= j < k < |activated| ==> activated[j] != activated[k]
    {
      hide Fired, Waiting, Separate;
      ghost var p, q := pending, pending[symbol];
      assert Holds(orders[symbol], q);
      var remaining;
      activated, remaining := Divide(symbol, lastTradePrice);
      assert pending[symbol := Waiting(q, lastTradePrice)] == p[symbol := Waiting(q, lastTradePrice)];
      Replace(symbol, remaining, activated, Waiting(q, lastTradePrice));
    }

    method Decide(symbol: string, i: nat, lastTradePrice: real) returns (fires: bool)
      requires Held() && Separate(orders, symbol) && symbol in orders && i < |orders[symbol]| == |pending[symbol]|
      modifies orders[symbol][i], `pending
      ensures Held() && OnlyListChanged(old(pending), symbol) && |pending[symbol]| == |old(pending)[symbol]|
      ensures pending[symbol][i + 1..] == old(pending)[symbol][i + 1..]
      ensures var d := old(pending)[symbol][i];
              && (fires <==> ShouldTrigger(d, lastTradePrice))
              && orders[symbol][i].Data() == if fires then Promoted(d) else d
    {
      assert Holds(orders[symbol], pending[symbol]);
      fires := ShouldTriggerNow(orders[symbol][i], lastTradePrice);
      if fires {
        Promote(symbol, i);
      }
    }

    static lemma SplitNothing(price: real)
      ensures Split([], [], price, [], [])
    {
    }

    method Divide(symbol: string, lastTradePrice: real) returns (activated: seq<Order>, remaining: seq<Order>)
      requires Held() && Separate(orders, symbol) && symbol in orders && |orders[symbol]| == |pending[symbol]|
      modifies orders[symbol], `pending
      ensures Held() && OnlyListChanged(old(pending), symbol)
      ensures Split(orders[symbol], old(pending[symbol]), lastTradePrice, activated, remaining)
    {
      hide Split;
      var list := orders[symbol];
      ghost var p, q := pending, pending[symbol];
      activated, remaining := [], [];
      assert Split(list[..0], q[..0], lastTradePrice, [], []) by { SplitNothing(lastTradePrice); }
      for i := 0 to |list|
        invariant Held() && OnlyListChanged(p, symbol)
        invariant |pending[symbol]| == |q| == |list| && pending[symbol][i..] == q[i..]
        invariant Split(list[..i], q[..i], lastTradePrice, activated, remaining)
      {
        assert pending[symbol][i..][0] == q[i];
        activated, remaining := DivideOne(symbol, i, lastTradePrice, activated, remaining, q);
        assert pending[symbol][i + 1..] == q[i + 1..];
      }
      assert q[..|q|] == q && list[..|list|] == list;
    }

    method DivideOne(symbol: string, i: nat, lastTradePrice: real, activated: seq<Order>, remaining: seq<Order>,
                     ghost q: seq<OrderData>)
      returns (activated': seq<Order>, remaining': seq<Order>)
      requires Held() && Separate(orders, symbol) && symbol in orders
      requires i < |orders[symbol]| == |pending[symbol]| == |q| && pending[symbol][i] == q[i]
      requires Split(orders[symbol][..i], q[..i], lastTradePrice, activated, remaining)
      modifies orders[symbol][i], `pending
      ensures Held() && OnlyListChanged(old(pending), symbol) && |pending[symbol]| == |old(pending)[symbol]|
      ensures pending[symbol][i + 1..] == old(pending)[symbol][i + 1..]
      ensures Split(orders[symbol][..i + 1], q[..i + 1], lastTradePrice, activated', remaining')
    {
      var list := orders[symbol];
      assert list[i] !in list[..i];
      var fires := Decide(symbol, i, lastTradePrice);
      SplitMore(list, q, i, lastTradePrice, activated, remaining);
      if fires {
        activated', remaining' := activated + [list[i]], remaining;
      } else {
        activated', remaining' := activated, remaining + [list[i]];
      }
    }

    ghost predicate OnlyListChanged(p: map<string, seq<OrderData>>, symbol: string)
      reads this
    {
      pending.Keys == p.Keys && forall s :: s in p && s != symbol ==> pending[s] == p[s]
    }

    /** A list read so far, split into activated and remaining orders. */
    static ghost predicate Split(done: seq<Order>, q: seq<OrderData>, price: real,
                                 activated: seq<Order>, remaining: seq<Order>)
      reads activated, remaining
    {
      && HaveData(activated, Fired(q, price)) && HaveData(remaining, Waiting(q, price))
      && (forall o :: o in activated ==> o in done) && (forall o :: o in remaining ==> o in done && o !in activated)
      && forall j, k :: 0 <= j < k < |activated| ==> activated[j] != activated[k]
    }

    static lemma {:induction false} SplitMore(list: seq<Order>, q: seq<OrderData>, i: nat, price: real,
                                              activated: seq<Order>, remaining: seq<Order>)
      requires i < |list| == |q| && Split(list[..i], q[..i], price, activated, remaining)
      requires forall j, k :: 0 <= j < k < |list| ==> list[j] != list[k]
      requires list[i].Data() == if ShouldTrigger(q[i], price) then Promoted(q[i]) else q[i]
      ensures if ShouldTrigger(q[i], price)
              then Split(list[..i + 1], q[..i + 1], price, activated + [list[i]], remaining)
              else Split(list[..i + 1], q[..i + 1], price, activated, remaining + [list[i]])
    {
      assert q[..i + 1] == q[..i] + [q[i]] && list[..i + 1] == list[..i] + [list[i]];
      FiringAppends(q[..i], q[i], price);
      assert list[i] !in list[..i];
    }

    static ghost predicate HaveData(list: seq<Order>, q: seq<OrderData>)
      reads list
    {
      |list| == |q| && forall k :: 0 <= k < |list| ==> list[k].Data() == q[k]
    }

    method Replace(symbol: string, remaining: seq<Order>, activated: seq<Order>, ghost q: seq<OrderData>)
      requires Held() && Separate(orders, symbol) && symbol in orders && HaveData(remaining, q)
      requires forall o :: o in activated || o in remaining ==> o in orders[symbol]
      requires forall o :: o in remaining ==> o !in activated
      modifies `orders, `pending, `Repr
      ensures Held() && Repr <= old(Repr) && pending == old(pending)[symbol := q]
      ensures forall o :: o in activated ==> o !in Repr
    {
      ghost var before := orders;
      assert Holds(orders[symbol], pending[symbol]);
      orders := orders[symbol := remaining];
      pending := pending[symbol := q];
      Repr := Repr - set o | o in activated;
      forall s | s in orders ensures Holds(orders[s], pending[s]) {
        if s != symbol {
          assert old(Holds(orders[s], pending[s]));
          assert forall k :: 0 <= k < |orders[s]| ==> before[s][k] !in before[symbol];
        } else {
          forall k | 0 <= k < |remaining| ensures remaining[k] in Repr {
            assert remaining[k] in before[symbol];
            var j :| 0 <= j < |before[symbol]| && before[symbol][j] == remaining[k];
          }
        }
      }
    }

    /** One trade tick: answers with the orders it activates, promoted to MARKET. */
    method OnTradeTick(symbol: string, lastTradePrice: real) returns (activated: seq<Order>)
      requires Valid()
      modifies Repr
      ensures Valid() && Repr <= old(Repr)
      ensures State() == Tick(old(State()), symbol, lastTradePrice).0
      ensures HaveData(activated, Tick(old(State()), symbol, lastTradePrice).1)
      ensures forall o :: o in activated ==> o in old(Repr) && o !in Repr
      ensures forall j, k :: 0 <= j < k < |activated| ==> activated[j] != activated[k]
    {
      hide Fired, Waiting, TrailAll;
      var list := Of(symbol);
      ListFacts(symbol);
      if list == [] {
        return [];
      }
      ListsSeparate(symbol);
      ghost var r := State();
      TickKeeps(r, symbol, lastTradePrice);
      UpdateHighWaterMarks(symbol, lastTradePrice);
      UpdateTrailingStops(symbol);
      ghost var trailed := pending[symbol];
      activated := Evaluate(symbol, lastTradePrice);
      Overwritten(r.pending, symbol, trailed, Waiting(trailed, lastTradePrice));
      assert State() == Tick(r, symbol, lastTradePrice).0;
    }
  }
}
