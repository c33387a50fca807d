/** Conditional orders: what registering, cancelling and a trade tick do to the
    pending lists, the high-water marks and the trailing stops. */
module Triggers {
  import opened Types
  import opened Queues

  /** Pending orders and marks per symbol. `high` is the highest price seen, for
      SELL trailing stops; `low` the lowest, for BUY trailing stops. */
  datatype Registry = Registry(pending: map<string, seq<OrderData>>, low: map<string, real>, high: map<string, real>) {
    function Of(symbol: string): seq<OrderData> {
      if symbol in pending then pending[symbol] else []
    }
  }

  const EMPTY_REGISTRY := Registry(map[], map[], map[])

  predicate IsConditional(o: OrderData) {
    o.kind in {STOP_LOSS, TRAILING_STOP}
  }

  ghost predicate ListOk(q: seq<OrderData>, symbol: string) {
    && Distinct(q)
    && forall o :: o in q ==> o.symbol == symbol && IsConditional(o) && o.status == PENDING
  }

  ghost predicate Keeps(r: Registry, symbol: string) {
    ListOk(r.Of(symbol), symbol)
  }

  /** Every list holds pending conditional orders of its own symbol, and no id
      is pending twice. */
  ghost predicate RegistryOk(r: Registry) {
    && (forall s :: Keeps(r, s))
    && forall s, t, id :: s != t && id in Ids(r.Of(s)) ==> id !in Ids(r.Of(t))
  }

  ghost predicate IsPending(r: Registry, id: OrderId) {
    exists s :: id in Ids(r.Of(s))
  }

  // ---------- operations ----------

  function Register(r: Registry, o: OrderData): Registry {
    r.(pending := r.pending[o.symbol := r.Of(o.symbol) + [o.(status := PENDING)]])
  }

  /** Cancelling looks through the lists of all symbols. */
  ghost function CancelPending(r: Registry, id: OrderId): (Registry, Option<OrderData>) {
    if IsPending(r, id) then
      var s :| id in Ids(r.Of(s));
      (r.(pending := r.pending[s := Remove(r.Of(s), id)]), Some(Find(r.Of(s), id).(status := CANCELLED)))
    else (r, None)
  }

  function Raised(mark: Option<real>, price: real): real {
    if mark.None? || price > mark.value then price else mark.value
  }

  function Lowered(mark: Option<real>, price: real): real {
    if mark.None? || price < mark.value then price else mark.value
  }

  function Mark(marks: map<string, real>, symbol: string): Option<real> {
    if symbol in marks then Some(marks[symbol]) else None
  }

  /** A trailing stop follows its mark at the order's distance, in one direction only. */
  function Trail(o: OrderData, low: real, high: real): OrderData {
    if o.kind != TRAILING_STOP || o.trailingDelta.None? || o.stopPrice.None? then o
    else if o.side == SELL then
      if high - o.trailingDelta.value > o.stopPrice.value then o.(stopPrice := Some(high - o.trailingDelta.value))
          else o
    else
      if low + o.trailingDelta.value < o.stopPrice.value then o.(stopPrice := Some(low + o.trailingDelta.value)) else o
  }

  function TrailAll(q: seq<OrderData>, low: real, high: real): seq<OrderData> {
    if q == [] then [] else [Trail(q[0], low, high)] + TrailAll(q[1..], low, high)
  }

  /** A SELL stop fires at or below its stop price, a BUY stop at or above. */
  predicate ShouldTrigger(o: OrderData, price: real) {
    o.stopPrice.Some? && if o.side == SELL then price <= o.stopPrice.value else price >= o.stopPrice.value
  }

  function Promoted(o: OrderData): OrderData {
    o.(kind := MARKET, status := OPEN)
  }

  function Fired(q: seq<OrderData>, price: real): seq<OrderData> {
    if q == [] then []
    else (if ShouldTrigger(q[0], price) then [Promoted(q[0])] else []) + Fired(q[1..], price)
  }

  function Waiting(q: seq<OrderData>, price: real): seq<OrderData> {
    if q == [] then []
    else (if ShouldTrigger(q[0], price) then [] else [q[0]]) + Waiting(q[1..], price)
  }

  /** One trade tick: move the marks, then the trailing stops, then fire. The
      marks move only while the symbol has pending orders. */
  function Tick(r: Registry, symbol: string, price: real): (Registry, seq<OrderData>) {
    if r.Of(symbol) == [] then (r, [])
    else
      var high, low := Raised(Mark(r.high, symbol), price), Lowered(Mark(r.low, symbol), price);
      var trailed := TrailAll(r.Of(symbol), low, high);
      (Registry(r.pending[symbol := Waiting(trailed, price)], r.low[symbol := low], r.high[symbol := high]),
       Fired(trailed, price))
  }

  // ---------- lists ----------

  lemma {:induction false} TrailKeeps(q: seq<OrderData>, low: real, high: real)
    ensures |TrailAll(q, low, high)| == |q| && Ids(TrailAll(q, low, high)) == Ids(q)
    ensures forall k :: 0 <= k < |q| ==> TrailAll(q, low, high)[k] == Trail(q[k], low, high)
    ensures Distinct(q) ==> Distinct(TrailAll(q, low, high))
    ensures forall o :: o in TrailAll(q, low, high) ==> exists p :: p in q && o == Trail(p, low, high)
  {
    if q != [] {
      TrailKeeps(q[1..], low, high);
      IdsCons(q);
      IdsCons(TrailAll(q, low, high));
      assert TrailAll(q, low, high)[1..] == TrailAll(q[1..], low, high);
    }
  }

  lemma {:induction false} FiringMembers(q: seq<OrderData>, price: real)
    ensures forall o :: o in Waiting(q, price) <==> o in q && !ShouldTrigger(o, price)
    ensures forall o :: o in q && ShouldTrigger(o, price) ==> Promoted(o) in Fired(q, price)
    ensures forall o :: o in Fired(q, price) ==> exists p :: p in q && ShouldTrigger(p, price) && o == Promoted(p)
  {
    if q != [] {
      FiringMembers(q[1..], price);
      assert q == [q[0]] + q[1..];
    }
  }

  lemma FiringIds(q: seq<OrderData>, price: real)
    ensures Ids(Fired(q, price)) + Ids(Waiting(q, price)) == Ids(q)
  {
    FiringMembers(q, price);
    forall id | id in Ids(q) ensures id in Ids(Fired(q, price)) + Ids(Waiting(q, price)) {
      var o :| o in q && o.id == id;
      assert ShouldTrigger(o, price) ==> Promoted(o) in Fired(q, price);
    }
  }

  lemma {:induction false} FiringSplits(q: seq<OrderData>, price: real)
    requires Distinct(q)
    ensures Distinct(Fired(q, price)) && Distinct(Waiting(q, price))
    ensures Ids(Fired(q, price)) !! Ids(Waiting(q, price))
  {
    if q != [] {
      FiringSplits(q[1..], price);
      FiringIds(q[1..], price);
      var f, w := Fired(q, price), Waiting(q, price);
      if ShouldTrigger(q[0], price) {
        assert f[1..] == Fired(q[1..], price) && w == Waiting(q[1..], price);
        IdsCons(f);
      } else {
        assert w[1..] == Waiting(q[1..], price) && f == Fired(q[1..], price);
        IdsCons(w);
      }
    }
  }

  lemma {:induction false} FiringAppends(q: seq<OrderData>, o: OrderData, price: real)
    ensures Fired(q + [o], price) == Fired(q, price) + (if ShouldTrigger(o, price) then [Promoted(o)] else [])
    ensures Waiting(q + [o], price) == Waiting(q, price) + (if ShouldTrigger(o, price) then [] else [o])
  {
    if q != [] {
      assert (q + [o])[1..] == q[1..] + [o];
      FiringAppends(q[1..], o, price);
    }
  }

  // ---------- what every operation keeps ----------

  lemma Replaced(r: Registry, symbol: string, q: seq<OrderData>, low: map<string, real>, high: map<string, real>)
    requires RegistryOk(r) && ListOk(q, symbol)
    requires forall id, s :: id in Ids(q) && s != symbol ==> id !in Ids(r.Of(s))
    ensures RegistryOk(Registry(r.pending[symbol := q], low, high))
    ensures forall s :: Registry(r.pending[symbol := q], low, high).Of(s) == if s == symbol then q else r.Of(s)
  {
    var r' := Registry(r.pending[symbol := q], low, high);
    forall s ensures r'.Of(s) == if s == symbol then q else r.Of(s) {
      assert s != symbol ==> (s in r'.pending <==> s in r.pending);
    }
    forall s ensures Keeps(r', s) {
      assert Keeps(r, s);
    }
  }

  lemma {:induction false} AppendIds(q: seq<OrderData>, o: OrderData)
    ensures Ids(q + [o]) == Ids(q) + {o.id}
    ensures Distinct(q) && o.id !in Ids(q) ==> Distinct(q + [o])
  {
    if q != [] {
      AppendIds(q[1..], o);
      IdsCons(q);
      IdsCons(q + [o]);
      assert (q + [o])[1..] == q[1..] + [o];
    }
  }

  lemma RegisterKeeps(r: Registry, o: OrderData)
    requires RegistryOk(r) && IsConditional(o) && !IsPending(r, o.id)
    ensures RegistryOk(Register(r, o))
    ensures forall s :: Register(r, o).Of(s) == if s == o.symbol then r.Of(s) + [o.(status := PENDING)] else r.Of(s)
  {
    var p := o.(status := PENDING);
    assert Keeps(r, o.symbol) && p.id !in Ids(r.Of(o.symbol));
    AppendIds(r.Of(o.symbol), p);
    Replaced(r, o.symbol, r.Of(o.symbol) + [p], r.low, r.high);
  }

  /** Cancelling takes out exactly the pending order of that id, whatever symbol it has. */
  lemma CancelPendingExact(r: Registry, id: OrderId, s: string)
    requires RegistryOk(r) && id in Ids(r.Of(s))
    ensures CancelPending(r, id) == (r.(pending := r.pending[s := Remove(r.Of(s), id)]),
                                     Some(Find(r.Of(s), id).(status := CANCELLED)))
    ensures RegistryOk(CancelPending(r, id).0) && !IsPending(CancelPending(r, id).0, id)
    ensures forall t :: CancelPending(r, id).0.Of(t) == if t == s then Remove(r.Of(s), id) else r.Of(t)
  {
    assert IsPending(r, id);
    var q := Remove(r.Of(s), id);
    assert Keeps(r, s);
    RemoveKeeps(r.Of(s), id);
    assert forall x :: x in Ids(q) ==> x in Ids(r.Of(s));
    Replaced(r, s, q, r.low, r.high);
    var r' := Registry(r.pending[s := q], r.low, r.high);
    assert CancelPending(r, id).0 == r';
    assert id !in Ids(r'.Of(s)) by {
      assert r'.Of(s) == q && Ids(q) == Ids(r.Of(s)) - {id};
    }
    forall t | t != s ensures id !in Ids(r'.Of(t)) {
      assert r'.Of(t) == r.Of(t);
    }
  }

  lemma TickList(q: seq<OrderData>, symbol: string, low: real, high: real, price: real)
    requires ListOk(q, symbol)
    ensures var trailed := TrailAll(q, low, high);
            && ListOk(Waiting(trailed, price), symbol) && Distinct(Fired(trailed, price))
            && Ids(Fired(trailed, price)) + Ids(Waiting(trailed, price)) == Ids(q)
            && Ids(Fired(trailed, price)) !! Ids(Waiting(trailed, price))
  {
    hide Distinct, Fired, Waiting, TrailAll, ShouldTrigger;
    var trailed := TrailAll(q, low, high);
    TrailKeeps(q, low, high);
    FiringSplits(trailed, price);
    FiringIds(trailed, price);
    FiringMembers(trailed, price);
  }

  lemma TickKeeps(r: Registry, symbol: string, price: real)
    requires RegistryOk(r)
    ensures RegistryOk(Tick(r, symbol, price).0)
    ensures forall s :: s != symbol ==> Tick(r, symbol, price).0.Of(s) == r.Of(s)
    ensures Ids(Tick(r, symbol, price).1) + Ids(Tick(r, symbol, price).0.Of(symbol)) == Ids(r.Of(symbol))
    ensures Ids(Tick(r, symbol, price).1) !! Ids(Tick(r, symbol, price).0.Of(symbol))
    ensures Distinct(Tick(r, symbol, price).1)
  {
    var q := r.Of(symbol);
    assert Keeps(r, symbol);
    if q != [] {
      var high, low := Raised(Mark(r.high, symbol), price), Lowered(Mark(r.low, symbol), price);
      TickList(q, symbol, low, high, price);
      var w := Waiting(TrailAll(q, low, high), price);
      assert forall id :: id in Ids(w) ==> id in Ids(q);
      Replaced(r, symbol, w, r.low[symbol := low], r.high[symbol := high]);
    }
  }

  /** Right after a tick no pending order of the symbol satisfies its trigger condition. */
  lemma NothingTriggeredAfterTick(r: Registry, symbol: string, price: real, o: OrderData)
    requires o in Tick(r, symbol, price).0.Of(symbol)
    ensures !ShouldTrigger(o, price)
  {
    var high, low := Raised(Mark(r.high, symbol), price), Lowered(Mark(r.low, symbol), price);
    FiringMembers(TrailAll(r.Of(symbol), low, high), price);
  }

  // ---------- runs ----------

  datatype Event = Registering(order: OrderData) | Cancelling(id: OrderId) | Ticking(symbol: string, price: real)

  /** One event, with the orders it activates. */
  ghost function Apply(r: Registry, e: Event): (Registry, seq<OrderData>) {
    match e
    case Registering(o) => (Register(r, o), [])
    case Cancelling(id) => (CancelPending(r, id).0, [])
    case Ticking(s, p) => Tick(r, s, p)
  }

  ghost function RunAll(r: Registry, events: seq<Event>): (Registry, seq<OrderData>) {
    if events == [] then (r, [])
    else
      var n := |events| - 1;
      var (r1, fired1) := RunAll(r, events[..n]);
      var (r2, fired2) := Apply(r1, events[n]);
      (r2, fired1 + fired2)
  }

  /** Registrations are of conditional orders whose ids appear nowhere before. */
  ghost predicate FreshRegistrations(r: Registry, events: seq<Event>) {
    forall i :: 0 <= i < |events| && events[i].Registering? ==>
      && IsConditional(events[i].order) && !IsPending(r, events[i].order.id)
      && forall j :: 0 <= j < i && events[j].Registering? ==> events[j].order.id != events[i].order.id
  }

  lemma PrefixFresh(r: Registry, events: seq<Event>, n: nat)
    requires FreshRegistrations(r, events) && n <= |events|
    ensures FreshRegistrations(r, events[..n])
  {
  }

  ghost function RegisteredIds(events: seq<Event>): set<OrderId> {
    set i | 0 <= i < |events| && events[i].Registering? :: events[i].order.id
  }

  /** Everything pending or activated was pending at first or registered since;
      nothing is both, and nothing is activated twice. */
  lemma {:induction false} ActivatedOnce(r: Registry, events: seq<Event>)
    requires RegistryOk(r) && FreshRegistrations(r, events)
    ensures RegistryOk(RunAll(r, events).0)
    ensures forall id :: IsPending(RunAll(r, events).0, id) ==> IsPending(r, id) || id in RegisteredIds(events)
    ensures forall id :: id in Ids(RunAll(r, events).1) ==>
              !IsPending(RunAll(r, events).0, id) && (IsPending(r, id) || id in RegisteredIds(events))
    ensures Distinct(RunAll(r, events).1)
  {
    if events != [] {
      var n := |events| - 1;
      PrefixFresh(r, events, n);
      ActivatedOnce(r, events[..n]);
      var e := events[n];
      assert RegisteredIds(events[..n]) <= RegisteredIds(events);
      var (r1, fired1) := RunAll(r, events[..n]);
      match e {
        case Registering(o) =>
          assert o.id in RegisteredIds(events);
          assert o.id !in RegisteredIds(events[..n]);
          RegisterKeeps(r1, o);
          RegisterPends(r1, o);
          assert fired1 + [] == fired1;
        case Cancelling(id) =>
          if IsPending(r1, id) {
            var s :| id in Ids(r1.Of(s));
            CancelPendingExact(r1, id, s);
            CancelPends(r1, id, s);
          }
          assert fired1 + [] == fired1;
        case Ticking(s, p) =>
          TickKeeps(r1, s, p);
          TickPends(r1, s, p);
          var fired2 := Tick(r1, s, p).1;
          DistinctJoin(fired1, fired2);
      }
    }
  }

  lemma RegisterPends(r: Registry, o: OrderData)
    requires RegistryOk(r) && IsConditional(o) && !IsPending(r, o.id)
    ensures forall id :: IsPending(Register(r, o), id) <==> IsPending(r, id) || id == o.id
  {
    RegisterKeeps(r, o);
    var r' := Register(r, o);
    AppendIds(r.Of(o.symbol), o.(status := PENDING));
    forall id ensures IsPending(r', id) <==> IsPending(r, id) || id == o.id {
      if IsPending(r', id) {
        var s :| id in Ids(r'.Of(s));
      }
      if IsPending(r, id) {
        var s :| id in Ids(r.Of(s));
        assert id in Ids(r'.Of(s));
      }
      assert o.id in Ids(r'.Of(o.symbol));
    }
  }

  lemma CancelPends(r: Registry, id: OrderId, s: string)
    requires RegistryOk(r) && id in Ids(r.Of(s))
    ensures forall x :: IsPending(CancelPending(r, id).0, x) ==> IsPending(r, x) && x != id
  {
    CancelPendingExact(r, id, s);
    var r' := CancelPending(r, id).0;
    assert Keeps(r, s);
    RemoveKeeps(r.Of(s), id);
    forall x | IsPending(r', x) ensures IsPending(r, x) && x != id {
      var t :| x in Ids(r'.Of(t));
      assert x in Ids(r.Of(t));
    }
  }

  lemma TickPends(r: Registry, s: string, p: real)
    requires RegistryOk(r)
    ensures forall x :: IsPending(Tick(r, s, p).0, x) ==> IsPending(r, x)
    ensures forall x :: x in Ids(Tick(r, s, p).1) ==> IsPending(r, x) && !IsPending(Tick(r, s, p).0, x)
  {
    TickKeeps(r, s, p);
    var (r', f) := Tick(r, s, p);
    forall x | IsPending(r', x) ensures IsPending(r, x) {
      var t :| x in Ids(r'.Of(t));
      assert x in Ids(r.Of(t));
    }
    forall x | x in Ids(f) ensures IsPending(r, x) && !IsPending(r', x) {
      assert x in Ids(r.Of(s));
      forall t ensures x !in Ids(r'.Of(t)) {
      }
    }
  }

  lemma {:induction false} DistinctJoin(a: seq<OrderData>, b: seq<OrderData>)
    requires Distinct(a) && Distinct(b) && Ids(a) !! Ids(b)
    ensures Distinct(a + b) && Ids(a + b) == Ids(a) + Ids(b)
  {
    if a == [] {
      assert a + b == b;
    } else {
      IdsCons(a);
      IdsCons(a + b);
      assert (a + b)[1..] == a[1..] + b;
      DistinctJoin(a[1..], b);
    }
  }

  // ---------- the ratchet ----------

  function Tightened(mark: Option<real>, up: bool, price: real): real {
    if up then Raised(mark, price) else Lowered(mark, price)
  }

  /** The best price for a trailing stop among `mark` and the prices of a symbol's ticks. */
  ghost function BestTick(mark: Option<real>, up: bool, symbol: string, events: seq<Event>): Option<real> {
    if events == [] then mark
    else
      var best, e := BestTick(mark, up, symbol, events[..|events| - 1]), events[|events| - 1];
      if e.Ticking? && e.symbol == symbol then Some(Tightened(best, up, e.price)) else best
  }

  ghost predicate TickedIn(symbol: string, events: seq<Event>) {
    exists i :: 0 <= i < |events| && events[i].Ticking? && events[i].symbol == symbol
  }

  function SymbolMark(r: Registry, side: Side, symbol: string): Option<real> {
    if side == SELL then Mark(r.high, symbol) else Mark(r.low, symbol)
  }

  /** Where a trailing stop stands: its first stop price, or its distance away
      from the best price seen once there has been a tick, whichever is tighter. */
  ghost function StopNow(o: OrderData, mark: Option<real>, events: seq<Event>): real
    requires o.stopPrice.Some? && o.trailingDelta.Some?
  {
    var best := BestTick(mark, o.side == SELL, o.symbol, events);
    if !TickedIn(o.symbol, events) || best.None? then o.stopPrice.value
    else if o.side == SELL then Max(o.stopPrice.value, best.value - o.trailingDelta.value)
    else Min(o.stopPrice.value, best.value + o.trailingDelta.value)
  }

  /** Closed form of the ratchet, over any run: a trailing stop that is still
      pending is otherwise as registered, its stop price is given by the prices
      of its symbol's ticks alone, and the symbol's mark is the best of them. */
  lemma {:induction false} RatchetClosedForm(r: Registry, o: OrderData, events: seq<Event>)
    requires RegistryOk(r) && o.kind == TRAILING_STOP && o.stopPrice.Some? && o.trailingDelta.Some?
    requires !IsPending(r, o.id) && FreshRegistrations(Register(r, o), events)
    requires o.id in Ids(RunAll(Register(r, o), events).0.Of(o.symbol))
    ensures var r', mark := RunAll(Register(r, o), events).0, SymbolMark(r, o.side, o.symbol);
            && o.(status := PENDING, stopPrice := Some(StopNow(o, mark, events))) in r'.Of(o.symbol)
            && SymbolMark(r', o.side, o.symbol) == BestTick(mark, o.side == SELL, o.symbol, events)
  {
    var r0, mark, up := Register(r, o), SymbolMark(r, o.side, o.symbol), o.side == SELL;
    RegisterKeeps(r, o);
    RegisterPends(r, o);
    if events == [] {
      assert o.(status := PENDING) in r0.Of(o.symbol);
    } else {
      var n := |events| - 1;
      var before, e := events[..n], events[n];
      PrefixFresh(r0, events, n);
      ActivatedOnce(r0, before);
      var r1 := RunAll(r0, before).0;
      StillPending(r1, e, o, r0, events);
      RatchetClosedForm(r, o, before);
      RatchetEvent(r1, e, o, mark, events);
    }
  }

  /** One more event carries the closed form on. */
  lemma RatchetEvent(r1: Registry, e: Event, o: OrderData, mark: Option<real>, events: seq<Event>)
    requires RegistryOk(r1) && o.kind == TRAILING_STOP && o.stopPrice.Some? && o.trailingDelta.Some?
    requires events != [] && e == events[|events| - 1]
    requires var before := events[..|events| - 1];
             && o.(status := PENDING, stopPrice := Some(StopNow(o, mark, before))) in r1.Of(o.symbol)
             && SymbolMark(r1, o.side, o.symbol) == BestTick(mark, o.side == SELL, o.symbol, before)
    requires e.Registering? ==> IsConditional(e.order) && !IsPending(r1, e.order.id)
    requires o.id in Ids(Apply(r1, e).0.Of(o.symbol))
    ensures var r' := Apply(r1, e).0;
            && o.(status := PENDING, stopPrice := Some(StopNow(o, mark, events))) in r'.Of(o.symbol)
            && SymbolMark(r', o.side, o.symbol) == BestTick(mark, o.side == SELL, o.symbol, events)
  {
    hide Tick, Register, CancelPending, RegistryOk, IsPending, TickedIn;
    var before := events[..|events| - 1];
    var p := o.(status := PENDING, stopPrice := Some(StopNow(o, mark, before)));
    TickedPrefix(o.symbol, events);
    if e.Ticking? && e.symbol == o.symbol {
      RatchetStep(r1, e.price, p);
      StopTightens(o, mark, events);
    } else {
      KeptByOthers(r1, e, p);
    }
  }

  /** Tightening the stop tick by tick is tightening it once by the best tick. */
  lemma StopTightens(o: OrderData, mark: Option<real>, events: seq<Event>)
    requires o.stopPrice.Some? && o.trailingDelta.Some? && events != []
    requires var e := events[|events| - 1]; e.Ticking? && e.symbol == o.symbol
    ensures var before, up := events[..|events| - 1], o.side == SELL;
            var best := Tightened(BestTick(mark, up, o.symbol, before), up, events[|events| - 1].price);
            && BestTick(mark, up, o.symbol, events) == Some(best)
            && StopNow(o, mark, events)
               == if up then Max(StopNow(o, mark, before), best - o.trailingDelta.value)
                  else Min(StopNow(o, mark, before), best + o.trailingDelta.value)
  {
    TickedPrefix(o.symbol, events);
  }

  lemma TickedPrefix(symbol: string, events: seq<Event>)
    requires events != []
    ensures var n := |events| - 1;
            TickedIn(symbol, events) <==>
                TickedIn(symbol, events[..n]) || (events[n].Ticking? && events[n].symbol == symbol)
  {
    var n := |events| - 1;
    if TickedIn(symbol, events[..n]) {
      var i :| 0 <= i < n && events[..n][i].Ticking? && events[..n][i].symbol == symbol;
      assert events[i].Ticking?;
    }
    if TickedIn(symbol, events) {
      var i :| 0 <= i < |events| && events[i].Ticking? && events[i].symbol == symbol;
      assert i < n ==> events[..n][i] == events[i];
    }
  }

  /** An order that is pending after an event, and was not registered by it, was pending before. */
  lemma StillPending(r1: Registry, e: Event, o: OrderData, r0: Registry, events: seq<Event>)
    requires RegistryOk(r1) && events != [] && e == events[|events| - 1] && FreshRegistrations(r0, events)
    requires IsPending(r0, o.id) && o.id in Ids(Apply(r1, e).0.Of(o.symbol))
    requires e.Registering? ==> !IsPending(r1, e.order.id)
    ensures o.id in Ids(r1.Of(o.symbol))
  {
    match e {
      case Registering(x) =>
        assert x.id != o.id;
        RegisterKeeps(r1, x);
        AppendIds(r1.Of(x.symbol), x.(status := PENDING));
      case Cancelling(id) =>
        if IsPending(r1, id) {
          var s :| id in Ids(r1.Of(s));
          CancelPendingExact(r1, id, s);
          assert Keeps(r1, s);
          RemoveKeeps(r1.Of(s), id);
        }
      case Ticking(s, p) =>
        TickKeeps(r1, s, p);
    }
  }

  lemma RatchetStep(r1: Registry, price: real, p: OrderData)
    requires RegistryOk(r1) && p in r1.Of(p.symbol) && p.kind == TRAILING_STOP && p.stopPrice.Some?
             && p.trailingDelta.Some?
    requires p.id in Ids(Tick(r1, p.symbol, price).0.Of(p.symbol))
    ensures var r2 := Tick(r1, p.symbol, price).0;
            var best := Tightened(SymbolMark(r1, p.side, p.symbol), p.side == SELL, price);
            && SymbolMark(r2, p.side, p.symbol) == Some(best)
            && p.(stopPrice := Some(if p.side == SELL then Max(p.stopPrice.value, best - p.trailingDelta.value)
                                    else Min(p.stopPrice.value, best + p.trailingDelta.value))) in r2.Of(p.symbol)
  {
    var high, low := Raised(Mark(r1.high, p.symbol), price), Lowered(Mark(r1.low, p.symbol), price);
    assert Keeps(r1, p.symbol);
    TrailedMember(r1.Of(p.symbol), low, high, price, p);
  }

  lemma {:induction false} TrailedMember(q: seq<OrderData>, low: real, high: real, price: real, p: OrderData)
    requires Distinct(q) && p in q && p.id in Ids(Waiting(TrailAll(q, low, high), price))
    ensures Trail(p, low, high) in Waiting(TrailAll(q, low, high), price)
  {
    var trailed := TrailAll(q, low, high);
    assert trailed[0] == Trail(q[0], low, high) && trailed[1..] == TrailAll(q[1..], low, high);
    TrailKeeps(q[1..], low, high);
    FiringIds(TrailAll(q[1..], low, high), price);
    IdsCons(q);
    if q[0] != p {
      assert p in q[1..] && p.id != q[0].id;
      TrailedMember(q[1..], low, high, price, p);
    }
  }

  lemma KeptByOthers(r1: Registry, e: Event, p: OrderData)
    requires RegistryOk(r1) && p in r1.Of(p.symbol) && p.id in Ids(Apply(r1, e).0.Of(p.symbol))
    requires !(e.Ticking? && e.symbol == p.symbol)
    requires e.Registering? ==> IsConditional(e.order) && !IsPending(r1, e.order.id)
    ensures p in Apply(r1, e).0.Of(p.symbol)
    ensures SymbolMark(Apply(r1, e).0, p.side, p.symbol) == SymbolMark(r1, p.side, p.symbol)
  {
    match e {
      case Registering(x) =>
        RegisterKeeps(r1, x);
      case Cancelling(id) =>
        if IsPending(r1, id) {
          var s :| id in Ids(r1.Of(s));
          CancelPendingExact(r1, id, s);
          assert Keeps(r1, s);
          if s == p.symbol {
            RemoveKeeps(r1.Of(s), id);
            RemovedOther(r1.Of(s), id, p);
          }
        }
      case Ticking(s, price) =>
        TickKeeps(r1, s, price);
    }
  }

  lemma {:induction false} RemovedOther(q: seq<OrderData>, id: OrderId, p: OrderData)
    requires p in q && p.id != id
    ensures p in Remove(q, id)
  {
    if q[0].id != id && q[0] != p {
      RemovedOther(q[1..], id, p);
    }
  }
}
