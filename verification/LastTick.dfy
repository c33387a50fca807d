/** One tick per submission, at the last fill: what it decides, and what it
    misses of ticking every fill. */
module LastTick {
  import opened Types
  import opened Queues
  import opened Matching
  import opened SweepTheorems
  import opened BookTheorems
  import opened Triggers
  import opened Engine

  // ---------- ticking every fill ----------

  /** The registry if each of these prices ticked in turn, with all it activates. */
  function TickEach(r: Registry, symbol: string, prices: seq<real>): (Registry, seq<OrderData>) {
    if prices == [] then (r, [])
    else
      var (r1, fired1) := TickEach(r, symbol, prices[..|prices| - 1]);
      var (r2, fired2) := Tick(r1, symbol, prices[|prices| - 1]);
      (r2, fired1 + fired2)
  }

  /** Prices of one sweep: never falling for a BUY taker, never rising for a SELL taker. */
  ghost predicate Worsening(prices: seq<real>, taker: Side) {
    forall i, j :: 0 <= i <= j < |prices| ==> NoBetter(taker, prices[i], prices[j])
  }

  predicate NoBetter(taker: Side, first: real, later: real) {
    if taker == BUY then first <= later else later <= first
  }

  /** The marks once the first and the present price of such a list have ticked. */
  function LowOver(mark: Option<real>, first: real, now: real): real {
    Lowered(Some(Lowered(mark, first)), now)
  }

  function HighOver(mark: Option<real>, first: real, now: real): real {
    Raised(Some(Raised(mark, first)), now)
  }

  /** An order as it waits at the price `now`, the first tick having been at `first`. */
  function TrailedTo(r: Registry, o: OrderData, first: real, now: real): OrderData {
    Trail(o, LowOver(Mark(r.low, o.symbol), first, now), HighOver(Mark(r.high, o.symbol), first, now))
  }

  predicate FiresAt(r: Registry, o: OrderData, first: real, now: real) {
    ShouldTrigger(TrailedTo(r, o, first, now), now)
  }

  /** Whether ticks from `first` to `now` fire an order: on the taker's own side
      the last one decides, on the other side the first. */
  predicate FiredBy(r: Registry, o: OrderData, taker: Side, first: real, now: real) {
    FiresAt(r, o, first, if o.side == taker then now else first)
  }

  /** Marks only tighten, so trailing twice is trailing once by the later marks. */
  lemma TrailTwice(o: OrderData, low: real, high: real, low': real, high': real)
    requires low' <= low && high <= high'
    ensures Trail(Trail(o, low, high), low', high') == Trail(o, low', high')
  {
  }

  lemma FiringGoesOn(r: Registry, o: OrderData, taker: Side, first: real, now: real, next: real)
    requires NoBetter(taker, first, now) && NoBetter(taker, now, next)
    ensures FiredBy(r, o, taker, first, now) ==> FiredBy(r, o, taker, first, next)
    ensures !FiredBy(r, o, taker, first, now) ==> (FiresAt(r, o, first, next) <==> FiredBy(r, o, taker, first, next))
  {
    hide FiresAt;
    if o.side == taker {
      OwnSideGoesOn(r, o, first, now, next);
    } else {
      FirstDecides(r, o, first, next);
    }
  }

  lemma OwnSideGoesOn(r: Registry, o: OrderData, first: real, now: real, next: real)
    requires NoBetter(o.side, first, now) && NoBetter(o.side, now, next)
    ensures FiresAt(r, o, first, now) ==> FiresAt(r, o, first, next)
  {
  }

  /** An order on the other side that the first price leaves waiting goes on waiting. */
  lemma FirstDecides(r: Registry, o: OrderData, first: real, next: real)
    requires NoBetter(o.side.Opposite(), first, next)
    ensures FiresAt(r, o, first, next) ==> FiresAt(r, o, first, first)
  {
  }

  /** What a tick does to one pending order. */
  lemma TickOne(r: Registry, price: real, o: OrderData)
    requires RegistryOk(r) && o in r.Of(o.symbol)
    ensures var (r', fired) := Tick(r, o.symbol, price);
            var t := Trail(o, Lowered(Mark(r.low, o.symbol), price), Raised(Mark(r.high, o.symbol), price));
            && Mark(r'.low, o.symbol) == Some(Lowered(Mark(r.low, o.symbol), price))
            && Mark(r'.high, o.symbol) == Some(Raised(Mark(r.high, o.symbol), price))
            && if ShouldTrigger(t, price) then o.id in Ids(fired) && o.id !in Ids(r'.Of(o.symbol))
               else t in r'.Of(o.symbol) && o.id !in Ids(fired)
  {
    hide RegistryOk, Fired, Waiting, TrailAll;
    var q := r.Of(o.symbol);
    var high, low := Raised(Mark(r.high, o.symbol), price), Lowered(Mark(r.low, o.symbol), price);
    TickKeeps(r, o.symbol, price);
    TrailKeeps(q, low, high);
    FiringMembers(TrailAll(q, low, high), price);
    var k :| 0 <= k < |q| && q[k] == o;
    assert TrailAll(q, low, high)[k] in TrailAll(q, low, high);
  }

  /** The fate of a pending order under ticks at worsening prices: it has fired
      exactly when `FiredBy` says so, and otherwise waits with its stop trailed
      to the first and the last price. */
  lemma {:induction false} Fate(r: Registry, taker: Side, prices: seq<real>, o: OrderData)
    requires RegistryOk(r) && o in r.Of(o.symbol) && prices != [] && Worsening(prices, taker)
    ensures var (r', fired) := TickEach(r, o.symbol, prices);
            var first, last := prices[0], prices[|prices| - 1];
            && RegistryOk(r')
            && if FiredBy(r, o, taker, first, last) then o.id in Ids(fired) && o.id !in Ids(r'.Of(o.symbol))
               else
                 && TrailedTo(r, o, first, last) in r'.Of(o.symbol) && o.id !in Ids(fired)
                 && Mark(r'.low, o.symbol) == Some(LowOver(Mark(r.low, o.symbol), first, last))
                 && Mark(r'.high, o.symbol) == Some(HighOver(Mark(r.high, o.symbol), first, last))
  {
    hide RegistryOk, Tick, Trail, ShouldTrigger;
    var n := |prices| - 1;
    var before, last := prices[..n], prices[n];
    if n == 0 {
      assert TickEach(r, o.symbol, before) == (r, []);
      TickOne(r, last, o);
      TickKeeps(r, o.symbol, last);
    } else {
      Fate(r, taker, before, o);
      var (r1, fired1) := TickEach(r, o.symbol, before);
      TickKeeps(r1, o.symbol, last);
      assert NoBetter(taker, prices[0], prices[n - 1]) && NoBetter(taker, prices[n - 1], last);
      FiringGoesOn(r, o, taker, prices[0], prices[n - 1], last);
      if !FiredBy(r, o, taker, prices[0], prices[n - 1]) {
        FateNext(r, r1, taker, prices[0], prices[n - 1], last, o);
      }
    }
  }

  lemma FateNext(r: Registry, r1: Registry, taker: Side, first: real, now: real, next: real, o: OrderData)
    requires RegistryOk(r1) && TrailedTo(r, o, first, now) in r1.Of(o.symbol)
    requires NoBetter(taker, first, now) && NoBetter(taker, now, next)
    requires Mark(r1.low, o.symbol) == Some(LowOver(Mark(r.low, o.symbol), first, now))
    requires Mark(r1.high, o.symbol) == Some(HighOver(Mark(r.high, o.symbol), first, now))
    ensures var (r', fired) := Tick(r1, o.symbol, next);
            && Mark(r'.low, o.symbol) == Some(LowOver(Mark(r.low, o.symbol), first, next))
            && Mark(r'.high, o.symbol) == Some(HighOver(Mark(r.high, o.symbol), first, next))
            && if FiresAt(r, o, first, next) then o.id in Ids(fired) && o.id !in Ids(r'.Of(o.symbol))
               else TrailedTo(r, o, first, next) in r'.Of(o.symbol) && o.id !in Ids(fired)
  {
    hide RegistryOk, Tick, ShouldTrigger;
    var low, high := LowOver(Mark(r.low, o.symbol), first, now), HighOver(Mark(r.high, o.symbol), first, now);
    TickOne(r1, next, TrailedTo(r, o, first, now));
    TrailTwice(o, low, high, Lowered(Some(low), next), Raised(Some(high), next));
  }

  // ---------- what the last tick alone misses ----------

  ghost predicate EveryFires(r: Registry, prices: seq<real>, o: OrderData) {
    o.id in Ids(TickEach(r, o.symbol, prices).1)
  }

  ghost predicate LastFires(r: Registry, prices: seq<real>, o: OrderData)
    requires prices != []
  {
    o.id in Ids(Tick(r, o.symbol, prices[|prices| - 1]).1)
  }

  lemma BothFates(r: Registry, taker: Side, prices: seq<real>, o: OrderData)
    requires RegistryOk(r) && o in r.Of(o.symbol) && prices != [] && Worsening(prices, taker)
    ensures var first, last := prices[0], prices[|prices| - 1];
            && (EveryFires(r, prices, o) <==> FiredBy(r, o, taker, first, last))
            && (LastFires(r, prices, o) <==> FiresAt(r, o, last, last))
  {
    hide RegistryOk, Tick, ShouldTrigger, Trail;
    var last := prices[|prices| - 1];
    Fate(r, taker, prices, o);
    TickOne(r, last, o);
  }

  /** A STOP_LOSS on the taker's own side is fired by ticking every fill exactly
      when the last tick alone fires it. One on the other side is missed exactly
      when the first fill reaches its stop and the last has left it behind. */
  lemma StopLossMissed(r: Registry, taker: Side, prices: seq<real>, o: OrderData)
    requires RegistryOk(r) && o in r.Of(o.symbol) && o.kind == STOP_LOSS && o.stopPrice.Some?
    requires prices != [] && Worsening(prices, taker)
    ensures LastFires(r, prices, o) ==> EveryFires(r, prices, o)
    ensures var first, last, stop := prices[0], prices[|prices| - 1], o.stopPrice.value;
            EveryFires(r, prices, o) && !LastFires(r, prices, o) <==>
              o.side != taker && if taker == BUY then first <= stop < last else last < stop <= first
  {
    assert NoBetter(taker, prices[0], prices[|prices| - 1]);
    BothFates(r, taker, prices, o);
  }

  /** A trailing stop that some fill fires and the last alone does not. On the
      taker's own side the sweep runs at least the trailing distance, which the
      first fill, but not the last, has trailed the stop to; on the other side
      the first fill reaches the stop and the last has left it behind. */
  predicate TrailMissed(r: Registry, taker: Side, o: OrderData, first: real, last: real)
    requires o.stopPrice.Some? && o.trailingDelta.Some?
  {
    var stop, delta, low, high := o.stopPrice.value, o.trailingDelta.value, Mark(r.low, o.symbol),
        Mark(r.high, o.symbol);
    delta > 0.0 &&
    match (taker, o.side)
    case (BUY, BUY) => first + delta <= last < stop && (low.Some? ==> last < low.value + delta)
    case (SELL, SELL) => stop < last <= first - delta && (high.Some? ==> high.value - delta < last)
    case (BUY, SELL) =>
      (first <= stop || (high.Some? && first <= high.value - delta)) && stop < last
          && (high.Some? ==> high.value - delta < last)
    case (SELL, BUY) =>
      (stop <= first || (low.Some? && low.value + delta <= first)) && last < stop
          && (low.Some? ==> last < low.value + delta)
  }

  /** A TRAILING_STOP is missed by the last tick alone exactly when `TrailMissed`
      says so, on either side. */
  lemma TrailingStopMissed(r: Registry, taker: Side, prices: seq<real>, o: OrderData)
    requires RegistryOk(r) && o in r.Of(o.symbol)
    requires o.kind == TRAILING_STOP && o.stopPrice.Some? && o.trailingDelta.Some?
    requires prices != [] && Worsening(prices, taker)
    ensures LastFires(r, prices, o) ==> EveryFires(r, prices, o)
    ensures EveryFires(r, prices, o) && !LastFires(r, prices, o) <==>
              TrailMissed(r, taker, o, prices[0], prices[|prices| - 1])
  {
    hide RegistryOk, TickEach, Tick, Trail, ShouldTrigger, TrailMissed;
    assert NoBetter(taker, prices[0], prices[|prices| - 1]);
    BothFates(r, taker, prices, o);
    FiringMissed(r, taker, o, prices[0], prices[|prices| - 1]);
  }

  lemma FiringMissed(r: Registry, taker: Side, o: OrderData, first: real, last: real)
    requires o.kind == TRAILING_STOP && o.stopPrice.Some? && o.trailingDelta.Some? && NoBetter(taker, first, last)
    ensures FiresAt(r, o, last, last) ==> FiredBy(r, o, taker, first, last)
    ensures FiredBy(r, o, taker, first, last) && !FiresAt(r, o, last, last) <==> TrailMissed(r, taker, o, first, last)
  {
    hide FiresAt;
    FiresWhen(r, o, first, last);
    FiresWhen(r, o, first, first);
    FiresWhen(r, o, last, last);
  }

  /** The trigger condition of a trailing stop, its trailing worked in. */
  lemma FiresWhen(r: Registry, o: OrderData, first: real, now: real)
    requires o.kind == TRAILING_STOP && o.stopPrice.Some? && o.trailingDelta.Some?
    ensures var stop, delta := o.stopPrice.value, o.trailingDelta.value;
            FiresAt(r, o, first, now) <==>
              if o.side == SELL then now <= stop || now <= HighOver(Mark(r.high, o.symbol), first, now) - delta
              else stop <= now || LowOver(Mark(r.low, o.symbol), first, now) + delta <= now
  {
  }

  /** A stop on the taker's own side that the first fill trails further than
      the last, being a new mark. */
  predicate TrailedLess(r: Registry, taker: Side, o: OrderData, first: real, last: real)
    requires o.stopPrice.Some? && o.trailingDelta.Some?
  {
    var stop, delta, low, high := o.stopPrice.value, o.trailingDelta.value, Mark(r.low, o.symbol),
        Mark(r.high, o.symbol);
    && o.side == taker && first != last
    && if taker == BUY then first + delta < stop && (low.Some? ==> first < low.value)
       else stop < first - delta && (high.Some? ==> high.value < first)
  }

  /** Where a trailing stop that neither way fires is left: on the side opposite
      the taker at the same stop; on the taker's own side at the same stop unless
      the first fill, which the last tick alone never sees, trails it further. */
  lemma TrailingStopLeft(r: Registry, taker: Side, prices: seq<real>, o: OrderData)
    requires RegistryOk(r) && o in r.Of(o.symbol)
    requires o.kind == TRAILING_STOP && o.stopPrice.Some? && o.trailingDelta.Some?
    requires prices != [] && Worsening(prices, taker)
    requires !EveryFires(r, prices, o)
    ensures var first, last := prices[0], prices[|prices| - 1];
            var every, once := TrailedTo(r, o, first, last), TrailedTo(r, o, last, last);
            && every in TickEach(r, o.symbol, prices).0.Of(o.symbol)
            && once in Tick(r, o.symbol, last).0.Of(o.symbol)
            && (every != once <==> TrailedLess(r, taker, o, first, last))
  {
    hide RegistryOk, TickEach, Tick, Trail, ShouldTrigger, TrailedLess, TrailMissed;
    assert NoBetter(taker, prices[0], prices[|prices| - 1]);
    BothFates(r, taker, prices, o);
    TrailingStopMissed(r, taker, prices, o);
    Fate(r, taker, prices, o);
    TickOne(r, prices[|prices| - 1], o);
    LeftBehind(r, taker, o, prices[0], prices[|prices| - 1]);
  }

  lemma LeftBehind(r: Registry, taker: Side, o: OrderData, first: real, last: real)
    requires o.kind == TRAILING_STOP && o.stopPrice.Some? && o.trailingDelta.Some? && NoBetter(taker, first, last)
    ensures TrailedTo(r, o, first, last) != TrailedTo(r, o, last, last) <==> TrailedLess(r, taker, o, first, last)
  {
  }

  // ---------- the marks ----------

  lemma {:induction false} TickEachKeeps(r: Registry, symbol: string, prices: seq<real>)
    requires RegistryOk(r)
    ensures RegistryOk(TickEach(r, symbol, prices).0)
    ensures Ids(TickEach(r, symbol, prices).0.Of(symbol)) <= Ids(r.Of(symbol))
  {
    hide RegistryOk;
    if prices != [] {
      var n := |prices| - 1;
      TickEachKeeps(r, symbol, prices[..n]);
      TickKeeps(TickEach(r, symbol, prices[..n]).0, symbol, prices[n]);
    }
  }

  lemma {:induction false} TickEachSplits(r: Registry, symbol: string, a: seq<real>, b: seq<real>)
    ensures TickEach(r, symbol, a + b).0 == TickEach(TickEach(r, symbol, a).0, symbol, b).0
  {
    hide Tick;
    if b == [] {
      assert a + b == a;
    } else {
      var n := |b| - 1;
      assert (a + b)[..|a + b| - 1] == a + b[..n];
      TickEachSplits(r, symbol, a, b[..n]);
    }
  }

  /** A tick moves a mark only while something is pending. */
  lemma TickMark(r: Registry, symbol: string, price: real, side: Side)
    ensures forall s :: s != symbol ==> SymbolMark(Tick(r, symbol, price).0, side, s) == SymbolMark(r, side, s)
    ensures SymbolMark(Tick(r, symbol, price).0, side, symbol)
         == if r.Of(symbol) == [] then SymbolMark(r, side, symbol)
            else Some(Tightened(SymbolMark(r, side, symbol), side == SELL, price))
  {
  }

  /** Ticks at one price move a mark at most once. */
  lemma {:induction false} SamePrice(r: Registry, symbol: string, prices: seq<real>, price: real, side: Side)
    requires prices != [] && forall p :: p in prices ==> p == price
    ensures SymbolMark(TickEach(r, symbol, prices).0, side, symbol)
         == if r.Of(symbol) == [] then SymbolMark(r, side, symbol)
            else Some(Tightened(SymbolMark(r, side, symbol), side == SELL, price))
  {
    hide Tick;
    var n := |prices| - 1;
    var before := TickEach(r, symbol, prices[..n]).0;
    assert prices[n] in prices && forall p :: p in prices[..n] ==> p in prices;
    TickMark(before, symbol, price, side);
    if n > 0 {
      SamePrice(r, symbol, prices[..n], price, side);
      if r.Of(symbol) == [] {
        NothingPending(r, symbol, prices[..n]);
      }
    }
  }

  lemma {:induction false} NothingPending(r: Registry, symbol: string, prices: seq<real>)
    requires r.Of(symbol) == []
    ensures TickEach(r, symbol, prices).0 == r
  {
    if prices != [] {
      NothingPending(r, symbol, prices[..|prices| - 1]);
    }
  }

  /** A mark does not pass a price that no tick passes, nor reach one that none reaches. */
  lemma {:induction false} MarkWithin(r: Registry, taker: Side, symbol: string, prices: seq<real>, bound: real)
    requires forall p :: p in prices ==> NoBetter(taker, p, bound)
    ensures var before := SymbolMark(r, taker.Opposite(), symbol);
            var after := SymbolMark(TickEach(r, symbol, prices).0, taker.Opposite(), symbol);
            && (before == Some(bound) ==> after == before)
            && ((before.Some? ==> NoBetter(taker, before.value, bound)) && before != Some(bound) && bound !in prices ==>
                  (after.Some? ==> NoBetter(taker, after.value, bound)) && after != Some(bound))
  {
    hide Tick;
    if prices != [] {
      var n := |prices| - 1;
      assert prices[n] in prices && forall p :: p in prices[..n] ==> p in prices;
      MarkWithin(r, taker, symbol, prices[..n], bound);
      TickMark(TickEach(r, symbol, prices[..n]).0, symbol, prices[n], taker.Opposite());
    }
  }

  /** The mark behind the sweep is set by the first fill. */
  lemma {:induction false} MarkBehind(r: Registry, taker: Side, symbol: string, prices: seq<real>)
    requires prices != [] && Worsening(prices, taker) && r.Of(symbol) != []
    ensures SymbolMark(TickEach(r, symbol, prices).0, taker, symbol)
         == Some(Tightened(SymbolMark(r, taker, symbol), taker == SELL, prices[0]))
  {
    hide Tick;
    var n := |prices| - 1;
    TickMark(TickEach(r, symbol, prices[..n]).0, symbol, prices[n], taker);
    if n > 0 {
      MarkBehind(r, taker, symbol, prices[..n]);
      assert NoBetter(taker, prices[0], prices[n]);
    }
  }

  /** Pending until the first fill at the last price. */
  ghost predicate Outlasts(r: Registry, taker: Side, o: OrderData, prices: seq<real>)
    requires prices != []
  {
    forall p :: p in prices && p != prices[|prices| - 1] ==> !FiredBy(r, o, taker, prices[0], p)
  }

  /** The prices before the last one, and the fills at it. */
  lemma LastRun(prices: seq<real>, taker: Side) returns (m: nat)
    requires prices != [] && Worsening(prices, taker)
    ensures m < |prices| && Worsening(prices[..m], taker)
    ensures var last := prices[|prices| - 1];
            && (forall p :: p in prices[..m] ==> p != last && NoBetter(taker, p, last))
            && (forall k :: m <= k < |prices| ==> prices[k] == last)
  {
    var last := prices[|prices| - 1];
    m := |prices| - 1;
    while m > 0 && prices[m - 1] == last
      invariant m < |prices| && forall i :: m <= i < |prices| ==> prices[i] == last
    {
      m := m - 1;
    }
    forall i | 0 <= i < m ensures prices[i] != last && NoBetter(taker, prices[i], last) {
      assert NoBetter(taker, prices[i], prices[m - 1]) && NoBetter(taker, prices[m - 1], last);
    }
  }

  lemma SomeOutlasts(r: Registry, taker: Side, symbol: string, prices: seq<real>, m: nat)
    requires RegistryOk(r) && r.Of(symbol) != [] && prices != [] && m < |prices| && Worsening(prices, taker)
    requires forall p :: p in prices[..m] ==> p != prices[|prices| - 1]
    requires forall k :: m <= k < |prices| ==> prices[k] == prices[|prices| - 1]
    ensures TickEach(r, symbol, prices[..m]).0.Of(symbol) != []
            <==> exists o :: o in r.Of(symbol) && Outlasts(r, taker, o, prices)
  {
    hide Tick, FiredBy;
    var q, r1 := r.Of(symbol), TickEach(r, symbol, prices[..m]).0;
    assert Keeps(r, symbol);
    if m == 0 {
      assert q[0] in q && Outlasts(r, taker, q[0], prices);
    } else {
      assert Worsening(prices[..m], taker);
      TickEachKeeps(r, symbol, prices[..m]);
      if r1.Of(symbol) != [] {
        assert r1.Of(symbol)[0] in r1.Of(symbol) && r1.Of(symbol)[0].id in Ids(q);
        var o :| o in q && o.id == r1.Of(symbol)[0].id;
        Fate(r, taker, prices[..m], o);
        OutlastsIf(r, taker, o, prices, m);
      }
      forall o | o in q && Outlasts(r, taker, o, prices) ensures r1.Of(symbol) != [] {
        Fate(r, taker, prices[..m], o);
        assert prices[m - 1] in prices[..m] && prices[m - 1] in prices;
      }
    }
  }

  lemma OutlastsIf(r: Registry, taker: Side, o: OrderData, prices: seq<real>, m: nat)
    requires 0 < m < |prices| && Worsening(prices, taker) && !FiredBy(r, o, taker, prices[0], prices[m - 1])
    requires forall k :: m <= k < |prices| ==> prices[k] == prices[|prices| - 1]
    ensures Outlasts(r, taker, o, prices)
  {
    hide FiredBy;
    forall p | p in prices && p != prices[|prices| - 1] ensures !FiredBy(r, o, taker, prices[0], p) {
      var i :| 0 <= i < |prices| && prices[i] == p;
      assert NoBetter(taker, prices[0], p) && NoBetter(taker, p, prices[m - 1]);
      FiringGoesOn(r, o, taker, prices[0], p, prices[m - 1]);
    }
  }

  /** What ticking the last fill alone does to the marks. The mark ahead of the
      sweep is the one from ticking every fill exactly when it was there already
      or some order outlasts the fills before the last price: a registry that
      runs empty stops marking. The mark behind the sweep is the same exactly
      when the first fill does not move it further than the last. */
  lemma LastTickMarks(r: Registry, taker: Side, symbol: string, prices: seq<real>)
    requires RegistryOk(r) && r.Of(symbol) != [] && prices != [] && Worsening(prices, taker)
    ensures var first, last := prices[0], prices[|prices| - 1];
            var every, once := TickEach(r, symbol, prices).0, Tick(r, symbol, last).0;
            var ahead, behind := SymbolMark(r, taker.Opposite(), symbol), SymbolMark(r, taker, symbol);
            && (SymbolMark(every, taker.Opposite(), symbol) == SymbolMark(once, taker.Opposite(), symbol) <==>
                  || (ahead.Some? && NoBetter(taker, last, ahead.value))
                  || exists o :: o in r.Of(symbol) && Outlasts(r, taker, o, prices))
            && (SymbolMark(every, taker, symbol) == SymbolMark(once, taker, symbol) <==>
                  first == last || (behind.Some? && NoBetter(taker, behind.value, first)))
  {
    hide RegistryOk, Tick, Outlasts;
    var first, last := prices[0], prices[|prices| - 1];
    assert NoBetter(taker, first, last);
    MarkBehind(r, taker, symbol, prices);
    TickMark(r, symbol, last, taker);
    TickMark(r, symbol, last, taker.Opposite());
    MarkAhead(r, taker, symbol, prices);
  }

  lemma MarkAhead(r: Registry, taker: Side, symbol: string, prices: seq<real>)
    requires RegistryOk(r) && r.Of(symbol) != [] && prices != [] && Worsening(prices, taker)
    ensures var last, ahead := prices[|prices| - 1], SymbolMark(r, taker.Opposite(), symbol);
            SymbolMark(TickEach(r, symbol, prices).0, taker.Opposite(), symbol)
                == Some(Tightened(ahead, taker == BUY, last)) <==>
              || (ahead.Some? && NoBetter(taker, last, ahead.value))
              || exists o :: o in r.Of(symbol) && Outlasts(r, taker, o, prices)
  {
    hide RegistryOk, Tick, Outlasts;
    var last, ahead := prices[|prices| - 1], SymbolMark(r, taker.Opposite(), symbol);
    var m := LastRun(prices, taker);
    var r1 := TickEach(r, symbol, prices[..m]).0;
    assert prices == prices[..m] + prices[m..];
    TickEachSplits(r, symbol, prices[..m], prices[m..]);
    SomeOutlasts(r, taker, symbol, prices, m);
    SamePrice(r1, symbol, prices[m..], last, taker.Opposite());
    if ahead.Some? && NoBetter(taker, last, ahead.value) {
      forall p | p in prices[..m] ensures NoBetter(taker, p, ahead.value) {
      }
      MarkWithin(r, taker, symbol, prices[..m], ahead.value);
    } else {
      MarkWithin(r, taker, symbol, prices[..m], last);
    }
  }

  // ---------- the prices of a sweep, from the book before it ----------

  function PricesOf(trades: seq<TradeExecution>): seq<real> {
    seq(|trades|, i requires 0 <= i < |trades| => trades[i].price)
  }

  /** Prices of the orders within reach of a taker that wants so much: down the
      queue until visible and hidden quantity together cover it. */
  function Touched(q: seq<OrderData>, cutoff: Option<real>, want: real): (prices: seq<real>)
    requires q != []
    ensures prices != []
  {
    [q[0].price] +
    if |q| == 1 || want <= Depth(q[0]) || !Accepts(cutoff, q[1]) then []
        else Touched(q[1..], cutoff, want - Depth(q[0]))
  }

  /** The same prices, ending in the same one. */
  ghost predicate Alike(a: seq<real>, b: seq<real>) {
    && a != [] && b != [] && a[0] == b[0] && a[|a| - 1] == b[|b| - 1]
    && forall p :: p in a <==> p in b
  }

  lemma AlikeCons(p: real, a: seq<real>, b: seq<real>)
    requires Alike(a, b)
    ensures Alike([p] + a, [p] + b)
  {
  }

  lemma TouchedCons(x: OrderData, tail: seq<OrderData>, cutoff: Option<real>, want: real)
    ensures Touched([x] + tail, cutoff, want)
         == [x.price] + if tail == [] || want <= Depth(x) || !Accepts(cutoff, tail[0]) then []
                        else Touched(tail, cutoff, want - Depth(x))
  {
    assert ([x] + tail)[1..] == tail;
  }

  lemma InsertCons(x: OrderData, tail: seq<OrderData>, o: OrderData)
    requires Rank(x) <= Rank(o)
    ensures Insert([x] + tail, o) == [x] + Insert(tail, o)
    ensures Insert(tail, o) != [] && (Insert(tail, o)[0] == o || (tail != [] && Insert(tail, o)[0] == tail[0]))
    ensures tail != [] && Rank(o) < Rank(tail[0]) ==> Insert(tail, o)[0] == o
  {
    assert ([x] + tail)[1..] == tail;
  }

  /** Two neighbours of one price may change places. */
  lemma TouchedSwapped(x: OrderData, o: OrderData, tail: seq<OrderData>, cutoff: Option<real>, want: real)
    requires x.price == o.price && x.side == o.side && Depth(x) >= 0.0 && Depth(o) >= 0.0 && Accepts(cutoff, o)
    ensures Alike(Touched([x] + ([o] + tail), cutoff, want), Touched([o] + ([x] + tail), cutoff, want))
  {
    hide Touched, Depth;
    TouchedCons(x, [o] + tail, cutoff, want);
    TouchedCons(o, [x] + tail, cutoff, want);
    TouchedCons(o, tail, cutoff, want - Depth(x));
    TouchedCons(x, tail, cutoff, want - Depth(o));
    assert want - Depth(x) - Depth(o) == want - Depth(o) - Depth(x);
  }

  /** A slice that goes behind the orders of its price is reached like one that
      stays in front of them. */
  lemma {:induction false} TouchedInserted(q: seq<OrderData>, o: OrderData, cutoff: Option<real>, want: real)
    requires Sorted(q) && AllResting(q) && Depth(o) >= 0.0 && Accepts(cutoff, o)
    requires forall x :: x in q ==> x.side == o.side && Rank(o) <= Rank(x)
    ensures Alike(Touched(Insert(q, o), cutoff, want), Touched([o] + q, cutoff, want))
  {
    hide Touched;
    if q != [] && Rank(o) >= Rank(q[0]) {
      hide Insert, Alike, Depth, Accepts;
      var (x, tail) := (q[0], q[1..]);
      IdsCons(q);
      RestingDepth(x);
      TouchedInserted(tail, o, cutoff, want - Depth(x));
      TouchedBehind(x, o, tail, cutoff, want);
      assert q == [x] + tail;
    }
  }

  lemma RestingDepth(o: OrderData)
    requires Resting(o)
    ensures Depth(o) > 0.0
  {
  }

  lemma TouchedBehind(x: OrderData, o: OrderData, tail: seq<OrderData>, cutoff: Option<real>, want: real)
    requires x.price == o.price && x.side == o.side && Depth(x) >= 0.0 && Depth(o) >= 0.0 && Accepts(cutoff, o)
    requires forall y :: y in tail ==> y.side == o.side && Rank(o) <= Rank(y)
    requires Alike(Touched(Insert(tail, o), cutoff, want - Depth(x)), Touched([o] + tail, cutoff, want - Depth(x)))
    ensures Alike(Touched(Insert([x] + tail, o), cutoff, want), Touched([o] + ([x] + tail), cutoff, want))
  {
    hide Touched, Depth, Insert;
    InsertCons(x, tail, o);
    assert tail != [] ==> tail[0] in tail;
    TouchedCons(x, Insert(tail, o), cutoff, want);
    TouchedCons(x, [o] + tail, cutoff, want);
    TouchedSwapped(x, o, tail, cutoff, want);
  }

  /** First price, last price and all prices of a sweep, as the queue before it says. */
  lemma {:induction false} SweepTouches(m: Match, cutoff: Option<real>)
    requires Ready(m) && !Stops(m, cutoff)
    ensures |m.trades| < |Run(m, cutoff).trades|
    ensures Alike(PricesOf(Run(m, cutoff).trades[|m.trades|..]), Touched(m.queue, cutoff, Remaining(m.taker)))
    decreases Sum(Effort, m.queue), if Remaining(m.taker) > 0.0 then 1 else 0
  {
    hide Touched, Insert, Sorted, Distinct, Resting, Depth;
    Continue(m, cutoff);
    FirstTrade(m, cutoff);
    var trades := Run(m, cutoff).trades;
    var rest := trades[|Step(m).trades|..];
    assert trades[|m.trades|..] == [trades[|m.trades|]] + rest;
    assert PricesOf(trades[|m.trades|..]) == [m.queue[0].price] + PricesOf(rest);
    if Stops(Step(m), cutoff) {
      assert rest == [];
      TouchedOnce(m, cutoff);
    } else {
      SweepTouches(Step(m), cutoff);
      TouchedOn(m, cutoff);
    }
  }

  lemma TouchedOnce(m: Match, cutoff: Option<real>)
    requires Ready(m) && !Stops(m, cutoff) && Stops(Step(m), cutoff)
    ensures Touched(m.queue, cutoff, Remaining(m.taker)) == [m.queue[0].price]
  {
    assert m.queue[0] in m.queue && Resting(m.queue[0]);
  }

  lemma HeadFacts(q: seq<OrderData>, side: Side, n: nat)
    requires QueueOk(q, side, n) && q != []
    ensures Resting(q[0]) && q[0].side == side && AllResting(q[1..]) && Sorted(q[1..])
    ensures forall x :: x in q[1..] ==> x.side == side && Rank(q[0]) <= Rank(x)
  {
    assert q[0] in q;
  }

  lemma TouchedOn(m: Match, cutoff: Option<real>)
    requires Ready(m) && !Stops(m, cutoff) && !Stops(Step(m), cutoff)
    ensures forall prices :: Alike(prices, Touched(Step(m).queue, cutoff, Remaining(Step(m).taker))) ==>
              Alike([m.queue[0].price] + prices, Touched(m.queue, cutoff, Remaining(m.taker)))
  {
    hide Touched, Alike, Insert, Sorted, QueueOk, TradeOf, Resting;
    var q, h, want := m.queue, m.queue[0], Remaining(m.taker);
    var tail, want' := q[1..], Remaining(Step(m).taker);
    HeadFacts(q, m.taker.side.Opposite(), m.counter);
    RestingDepth(h);
    assert q == [h] + tail;
    TouchedCons(h, tail, cutoff, want);
    if Hidden(h) > 0.0 {
      var slice := NextSlice(h, m.counter + 1);
      SliceShrinks(h, m.counter + 1);
      TouchedCons(slice, tail, cutoff, want');
      TouchedInserted(tail, slice, cutoff, want');
      forall prices | Alike(prices, Touched(Step(m).queue, cutoff, want'))
        ensures Alike([h.price] + prices, Touched(q, cutoff, want))
      {
        AlikeTwice(h.price, prices, Touched(Insert(tail, slice), cutoff, want'), Touched(q, cutoff, want));
      }
    } else {
      forall prices | Alike(prices, Touched(Step(m).queue, cutoff, want'))
        ensures Alike([h.price] + prices, Touched(q, cutoff, want))
      {
        AlikeCons(h.price, prices, Touched(tail, cutoff, want'));
      }
    }
  }

  /** A price already in front adds nothing. */
  lemma AlikeTwice(p: real, a: seq<real>, b: seq<real>, c: seq<real>)
    requires Alike(a, b) && Alike(b, c) && c[0] == p
    ensures Alike([p] + a, c)
  {
    assert c[0] in c;
  }

  /** Whether a sweep has anything to trade with. */
  predicate Meets(b: Book, o: OrderData, cutoff: Option<real>) {
    !Stops(Start(b, o), cutoff)
  }

  /** The prices within reach of a taker, from the book before its sweep. */
  function PricesAhead(b: Book, o: OrderData, cutoff: Option<real>): (prices: seq<real>)
    requires Meets(b, o, cutoff)
    ensures prices != []
  {
    Touched(b.Queue(o.side.Opposite()), cutoff, Remaining(o))
  }

  /** The fills of a sweep: at no better price from one to the next, and at just
      the prices ahead, from the first to the last of them. */
  lemma SweepPrices(b: Book, o: OrderData, cutoff: Option<real>)
    requires Takes(b, o)
    ensures AllResting(b.Queue(o.side.Opposite()))
    ensures var prices := PricesOf(Sweep(b, o, cutoff).trades);
            && (prices != [] <==> Meets(b, o, cutoff))
            && Worsening(prices, o.side)
            && (Meets(b, o, cutoff) ==> Alike(prices, PricesAhead(b, o, cutoff)))
  {
    SweepKeeps(b, o, cutoff);
    SweepWorsens(b, o, cutoff);
    hide Touched, QueueOk;
    if Meets(b, o, cutoff) {
      SweepTouches(Start(b, o), cutoff);
      assert Run(Start(b, o), cutoff).trades[0..] == Run(Start(b, o), cutoff).trades;
    }
  }

  lemma SweepWorsens(b: Book, o: OrderData, cutoff: Option<real>)
    requires Takes(b, o)
    ensures AllResting(b.Queue(o.side.Opposite()))
    ensures Worsening(PricesOf(Sweep(b, o, cutoff).trades), o.side)
  {
    GoodQueues(b);
    var trades := Run(Start(b, o), cutoff).trades;
    hide Sorted, Distinct, Resting, Run;
    forall i, j | 0 <= i <= j < |trades| ensures NoBetter(o.side, trades[i].price, trades[j].price) {
      FillPricesInOrder(Start(b, o), cutoff, i, j);
    }
  }

  /** The comparisons for a sweep over a book, read off book and registry before
      it: first a STOP_LOSS, then a TRAILING_STOP, then the marks. */
  lemma SweepMissesStopLoss(r: Registry, b: Book, o: OrderData, cutoff: Option<real>, stop: OrderData)
    requires RegistryOk(r) && stop in r.Of(stop.symbol) && stop.kind == STOP_LOSS && stop.stopPrice.Some?
    requires Takes(b, o) && Meets(b, o, cutoff)
    ensures AllResting(b.Queue(o.side.Opposite()))
    ensures var prices, ahead := PricesOf(Sweep(b, o, cutoff).trades), PricesAhead(b, o, cutoff);
            var first, last, at := ahead[0], ahead[|ahead| - 1], stop.stopPrice.value;
            && prices != [] && (LastFires(r, prices, stop) ==> EveryFires(r, prices, stop))
            && (EveryFires(r, prices, stop) && !LastFires(r, prices, stop) <==>
                  stop.side != o.side && if o.side == BUY then first <= at < last else last < at <= first)
  {
    hide RegistryOk, Takes, Sweep, PricesAhead, EveryFires, LastFires;
    SweepPrices(b, o, cutoff);
    StopLossMissed(r, o.side, PricesOf(Sweep(b, o, cutoff).trades), stop);
  }

  lemma SweepMissesTrailingStop(r: Registry, b: Book, o: OrderData, cutoff: Option<real>, stop: OrderData)
    requires RegistryOk(r) && stop in r.Of(stop.symbol)
    requires stop.kind == TRAILING_STOP && stop.stopPrice.Some? && stop.trailingDelta.Some?
    requires Takes(b, o) && Meets(b, o, cutoff)
    ensures AllResting(b.Queue(o.side.Opposite()))
    ensures var prices, ahead := PricesOf(Sweep(b, o, cutoff).trades), PricesAhead(b, o, cutoff);
            && prices != [] && (LastFires(r, prices, stop) ==> EveryFires(r, prices, stop))
            && (EveryFires(r, prices, stop) && !LastFires(r, prices, stop) <==>
                  TrailMissed(r, o.side, stop, ahead[0], ahead[|ahead| - 1]))
  {
    hide RegistryOk, Takes, Sweep, PricesAhead, EveryFires, LastFires, TrailMissed;
    SweepPrices(b, o, cutoff);
    TrailingStopMissed(r, o.side, PricesOf(Sweep(b, o, cutoff).trades), stop);
  }

  lemma SweepMarks(r: Registry, b: Book, o: OrderData, cutoff: Option<real>, symbol: string)
    requires RegistryOk(r) && r.Of(symbol) != [] && Takes(b, o) && Meets(b, o, cutoff)
    ensures AllResting(b.Queue(o.side.Opposite()))
    ensures var prices, reached := PricesOf(Sweep(b, o, cutoff).trades), PricesAhead(b, o, cutoff);
            var first, last := reached[0], reached[|reached| - 1];
            && prices != [] && prices[|prices| - 1] == last
            && var every, once := TickEach(r, symbol, prices).0, Tick(r, symbol, last).0;
            var ahead, behind := SymbolMark(r, o.side.Opposite(), symbol), SymbolMark(r, o.side, symbol);
            && (SymbolMark(every, o.side.Opposite(), symbol) == SymbolMark(once, o.side.Opposite(), symbol) <==>
                  || (ahead.Some? && NoBetter(o.side, last, ahead.value))
                  || exists x :: x in r.Of(symbol) && Outlasts(r, o.side, x, reached))
            && (SymbolMark(every, o.side, symbol) == SymbolMark(once, o.side, symbol) <==>
                  first == last || (behind.Some? && NoBetter(o.side, behind.value, first)))
  {
    hide RegistryOk, Takes, Sweep, PricesAhead, FiredBy, Tick;
    SweepPrices(b, o, cutoff);
    var prices, reached := PricesOf(Sweep(b, o, cutoff).trades), PricesAhead(b, o, cutoff);
    LastTickMarks(r, o.side, symbol, prices);
    forall x ensures Outlasts(r, o.side, x, prices) <==> Outlasts(r, o.side, x, reached) {
    }
  }

  // ---------- a whole submission ----------

  /** The one price at which a submission ticks, from the book before it. */
  ghost function TickPrice(b: Book, o: OrderData): Option<real> {
    var cutoff := if o.kind == LIMIT then LimitOf(o) else None;
    if o.kind == ICEBERG || !Meets(b, o, cutoff)
       || (o.kind == FILL_OR_KILL && Visible(b, o.side.Opposite()) < o.quantity) then None
    else var ahead := PricesAhead(b, o, cutoff); Some(ahead[|ahead| - 1])
  }

  lemma AddTicksAt(b: Book, o: OrderData)
    requires Good(b) && Fresh(o) && IsNew(b, o) && !IsConditional(o)
    ensures AllResting(b.Queue(o.side.Opposite()))
    ensures var trades := Add(b, o).trades;
            TickPrice(b, o) == if trades == [] then None else Some(trades[|trades| - 1].price)
  {
    hide PricesAhead, Good, Run;
    GoodQueues(b);
    var cutoff := if o.kind == LIMIT then LimitOf(o) else None;
    SweepPrices(b, o, cutoff);
    var trades := Sweep(b, o, cutoff).trades;
    assert |PricesOf(trades)| == |trades|;
  }

  lemma StopFacts(e: EngineState, symbol: string, stop: OrderData)
    requires GoodEngine(e) && stop in e.registry.Of(symbol)
    ensures RegistryOk(e.registry) && stop.symbol == symbol
  {
    assert Keeps(e.registry, symbol);
  }

  lemma {:induction false} StopsKeepIds(b: Book, fired: seq<OrderData>)
    requires Good(b) && Takers(fired)
    ensures Ids(SweepStops(b, fired).2) == Ids(fired)
    decreases |fired|
  {
    hide Good, Sweep, AllResting;
    if fired != [] {
      SweepKeeps(b, fired[0], None);
      StopsKeepIds(Sweep(b, fired[0], None).book, fired[1..]);
      var stops := SweepStops(b, fired).2;
      assert stops[1..] == SweepStops(Sweep(b, fired[0], None).book, fired[1..]).2;
      IdsCons(fired);
      IdsCons(stops);
    }
  }

  /** However many stops a submission activates and whatever those trade at, the
      marks move by one price, that of the submitted order's own last fill; and
      exactly the stops which that price triggers are activated. */
  lemma SubmitTicksOnce(e: EngineState, o: OrderData, side: Side, symbol: string, stop: OrderData)
    requires GoodEngine(e) && Submittable(e, o) && Validate(e.books.Keys, o).None? && !IsConditional(o)
    requires stop in e.registry.Of(o.symbol)
    ensures o.symbol in e.books && Submit(e, o).1.Accepted?
    ensures var (e', reply) := Submit(e, o);
            var tick, mark := TickPrice(e.books[o.symbol], o), SymbolMark(e.registry, side, symbol);
            && SymbolMark(e'.registry, side, symbol)
               == (if tick.None? || symbol != o.symbol then mark else Some(Tightened(mark, side == SELL, tick.value)))
            && (stop.id in Ids(reply.effect.stops) <==> tick.Some? && FiresAt(e.registry, stop, tick.value, tick.value))
            && (stop.id in Ids(reply.effect.stops) <==> stop.id !in Ids(e'.registry.Of(o.symbol)))
  {
    hide GoodEngine, Submittable, Good, Tick, ShouldTrigger, SweepStops, Fresh, IsNew, RegistryOk, TickPrice, Add;
    SubmitToBook(e, o);
    AddTicksAt(e.books[o.symbol], o);
    StopFacts(e, o.symbol, stop);
    var r := Add(e.books[o.symbol], o);
    if r.trades != [] {
      var last := r.trades[|r.trades| - 1].price;
      TickOne(e.registry, last, stop);
      TickMark(e.registry, o.symbol, last, side);
      FiredAreTakers(e, o.symbol, last);
      StopsKeepIds(r.book, Tick(e.registry, o.symbol, last).1);
    }
  }

  // ---------- concrete misses ----------

  function Ask(name: string, price: real): OrderData {
    OrderData(Client(name), "u", "s", SELL, LIMIT, price, 1.0, 0.0, OPEN, None, None, None, None)
  }

  /** One coin asked at 100 and one at 110, and a MARKET order for both. */
  const TWO_ASKS := Book("s", [], [Ask("a", 100.0), Ask("b", 110.0)], 0)
  const TAKER :=
    OrderData(Client("t"), "v", "s", BUY, MARKET, 0.0, 2.0, 0.0, PENDING, None, None, None, None)

  lemma TwoFills()
    ensures Takes(TWO_ASKS, TAKER) && Meets(TWO_ASKS, TAKER, None) && AllResting(TWO_ASKS.asks)
    ensures PricesAhead(TWO_ASKS, TAKER, None) == [100.0, 110.0]
    ensures PricesOf(Sweep(TWO_ASKS, TAKER, None).trades) == [100.0, 110.0]
  {
    hide Run, Good, AllResting;
    var (b, m) := (Ask("b", 110.0), Start(TWO_ASKS, TAKER));
    TwoAsks();
    assert TWO_ASKS.asks[1..] == [b];
    OneFill(m, b);
    NoFill(Step(m));
    assert Remaining(TAKER) == 2.0 && Depth(TWO_ASKS.asks[0]) == 1.0;
    assert Touched([b], None, 1.0) == [110.0];
    assert PricesOf(Step(Step(m)).trades) == [100.0, 110.0];
  }

  lemma TwoAsks()
    ensures Good(TWO_ASKS) && AllResting(TWO_ASKS.asks)
  {
    var (a, b) := (Ask("a", 100.0), Ask("b", 110.0));
    assert "a" != "b" by { assert "a"[0] != "b"[0]; }
    assert [a, b][1..] == [b] && [b][1..] == [];
    assert Sorted([b]) && Distinct([b]) && Sorted([a, b]) && Distinct([a, b]);
    assert forall o :: o in [a, b] ==> o == a || o == b;
  }

  /** A MARKET order that uses up the head goes on to the next order. */
  lemma OneFill(m: Match, next: OrderData)
    requires |m.queue| == 2 && AllResting(m.queue) && m.queue[1] == next
    requires Hidden(m.queue[0]) == 0.0 && Remaining(m.queue[0]) < Remaining(m.taker)
    ensures Step(m).queue == [next] && AllResting(Step(m).queue) && Run(m, None) == Run(Step(m), None)
    ensures Remaining(Step(m).taker) == Remaining(m.taker) - Remaining(m.queue[0])
  {
    assert m.queue[0] in m.queue && m.queue[1] in m.queue && m.queue[1..] == [next];
    StepProgress(m);
  }

  lemma NoFill(m: Match)
    requires |m.queue| == 1 && AllResting(m.queue) && Hidden(m.queue[0]) == 0.0
    requires 0.0 < Remaining(m.taker) <= Remaining(m.queue[0])
    ensures AllResting(m.queue) && Run(m, None) == Step(m)
  {
    assert m.queue[0] in m.queue && m.queue[1..] == [];
    StepProgress(m);
    assert Stops(Step(m), None);
  }

  function Pending(side: Side, kind: OrderType, stop: real, delta: Option<real>): OrderData {
    OrderData(Client("x"), "u", "s", side, kind, 0.0, 1.0, 0.0, PENDING, Some(stop), delta, None, None)
  }

  /** A SELL stop at 105: the fill at 100 fires it, the fill at 110 does not. */
  lemma StopLossMissedExample()
    ensures var o := Pending(SELL, STOP_LOSS, 105.0, None);
            var r := Register(EMPTY_REGISTRY, o);
            && RegistryOk(r) && o in r.Of("s") && AllResting(TWO_ASKS.asks)
            && var prices := PricesOf(Sweep(TWO_ASKS, TAKER, None).trades);
               prices != [] && EveryFires(r, prices, o) && !LastFires(r, prices, o)
  {
    var o := Pending(SELL, STOP_LOSS, 105.0, None);
    hide Sweep, PricesOf, EveryFires, LastFires, Takes, Meets, PricesAhead;
    OnlyPending(o);
    TwoFills();
    SweepMissesStopLoss(Register(EMPTY_REGISTRY, o), TWO_ASKS, TAKER, None, o);
  }

  /** A BUY trailing stop five away from the market: fills at 100 and 110 trail
      it to 105 and fire it, the fill at 110 alone trails it to 115. */
  lemma TrailingStopMissedExample()
    ensures var o := Pending(BUY, TRAILING_STOP, 200.0, Some(5.0));
            var r := Register(EMPTY_REGISTRY, o);
            && RegistryOk(r) && o in r.Of("s") && AllResting(TWO_ASKS.asks)
            && var prices := PricesOf(Sweep(TWO_ASKS, TAKER, None).trades);
               prices != [] && EveryFires(r, prices, o) && !LastFires(r, prices, o)
  {
    var o := Pending(BUY, TRAILING_STOP, 200.0, Some(5.0));
    hide Sweep, PricesOf, EveryFires, LastFires, Takes, Meets, PricesAhead;
    OnlyPending(o);
    TwoFills();
    SweepMissesTrailingStop(Register(EMPTY_REGISTRY, o), TWO_ASKS, TAKER, None, o);
  }

  /** A BUY stop at 100 fires on the first of the two fills; the empty registry
      then marks no more, and 110 is never seen. */
  lemma MarkMissedExample()
    ensures var o := Pending(BUY, STOP_LOSS, 100.0, None);
            var r := Register(EMPTY_REGISTRY, o);
            && RegistryOk(r) && AllResting(TWO_ASKS.asks)
            && Mark(TickEach(r, "s", PricesOf(Sweep(TWO_ASKS, TAKER, None).trades)).0.high, "s") == Some(100.0)
            && Mark(Tick(r, "s", 110.0).0.high, "s") == Some(110.0)
  {
    var o := Pending(BUY, STOP_LOSS, 100.0, None);
    hide Sweep, PricesOf, Takes, Meets, PricesAhead;
    OnlyPending(o);
    TwoFills();
    var r := Register(EMPTY_REGISTRY, o);
    assert r.Of("s") == [o];
    assert [o][1..] == [] && ShouldTrigger(o, 100.0);
    assert TrailAll([o], 100.0, 100.0) == [o] && Waiting([o], 100.0) == [];
    var r1 := Tick(r, "s", 100.0).0;
    assert r1.Of("s") == [] && Mark(r1.high, "s") == Some(100.0);
    assert TickEach(r, "s", [100.0]).0 == r1 by {
      assert [100.0][..0] == [];
    }
    assert [100.0, 110.0][..1] == [100.0];
  }

  lemma OnlyPending(o: OrderData)
    requires IsConditional(o) && o.status == PENDING
    ensures RegistryOk(EMPTY_REGISTRY) && RegistryOk(Register(EMPTY_REGISTRY, o))
            && o in Register(EMPTY_REGISTRY, o).Of(o.symbol)
  {
    forall s ensures Keeps(EMPTY_REGISTRY, s) {
    }
    assert !IsPending(EMPTY_REGISTRY, o.id);
    RegisterKeeps(EMPTY_REGISTRY, o);
  }
}
