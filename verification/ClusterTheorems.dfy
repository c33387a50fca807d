/** Safety of the cluster over whole runs, and its equivalence to one engine. */
module ClusterTheorems {
  import opened Types
  import opened Queues
  import opened Matching
  import opened Triggers
  import opened Engine
  import opened EngineTheorems
  import opened Sharding
  import opened Cluster

  // ---------- runs ----------

  ghost predicate EnabledRun(shards: Shards, s: State, events: seq<Move>)
    decreases |events|
  {
    events != [] ==> Enabled(shards, s, events[0]) && EnabledRun(shards, Next(shards, s, events[0]), events[1..])
  }

  ghost function RunEvents(shards: Shards, s: State, events: seq<Move>): State
    requires EnabledRun(shards, s, events)
    decreases |events|
  {
    if events == [] then s else RunEvents(shards, Next(shards, s, events[0]), events[1..])
  }

  lemma {:induction false} RunKeepsInv(shards: Shards, s: State, events: seq<Move>)
    requires Inv(shards, s) && EnabledRun(shards, s, events)
    ensures Inv(shards, RunEvents(shards, s, events))
    decreases |events|
  {
    if events != [] {
      NextKeeps(shards, s, events[0]);
      RunKeepsInv(shards, Next(shards, s, events[0]), events[1..]);
    }
  }

  // ---------- requests ----------

  /** A request settles at most once: a settlement is never changed or taken
      back, whatever happens later. */
  lemma {:induction false} SettledOnce(shards: Shards, s: State, events: seq<Move>, id: nat)
    requires Inv(shards, s) && EnabledRun(shards, s, events) && id in s.outcomes
    ensures var t := RunEvents(shards, s, events);
            id in t.outcomes && t.outcomes[id] == s.outcomes[id] && id !in t.pending
    decreases |events|
  {
    if events != [] {
      NextKeeps(shards, s, events[0]);
      StaysSettled(shards, s, events[0], id);
      SettledOnce(shards, Next(shards, s, events[0]), events[1..], id);
    }
  }

  lemma StaysSettled(shards: Shards, s: State, event: Move, id: nat)
    requires RequestsOk(s) && Enabled(shards, s, event) && id in s.outcomes
    ensures id in Next(shards, s, event).outcomes && Next(shards, s, event).outcomes[id] == s.outcomes[id]
  {
    hide Perform, ResultOf, Proper;
  }

  /** A reply settles its request if that is still pending; a late one changes
      nothing but that it is gone. */
  lemma LateReplyChangesNothing(shards: Shards, s: State, id: nat)
    requires Inv(shards, s) && Enabled(shards, s, HandleReply(id))
    ensures var s' := Next(shards, s, HandleReply(id));
            if id in s.outcomes then s' == s.(replies := s.replies - {id})
            else
              && id in s.pending
              && s' == s.(replies := s.replies - {id}, pending := s.pending - {id},
                          outcomes := s.outcomes[id := Resolved(s.replies[id])])
  {
    assert RequestsOk(s);
    assert id in s.issued by {
      assert AnswersOwn(s, id, s.replies[id]);
      var k :| 0 <= k < |s.log| && s.log[k].id == id;
      assert EntryOk(shards, s, k);
    }
  }

  /** A resolved request carries the result of its own command, which was
      executed exactly once, by the worker that owns its symbol. */
  lemma ResolvedExecutedOnce(shards: Shards, s: State, id: nat) returns (k: nat)
    requires Inv(shards, s) && id in s.outcomes && s.outcomes[id].Resolved?
    ensures k < |s.log| && s.log[k].id == id && s.log[k].command == s.issued[id]
    ensures forall j :: 0 <= j < |s.log| && s.log[j].id == id ==> j == k
    ensures var t := s.log[k];
            && t.worker in shards && t.command.Symbol() in shards[t.worker]
            && s.outcomes[id].result == ResultOf(t.response)
            && var before := WorkerAfter(shards, s.log[..k], t.worker);
               Admissible(before, t.command) && t.response == Execute(before, t.command).1
  {
    var r := s.outcomes[id].result;
    assert AnswersOwn(s, id, r);
    k :| 0 <= k < |s.log| && s.log[k].id == id && r == ResultOf(s.log[k].response);
    assert EntryOk(shards, s, k);
  }

  // ---------- one engine ----------

  /** Every cancel names the symbol its order was submitted for. */
  ghost predicate OwnSymbols(issued: map<nat, Command>) {
    forall i, j ::
      (i in issued && j in issued && issued[i].Cancelling? && issued[j].Submitting?
       && issued[i].id == issued[j].order.id)
      ==> issued[i].symbol == issued[j].order.symbol
  }

  /** One engine for all symbols, fed the log in order. */
  ghost function WholeAfter(shards: Shards, log: seq<Entry>): EngineState {
    if log == [] then EmptyEngine(AllSymbols(shards))
    else Perform(WholeAfter(shards, log[..|log| - 1]), log[|log| - 1].command).0
  }

  /** Pending orders of the whole engine sit under the symbol they were submitted for. */
  ghost predicate FromLog(e: EngineState, origin: map<OrderId, string>) {
    forall t, id :: id in Ids(e.registry.Of(t)) ==> id in origin && origin[id] == t
  }

  /** A submission adds at most its own order to the pending list of its symbol. */
  lemma SubmitPending(e: EngineState, o: OrderData)
    requires GoodEngine(e) && Submittable(e, o)
    ensures Ids(Submit(e, o).0.registry.Of(o.symbol)) <= Ids(e.registry.Of(o.symbol)) + {o.id}
  {
    hide Good, Add, SweepStops, PendingFresh, Fresh, IsNew, RegistryOk, Tick, Submit;
    if Validate(e.books.Keys, o).Some? {
      SubmitRejects(e, o);
    } else {
      if IsConditional(o) {
        SubmitRegisters(e, o);
        RegisterKeeps(e.registry, o);
        AppendIds(e.registry.Of(o.symbol), o.(status := PENDING));
      } else {
        SubmitInSteps(e, o);
        var r := Add(e.books[o.symbol], o);
        if r.trades != [] {
          TickKeeps(e.registry, o.symbol, r.trades[|r.trades| - 1].price);
        }
      }
    }
  }

  lemma FromLogNext(e: EngineState, c: Command, origin: map<OrderId, string>)
    requires Admissible(e, c) && FromLog(e, origin) && (c.Submitting? ==> c.order.id !in origin)
    ensures FromLog(Execute(e, c).0, if c.Submitting? then origin[c.order.id := c.order.symbol] else origin)
  {
    hide GoodEngine, Submittable, Submit, CancelIn, ShelfOf;
    var e' := Execute(e, c).0;
    forall t, id | id in Ids(e'.registry.Of(t))
      ensures id in Ids(e.registry.Of(t)) || (c.Submitting? && id == c.order.id && t == c.order.symbol)
    {
      PendingStays(e, c, t);
    }
  }

  lemma PendingStays(e: EngineState, c: Command, t: string)
    requires Admissible(e, c)
    ensures Ids(Execute(e, c).0.registry.Of(t))
         <= Ids(e.registry.Of(t)) + if c.Submitting? && t == c.order.symbol then {c.order.id} else {}
  {
    match c {
      case Submitting(o) =>
        if t == o.symbol {
          SubmitPending(e, o);
        } else {
          SubmitWritesOwnShelf(e, o, t);
          assert ShelfOf(Submit(e, o).0, t).pending == ShelfOf(e, t).pending;
        }
      case Cancelling(symbol, x) =>
        CancelWrites(e, symbol, x, t);
        RemoveKeeps(e.registry.Of(t), x);
        assert ShelfOf(CancelIn(e, symbol, x).0, t).pending in {e.registry.Of(t), Remove(e.registry.Of(t), x)};
    }
  }

  /** The whole engine is sound, and every worker is its restriction. */
  ghost predicate WholeOk(shards: Shards, log: seq<Entry>) {
    var e := WholeAfter(shards, log);
    && GoodEngine(e) && e.books.Keys == AllSymbols(shards)
    && OnlyUses(e, Origin(log).Keys) && FromLog(e, Origin(log))
    && forall w :: w in shards ==>
      GoodEngine(WorkerAfter(shards, log, w)) && Restricts(WorkerAfter(shards, log, w), e, shards[w])
  }

  lemma EmptyRestricts(symbols: set<string>, all: set<string>)
    requires symbols <= all
    ensures Restricts(EmptyEngine(symbols), EmptyEngine(all), symbols)
  {
  }

  lemma NothingPending(symbols: set<string>)
    ensures FromLog(EmptyEngine(symbols), map[]) && EmptyEngine(symbols).books.Keys == symbols
  {
  }

  lemma WholeAtFirst(shards: Shards)
    ensures WholeOk(shards, [])
  {
    hide GoodEngine, OnlyUses, Restricts, FromLog, EmptyEngine, AllSymbols;
    EmptyIsSound(AllSymbols(shards));
    NothingPending(AllSymbols(shards));
    var e := EmptyEngine(AllSymbols(shards));
    forall w | w in shards
      ensures GoodEngine(EmptyEngine(shards[w])) && Restricts(EmptyEngine(shards[w]), e, shards[w])
    {
      EmptyIsSound(shards[w]);
      WithinAll(shards, w);
      EmptyRestricts(shards[w], AllSymbols(shards));
    }
    assert Origin([]) == map[] && Origin([]).Keys == {};
  }

  lemma WithinAll(shards: Shards, w: string)
    requires w in shards
    ensures shards[w] <= AllSymbols(shards)
  {
  }

  /** An executed order's id belongs to no other command of the log. */
  lemma NewToPrefix(shards: Shards, s: State, k: nat)
    requires LogOk(shards, s) && OrdersOk(s.issued) && k < |s.log|
    ensures UniqueIds([s.log[k].command], Origin(s.log[..k]).Keys)
  {
    var c := s.log[k].command;
    assert EntryOk(shards, s, k);
    if c.Submitting? {
      var log := s.log[..k];
      forall j | 0 <= j < |log| && log[j].command.Submitting? ensures log[j].command.order.id != c.order.id {
        assert EntryOk(shards, s, j) && s.log[j].id != s.log[k].id;
      }
      NotInOrigin(log, c.order.id);
    }
  }

  /** A cancel that names its order's own symbol stays within the shard. */
  lemma OwnSymbolStays(shards: Shards, s: State, k: nat, e: EngineState, symbols: set<string>)
    requires LogOk(shards, s) && OwnSymbols(s.issued) && k < |s.log| && FromLog(e, Origin(s.log[..k]))
    ensures StaysInShard(e, symbols, s.log[k].command)
  {
    var c := s.log[k].command;
    hide WorkerAfter, Admissible, Execute;
    assert EntryOk(shards, s, k);
    if c.Cancelling? {
      forall t | c.id in Ids(e.registry.Of(t)) ensures t == c.symbol {
        var j := OriginFrom(s.log[..k], c.id);
        assert EntryOk(shards, s, j);
      }
    }
  }

  lemma WholeNext(shards: Shards, s: State, k: nat)
    requires Disjoint(shards) && LogOk(shards, s) && OrdersOk(s.issued) && OwnSymbols(s.issued)
    requires k < |s.log| && WholeOk(shards, s.log[..k])
    ensures WholeOk(shards, s.log[..k + 1])
    ensures var before := WholeAfter(shards, s.log[..k]);
            Admissible(before, s.log[k].command) && s.log[k].response == Execute(before, s.log[k].command).1
  {
    hide OnlyUses, FromLog, UniqueIds, GoodEngine, Restricts, OrdersOk, OwnSymbols, EntryOk, StaysInShard;
    var log, t := s.log[..k], s.log[k];
    var (e, c) := (WholeAfter(shards, log), t.command);
    assert s.log[..k + 1] == log + [t] && (log + [t])[..|log|] == log;
    RightWorker(shards, s, k);
    NewToPrefix(shards, s, k);
    WholeSteps(e, t, log);
    forall w | w in shards
      ensures GoodEngine(WorkerAfter(shards, log + [t], w))
           && Restricts(WorkerAfter(shards, log + [t], w), Execute(e, c).0, shards[w])
      ensures w == t.worker ==> Execute(WorkerAfter(shards, log, w), c).1 == Execute(e, c).1
    {
      WorkerAfterAppend(shards, log, t, w);
      OwnSymbolStays(shards, s, k, e, shards[w]);
      OneWorker(shards[w], WorkerAfter(shards, log, w), e, c);
      assert c.Symbol() in shards[w] <==> w == t.worker;
    }
  }

  lemma RightWorker(shards: Shards, s: State, k: nat)
    requires LogOk(shards, s) && k < |s.log|
    ensures var t := s.log[k];
            && t.worker in shards && t.command.Symbol() in shards[t.worker]
            && var before := WorkerAfter(shards, s.log[..k], t.worker);
               Admissible(before, t.command) && t.response == Execute(before, t.command).1
  {
    assert EntryOk(shards, s, k);
  }

  lemma WholeSteps(e: EngineState, t: Entry, log: seq<Entry>)
    requires GoodEngine(e) && OnlyUses(e, Origin(log).Keys) && FromLog(e, Origin(log))
    requires UniqueIds([t.command], Origin(log).Keys)
    ensures Admissible(e, t.command)
    ensures var e' := Execute(e, t.command).0;
            && GoodEngine(e') && e'.books.Keys == e.books.Keys
            && OnlyUses(e', Origin(log + [t]).Keys) && FromLog(e', Origin(log + [t]))
  {
    var c := t.command;
    var used := UsedNext(e, c, Origin(log).Keys);
    ExecuteKeeps(e, c);
    FromLogNext(e, c, Origin(log));
    OriginAppend(log, t);
    assert (log + [t])[..|log|] == log;
    hide OnlyUses, FromLog, GoodEngine, Execute;
  }

  lemma OneWorker(symbols: set<string>, w: EngineState, e: EngineState, c: Command)
    requires Restricts(w, e, symbols) && GoodEngine(w) && Admissible(e, c) && StaysInShard(e, symbols, c)
    ensures Admissible(w, c) && GoodEngine(Execute(w, c).0)
    ensures if c.Symbol() in symbols then Restricts(Execute(w, c).0, Execute(e, c).0, symbols)
            && Execute(w, c).1 == Execute(e, c).1
            else Restricts(w, Execute(e, c).0, symbols)
  {
    AdmissibleAtWorker(w, e, symbols, c);
    TransparentExactly(w, e, symbols, c);
    ExecuteKeeps(w, c);
  }

  /** Sharding is transparent: when every cancel names its order's own symbol,
      any interleaving of the cluster answers and ends exactly as one engine fed
      the executed commands in order. */
  lemma OneEngine(shards: Shards, s: State)
    requires Inv(shards, s) && OwnSymbols(s.issued)
    ensures var e := WholeAfter(shards, s.log);
            forall w :: w in shards ==> Restricts(s.workers[w], e, shards[w])
    ensures forall k :: 0 <= k < |s.log| ==>
              var before := WholeAfter(shards, s.log[..k]);
              Admissible(before, s.log[k].command) && s.log[k].response == Execute(before, s.log[k].command).1
  {
    WholeAtFirst(shards);
    for k := 0 to |s.log|
      invariant WholeOk(shards, s.log[..k])
      invariant forall j :: 0 <= j < k ==>
                  var before := WholeAfter(shards, s.log[..j]);
                  Admissible(before, s.log[j].command) && s.log[j].response == Execute(before, s.log[j].command).1
    {
      WholeNext(shards, s, k);
    }
    assert s.log[..|s.log|] == s.log;
  }

  // ---------- every run of the cluster ----------

  lemma {:induction false} RunSplits(shards: Shards, s: State, events: seq<Move>, n: nat)
    requires EnabledRun(shards, s, events) && n <= |events|
    ensures EnabledRun(shards, s, events[..n]) && EnabledRun(shards, RunEvents(shards, s, events[..n]), events[n..])
    ensures RunEvents(shards, RunEvents(shards, s, events[..n]), events[n..]) == RunEvents(shards, s, events)
    decreases |events|
  {
    hide Enabled, Next;
    if n == 0 {
      assert events[0..] == events;
    } else {
      RunSplits(shards, Next(shards, s, events[0]), events[1..], n - 1);
      assert events[..n][1..] == events[1..][..n - 1] && events[1..][n - 1..] == events[n..];
    }
  }

  /** Every run from the opening, with workers that share no symbol: a request is
      pending exactly while it is issued and not settled, no command is executed
      twice, and each by the worker that owns its symbol; what is settled after
      `n` moves stays settled alike. When every cancel names its order's own
      symbol, answers and workers are those of one engine fed the log. */
  lemma EveryRun(shards: Shards, events: seq<Move>, n: nat)
    requires Disjoint(shards) && EnabledRun(shards, Opening(shards), events) && n <= |events|
    ensures EnabledRun(shards, Opening(shards), events[..n])
    ensures var (early, s) := (RunEvents(shards, Opening(shards), events[..n]),
                               RunEvents(shards, Opening(shards), events));
            && s.pending == s.issued.Keys - s.outcomes.Keys && s.outcomes.Keys <= s.issued.Keys
            && (forall id :: id in early.outcomes ==> id in s.outcomes && s.outcomes[id] == early.outcomes[id])
            && (forall j, k :: 0 <= j < k < |s.log| ==> s.log[j].id != s.log[k].id)
            && (forall k :: 0 <= k < |s.log| ==> EntryOk(shards, s, k))
            && (forall id :: id in s.outcomes && s.outcomes[id].Resolved? ==> AnswersOwn(s, id, s.outcomes[id].result))
    ensures var s := RunEvents(shards, Opening(shards), events);
            OwnSymbols(s.issued) ==>
              && (forall w ::
                  w in shards ==> w in s.workers && Restricts(s.workers[w], WholeAfter(shards, s.log), shards[w]))
              && forall k :: 0 <= k < |s.log| ==>
                   var before := WholeAfter(shards, s.log[..k]);
                   Admissible(before, s.log[k].command) && s.log[k].response == Execute(before, s.log[k].command).1
  {
    hide EnabledRun, RunEvents, EntryOk, AnswersOwn, OwnSymbols, Restricts, WorkerOk, OrdersOk, Admissible, Execute;
    var opening := Opening(shards);
    OpeningInv(shards);
    RunSplits(shards, opening, events, n);
    RunKeepsInv(shards, opening, events[..n]);
    RunKeepsInv(shards, opening, events);
    var (early, s) := (RunEvents(shards, opening, events[..n]), RunEvents(shards, opening, events));
    forall id | id in early.outcomes ensures id in s.outcomes && s.outcomes[id] == early.outcomes[id] {
      SettledOnce(shards, early, events[n..], id);
    }
    if OwnSymbols(s.issued) {
      OneEngine(shards, s);
    }
  }

  // ---------- a cancel across the boundary ----------

  const ACROSS := Pending("s1", "ETH-USD")

  function Pending(name: string, symbol: string): OrderData {
    OrderData(Client(name), "u", symbol, SELL, STOP_LOSS, 0.0, 1.0, 0.0, PENDING, Some(10.0), None, None, None)
  }

  lemma NotBlank(s: string)
    requires s != [] && !White(s[0])
    ensures !Blank(s)
  {
    assert s[0] in s;
  }

  /** Two symbols, and a stop waiting under the second. */
  const BOTH := EmptyEngine({"BTC-USD", "ETH-USD"}).(registry := Register(EMPTY_REGISTRY, ACROSS))

  /** A stop of ETH-USD cancelled under BTC-USD: one engine finds it, the worker
      that owns BTC-USD does not. */
  lemma CrossSymbolCancel()
    ensures var w := EmptyEngine({"BTC-USD"});
            && GoodEngine(BOTH) && GoodEngine(w) && Restricts(w, BOTH, {"BTC-USD"})
            && !Transparent(w, BOTH, {"BTC-USD"}, Command.Cancelling("BTC-USD", ACROSS.id))
  {
    hide GoodEngine, Restricts, Transparent;
    BothSound();
    EmptyIsSound({"BTC-USD"});
    AcrossTheBoundary(EmptyEngine({"BTC-USD"}), BOTH, {"BTC-USD"}, "BTC-USD", ACROSS.id, "ETH-USD");
  }

  lemma BothSound()
    ensures GoodEngine(BOTH) && Restricts(EmptyEngine({"BTC-USD"}), BOTH, {"BTC-USD"})
    ensures "BTC-USD" in BOTH.books && BOTH.books["BTC-USD"] == EmptyBook("BTC-USD")
    ensures ACROSS in BOTH.registry.Of("ETH-USD") && "BTC-USD" != "ETH-USD"
  {
    var e := EmptyEngine({"BTC-USD", "ETH-USD"});
    assert "BTC-USD" != "ETH-USD" by { assert "BTC-USD"[0] != "ETH-USD"[0]; }
    EmptyIsSound({"BTC-USD", "ETH-USD"});
    AcrossIsValid(e);
    RegisterKeepsEngine(e, ACROSS);
    RegisterKeeps(EMPTY_REGISTRY, ACROSS);
  }

  lemma AcrossIsValid(e: EngineState)
    requires e == EmptyEngine({"BTC-USD", "ETH-USD"})
    ensures Submittable(e, ACROSS) && Validate(e.books.Keys, ACROSS).None? && RegistryOk(EMPTY_REGISTRY)
  {
    NotBlank("s1");
    NotBlank("u");
    EmptyIsSound({"BTC-USD", "ETH-USD"});
  }
}
